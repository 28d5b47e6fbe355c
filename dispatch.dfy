/** `cli` in lib/cli.js: pick the command from the positional arguments,
    normalise the options object and look the command up. */
module Commands {
  import opened Options

  datatype Option<T> = None | Some(value: T)

  /** The commands registered in `cli.commands`. */
  datatype Command = Patch

  const CommandNames: set<string> := {"patch"}

  /** Names every plain JavaScript object inherits from `Object.prototype`. */
  const PrototypeMembers: set<string> := {
    "constructor", "hasOwnProperty", "isPrototypeOf", "propertyIsEnumerable",
    "toLocaleString", "toString", "valueOf", "__proto__",
    "__defineGetter__", "__defineSetter__", "__lookupGetter__", "__lookupSetter__"
  }

  /** What `cli.commands[command]` yields, the table being an object literal. */
  datatype Found = Registered(command: Command) | Inherited(name: string) | Missing

  /** The lookup as written: an inherited member is truthy, so it passes the
      "unknown command" test. */
  function LookupAsWritten(name: string): (r: Found)
    ensures r.Missing? <==> name !in CommandNames && name !in PrototypeMembers
    ensures r.Registered? <==> name in CommandNames
  {
    if name == "patch" then Registered(Patch)
    else if name in PrototypeMembers then Inherited(name)
    else Missing
  }

  /** The lookup as intended: only a registered command is found. */
  function Lookup(name: string): (r: Option<Command>)
    ensures r.Some? <==> name in CommandNames
    ensures r.Some? ==> LookupAsWritten(name) == Registered(r.value)
  {
    if name == "patch" then Some(Patch) else None
  }

  /** "toString" is no command, yet the written lookup does not reject it;
      the intended lookup does, and so it does every inherited name. */
  lemma InheritedNameNotRejected()
    ensures !LookupAsWritten("toString").Missing? && "toString" !in CommandNames
    ensures forall name :: name in PrototypeMembers ==> Lookup(name) == None
  {
  }

  /** The parser always hands over the positional arguments as a list under "_". */
  predicate Parsed(bag: Bag) {
    "_" in bag && bag["_"].List?
  }

  /** The object the command receives: "_" deleted, and `o` copied to `output`
      when it is truthy. */
  function Normalise(bag: Bag): (r: Bag)
    ensures "_" !in r
    ensures Truthy(bag, "o") ==> "output" in r && r["output"] == bag["o"]
    ensures !Truthy(bag, "o") ==> r == bag - {"_"}
    ensures forall k :: k != "_" && k != "output" ==> (k in r <==> k in bag) && (k in bag ==> r[k] == bag[k])
  {
    var withoutPositional := bag - {"_"};
    if Truthy(withoutPositional, "o") then withoutPositional["output" := withoutPositional["o"]]
    else withoutPositional
  }

  /** How `cli` ends: the version banner, the usage text, or a command run
      on the input paths with the normalised options. */
  datatype Outcome = ShowVersion | ShowUsage | Invoke(command: Command, inputPaths: seq<string>, args: Bag)

  function Dispatch(bag: Bag): (r: Outcome)
    requires Parsed(bag)
    ensures r.ShowVersion? <==> Truthy(bag, "version")
    // a command runs exactly when the first positional argument names one
    ensures r.Invoke? <==> !Truthy(bag, "version") && |bag["_"].items| >= 1 && bag["_"].items[0] in CommandNames
    // ... and it receives the remaining positional arguments, in order
    ensures r.Invoke? ==> Lookup(bag["_"].items[0]) == Some(r.command)
    ensures r.Invoke? ==> r.inputPaths == bag["_"].items[1..] && r.args == Normalise(bag)
  {
    var positional := bag["_"].items;
    if Truthy(bag, "version") then ShowVersion
    else if |positional| < 1 then ShowUsage
    else match Lookup(positional[0])
      case None => ShowUsage
      case Some(command) => Invoke(command, positional[1..], Normalise(bag))
  }

  /** No positional argument, or an unknown command, gives the usage text
      (unless `version` is asked for). */
  lemma UsageOnBadCommand(bag: Bag)
    requires Parsed(bag) && !Truthy(bag, "version")
    ensures Dispatch(bag).ShowUsage? <==> bag["_"].items == [] || bag["_"].items[0] !in CommandNames
  {
  }
}
