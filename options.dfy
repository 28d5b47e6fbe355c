/** The parsed command line as `cli` in lib/cli.js holds it: a plain object
    from option name to the value the argument parser gave it, and the
    `patch` command's preset flags. */
module Options {

  /** A value the argument parser can put in the options object: a boolean
      flag, a string argument, a number, or the positional list kept under
      the key "_". */
  datatype Value = Flag(on: bool) | Text(text: string) | Number(n: int) | List(items: seq<string>)

  /** The options object. */
  type Bag = map<string, Value>

  /** JavaScript truthiness of a value: `false`, `""` and `0` are falsy,
      every array is truthy. */
  predicate IsTruthy(v: Value) {
    match v
    case Flag(b) => b
    case Text(s) => s != ""
    case Number(n) => n != 0
    case List(_) => true
  }

  /** `args[key]` used as a condition; a missing key reads as `undefined`. */
  predicate Truthy(bag: Bag, key: string) {
    key in bag && IsTruthy(bag[key])
  }

  const IconKey: string := "spellcast-icon"
  const UiKey: string := "spellcast-ui"

  /** The primitive flags that `--spellcast-icon` turns on. */
  const IconFlags: set<string> :=
    {"removeIds", "removeDefaultStyles", "colorClass", "removeComments", "removeExoticNamespaces", "removeWhiteLines"}

  /** The primitive flags that `--spellcast-ui` turns on. */
  const UiFlags: set<string> :=
    {"removeDefaultStyles", "removeComments", "removeExoticNamespaces", "removeWhiteLines"}

  /** Every key of `keys` set to `true`; every other entry kept. */
  function TurnOn(bag: Bag, keys: set<string>): (r: Bag)
    ensures r.Keys == bag.Keys + keys
    ensures forall k :: k in keys ==> r[k] == Flag(true)
    ensures forall k :: k in bag && k !in keys ==> r[k] == bag[k]
  {
    map k | k in bag.Keys + keys :: if k in keys then Flag(true) else bag[k]
  }

  /** Preset expansion of the `patch` command: the icon preset is looked at
      first, then the UI preset on the object the first step produced. */
  function Expand(bag: Bag): (r: Bag)
    // each preset that is on leaves all of its flags true, whatever they were
    ensures Truthy(bag, IconKey) ==> forall k :: k in IconFlags ==> k in r && r[k] == Flag(true)
    ensures Truthy(bag, UiKey) ==> forall k :: k in UiFlags ==> k in r && r[k] == Flag(true)
    // expansion only ever adds `true`: every entry is kept or becomes true
    ensures bag.Keys <= r.Keys
    ensures forall k :: k in r ==> r[k] == Flag(true) || (k in bag && r[k] == bag[k])
    // a key outside both presets is untouched, present or not
    ensures forall k :: k !in IconFlags && k !in UiFlags ==> (k in r <==> k in bag) && (k in bag ==> r[k] == bag[k])
    // keys a preset does not name (the presets themselves, `self`, `output`) read the same
    ensures forall k :: k !in IconFlags && k !in UiFlags ==> (Truthy(r, k) <==> Truthy(bag, k))
    // an entry that is added or changed belongs to a preset that is on
    ensures forall k :: k in r && (k !in bag || r[k] != bag[k]) ==>
      (Truthy(bag, IconKey) && k in IconFlags) || (Truthy(bag, UiKey) && k in UiFlags)
  {
    var afterIcon := if Truthy(bag, IconKey) then TurnOn(bag, IconFlags) else bag;
    if Truthy(afterIcon, UiKey) then TurnOn(afterIcon, UiFlags) else afterIcon
  }

  /** Expanding an already expanded object changes nothing. */
  lemma ExpandIdempotent(bag: Bag)
    ensures Expand(Expand(bag)) == Expand(bag)
  {
  }

  /** With neither preset on, expansion is the identity. */
  lemma ExpandWithoutPresets(bag: Bag)
    requires !Truthy(bag, IconKey) && !Truthy(bag, UiKey)
    ensures Expand(bag) == bag
  {
  }

  /** Both presets on: the flags switched on are exactly the union of the
      two presets, whatever order they are applied in. */
  lemma ExpandBothPresets(bag: Bag)
    requires Truthy(bag, IconKey) && Truthy(bag, UiKey)
    ensures Expand(bag) == TurnOn(bag, IconFlags + UiFlags)
    ensures Expand(bag) == TurnOn(TurnOn(bag, UiFlags), IconFlags)
  {
  }
}
