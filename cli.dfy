/** The imperative side of lib/cli.js: the options object that `cli` and
    `patch` update in place, and the process state (file system, standard
    output, diagnostics) that the per-file loop changes step by step. */
module Cli {
  import opened Options
  import opened Routing
  import opened Batch
  import opened Commands

  /** The options object produced by the argument parser. */
  class Args {
    var bag: Bag

    constructor (parsed: Bag)
      ensures bag == parsed
    {
      bag := parsed;
    }

    /** The two preset blocks of `patch`, one chained assignment each. */
    method ExpandPresets()
      modifies this
      ensures bag == Expand(old(bag))
    {
      if Truthy(bag, IconKey) {
        bag := bag["removeIds" := Flag(true)]["removeDefaultStyles" := Flag(true)]
                  ["colorClass" := Flag(true)]["removeComments" := Flag(true)]
                  ["removeExoticNamespaces" := Flag(true)]["removeWhiteLines" := Flag(true)];
      }
      if Truthy(bag, UiKey) {
        bag := bag["removeDefaultStyles" := Flag(true)]["removeComments" := Flag(true)]
                  ["removeExoticNamespaces" := Flag(true)]["removeWhiteLines" := Flag(true)];
      }
    }
  }

  /** What the process can observe: files, standard output, the diagnostics
      printed on the terminal, and whether an exception has escaped. */
  class Host {
    var files: map<string, string>
    var stdout: string
    var diagnostics: seq<string>
    var crashed: bool

    constructor (initialFiles: map<string, string>)
      ensures State() == Io(initialFiles, "", [], false)
    {
      files, stdout, diagnostics, crashed := initialFiles, "", [], false;
    }

    function State(): Io
      reads this
    {
      Io(files, stdout, diagnostics, crashed)
    }

    /** `cli.commands.patch`: the help check, the presets, then the loop
        over the inputs with the three-way routing of each result. */
    method Patch(inputPaths: seq<string>, args: Args, transform: Transform)
      modifies this, args
      ensures args.bag == PatchArgs(old(args.bag), inputPaths)
      ensures State() == PatchIo(old(State()), inputPaths, old(args.bag), transform)
    {
      if inputPaths == [] || Truthy(args.bag, "help") {
        return;
      }
      args.ExpandPresets();
      var batchSize := |inputPaths|;
      var i := 0;
      while i < batchSize && !crashed
        invariant 0 <= i <= batchSize
        invariant args.bag == Expand(old(args.bag))
        invariant State() == Run(old(State()), inputPaths[..i], batchSize, args.bag, transform)
      {
        var inputPath := inputPaths[i];
        if inputPath !in files {
          if batchSize == 1 {
            diagnostics := diagnostics + [inputPath];
          }
        } else {
          var outputStr := transform(files[inputPath], args.bag);
          match Route(args.bag, batchSize, inputPath)
          case ToInput(path) => files := files[path := outputStr];
          case ToOutput(path) => files := files[path := outputStr];
          case ToStdout => stdout := stdout + outputStr + "\n";
          case OutputNotPath(_) => crashed := true;
        }
        assert inputPaths[..i + 1][..i] == inputPaths[..i];
        i := i + 1;
      }
      assert inputPaths[..i] + inputPaths[i..] == inputPaths;
      RunAppend(old(State()), inputPaths[..i], inputPaths[i..], batchSize, args.bag, transform);
      if i < batchSize {
        RunAfterCrash(State(), inputPaths[i..], batchSize, args.bag, transform);
      } else {
        assert inputPaths[i..] == [];
      }
    }

    /** `cli`: version, then positional count, then split, normalise, look up
        and run. The help and usage texts are not modelled beyond the outcome. */
    method Cli(args: Args, transform: Transform) returns (outcome: Outcome)
      requires Parsed(args.bag)
      modifies this, args
      ensures outcome == Dispatch(old(args.bag))
      ensures outcome.ShowVersion? ==> args.bag == old(args.bag) && State() == old(State())
      ensures outcome.ShowUsage? ==> State() == old(State())
      ensures outcome.ShowUsage? ==> args.bag == if old(args.bag)["_"].items == [] then old(args.bag) else Normalise(old(args.bag))
      ensures outcome.Invoke? ==> args.bag == PatchArgs(outcome.args, outcome.inputPaths)
      ensures outcome.Invoke? ==> State() == PatchIo(old(State()), outcome.inputPaths, outcome.args, transform)
    {
      if Truthy(args.bag, "version") {
        return ShowVersion;
      }
      var positional := args.bag["_"].items;
      if |positional| < 1 {
        return ShowUsage;
      }
      var command := positional[0];
      var inputPaths := positional[1..];
      args.bag := args.bag - {"_"};
      if Truthy(args.bag, "o") {
        args.bag := args.bag["output" := args.bag["o"]];
      }
      var handler := Lookup(command);
      if handler.None? {
        return ShowUsage;
      }
      outcome := Invoke(handler.value, inputPaths, args.bag);
      Patch(inputPaths, args, transform);
    }
  }
}
