/** The `patch` command's per-file loop (lib/cli.js, `inputPaths.forEach`)
    as a function of the state it touches. */
module Batch {
  import opened Options
  import opened Routing

  /** What the loop can observe and change: the file system (path to
      content; a path that is absent cannot be read), standard output, the
      "Can't load file" diagnostics (one entry per path reported), and whether
      an exception has escaped and stopped the run. */
  datatype Io = Io(files: map<string, string>, stdout: string, diagnostics: seq<string>, crashed: bool)

  /** Parse, patch with the options object, serialise: the svg-kit calls. */
  type Transform = (string, Bag) -> string

  /** The output option names a file only in a one-file batch without `self`. */
  predicate WritesOutput(bag: Bag, batchSize: nat, path: string) {
    !Truthy(bag, "self") && batchSize == 1 && "output" in bag && bag["output"] == Text(path)
  }

  /** One iteration of the loop for `inputPath`. */
  function Step(io: Io, batchSize: nat, bag: Bag, transform: Transform, inputPath: string): (r: Io)
    // a stopped run stays stopped and does nothing more
    ensures io.crashed ==> r == io
    // an unreadable input writes and echoes nothing; it is reported only in a one-file batch
    ensures inputPath !in io.files ==> r.files == io.files && r.stdout == io.stdout && r.crashed == io.crashed
    ensures r.diagnostics == io.diagnostics
         || (!io.crashed && batchSize == 1 && inputPath !in io.files && r.diagnostics == io.diagnostics + [inputPath])
    // output is only appended to, and no file disappears
    ensures io.stdout <= r.stdout && io.files.Keys <= r.files.Keys
    // the only file written is the input (with `self`) or the output path (one-file batch)
    ensures forall q :: q in r.files && (q !in io.files || r.files[q] != io.files[q]) ==>
      (q == inputPath && Truthy(bag, "self")) || WritesOutput(bag, batchSize, q)
    // the run stops only on an `output` that is not a path
    ensures r.crashed ==> io.crashed || (batchSize == 1 && !Truthy(bag, "self") && Truthy(bag, "output") && !bag["output"].Text?)
  {
    if io.crashed then io
    else if inputPath !in io.files then
      if batchSize == 1 then io.(diagnostics := io.diagnostics + [inputPath]) else io
    else
      var outputStr := transform(io.files[inputPath], bag);
      match Route(bag, batchSize, inputPath)
      case ToInput(p) => io.(files := io.files[p := outputStr])
      case ToOutput(p) => io.(files := io.files[p := outputStr])
      case ToStdout => io.(stdout := io.stdout + outputStr + "\n")
      case OutputNotPath(_) => io.(crashed := true)
  }

  /** The loop run over `inputPaths` in order; the batch size is the length
      of the whole input list, which may be longer than the part run so far. */
  function Run(io: Io, inputPaths: seq<string>, batchSize: nat, bag: Bag, transform: Transform): (r: Io)
    ensures io.stdout <= r.stdout && io.diagnostics <= r.diagnostics && io.files.Keys <= r.files.Keys
    // several inputs: nothing is ever reported
    ensures batchSize != 1 ==> r.diagnostics == io.diagnostics
    // every file written is an input under `self` or the output path of a one-file batch
    ensures forall q :: q in r.files && (q !in io.files || r.files[q] != io.files[q]) ==>
      (q in inputPaths && Truthy(bag, "self")) || WritesOutput(bag, batchSize, q)
    ensures r.crashed ==> io.crashed || (batchSize == 1 && !Truthy(bag, "self") && Truthy(bag, "output") && !bag["output"].Text?)
    decreases |inputPaths|
  {
    if inputPaths == [] then io
    else Step(Run(io, inputPaths[..|inputPaths| - 1], batchSize, bag, transform), batchSize, bag, transform, inputPaths[|inputPaths| - 1])
  }

  /** The text a batch echoes when every result goes to standard output:
      each readable input's result followed by a newline, in input order. */
  function Echoed(files: map<string, string>, inputPaths: seq<string>, bag: Bag, transform: Transform): string
    decreases |inputPaths|
  {
    if inputPaths == [] then ""
    else
      var last := inputPaths[|inputPaths| - 1];
      Echoed(files, inputPaths[..|inputPaths| - 1], bag, transform)
        + (if last in files then transform(files[last], bag) + "\n" else "")
  }

  /** The `patch` command skips all work when it has no input or `help` is set. */
  predicate ShowsHelp(inputPaths: seq<string>, bag: Bag) {
    inputPaths == [] || Truthy(bag, "help")
  }

  /** The options object once `patch` has returned. */
  function PatchArgs(bag: Bag, inputPaths: seq<string>): (r: Bag)
    ensures ShowsHelp(inputPaths, bag) ==> r == bag
    // otherwise the presets that are on switch their flags on ...
    ensures !ShowsHelp(inputPaths, bag) && Truthy(bag, IconKey) ==> forall k :: k in IconFlags ==> k in r && r[k] == Flag(true)
    ensures !ShowsHelp(inputPaths, bag) && Truthy(bag, UiKey) ==> forall k :: k in UiFlags ==> k in r && r[k] == Flag(true)
    // ... and every other entry is kept
    ensures bag.Keys <= r.Keys
    ensures forall k :: k in r && (k !in bag || r[k] != bag[k]) ==>
      !ShowsHelp(inputPaths, bag) && ((Truthy(bag, IconKey) && k in IconFlags) || (Truthy(bag, UiKey) && k in UiFlags))
  {
    if ShowsHelp(inputPaths, bag) then bag else Expand(bag)
  }

  /** The state once `patch` has returned. */
  function PatchIo(io: Io, inputPaths: seq<string>, bag: Bag, transform: Transform): (r: Io)
    ensures ShowsHelp(inputPaths, bag) ==> r == io
    ensures io.stdout <= r.stdout && io.files.Keys <= r.files.Keys
    // several inputs: no report, and without `self` no file at all is written
    ensures |inputPaths| > 1 ==> r.diagnostics == io.diagnostics
    ensures |inputPaths| > 1 && !Truthy(bag, "self") && !io.crashed ==> r.files == io.files && !r.crashed
    // every file written is an input under `self` or the output path of a one-file batch
    ensures forall q :: q in r.files && (q !in io.files || r.files[q] != io.files[q]) ==>
      (q in inputPaths && Truthy(bag, "self")) || WritesOutput(bag, |inputPaths|, q)
  {
    if ShowsHelp(inputPaths, bag) then io
    else
      var expanded := Expand(bag);
      assert "self" !in IconFlags && "self" !in UiFlags && "output" !in IconFlags && "output" !in UiFlags;
      assert Truthy(expanded, "self") == Truthy(bag, "self");
      assert forall q :: WritesOutput(expanded, |inputPaths|, q) == WritesOutput(bag, |inputPaths|, q);
      if |inputPaths| > 1 && !Truthy(bag, "self") && !io.crashed then
        MultiFileEchoesInOrder(io, inputPaths, |inputPaths|, expanded, transform);
        Run(io, inputPaths, |inputPaths|, expanded, transform)
      else
        Run(io, inputPaths, |inputPaths|, expanded, transform)
  }

  /** A path that cannot be read leaves files and output alone; it is
      reported only when it is the whole batch. */
  lemma ReadFailureSkipped(io: Io, batchSize: nat, bag: Bag, transform: Transform, inputPath: string)
    requires !io.crashed && inputPath !in io.files
    ensures var r := Step(io, batchSize, bag, transform, inputPath);
      && r.files == io.files && r.stdout == io.stdout && !r.crashed
      && r.diagnostics == if batchSize == 1 then io.diagnostics + [inputPath] else io.diagnostics
  {
  }

  /** Running `a` then `b` is running `a + b`. */
  lemma {:induction false} RunAppend(io: Io, a: seq<string>, b: seq<string>, batchSize: nat, bag: Bag, transform: Transform)
    ensures Run(io, a + b, batchSize, bag, transform) == Run(Run(io, a, batchSize, bag, transform), b, batchSize, bag, transform)
    decreases |b|
  {
    if b == [] {
      assert a + b == a;
    } else {
      var b' := b[..|b| - 1];
      assert (a + b)[..|a + b| - 1] == a + b';
      assert (a + b)[|a + b| - 1] == b[|b| - 1];
      RunAppend(io, a, b', batchSize, bag, transform);
    }
  }

  /** Once an exception has escaped, nothing more happens. */
  lemma {:induction false} RunAfterCrash(io: Io, inputPaths: seq<string>, batchSize: nat, bag: Bag, transform: Transform)
    requires io.crashed
    ensures Run(io, inputPaths, batchSize, bag, transform) == io
    decreases |inputPaths|
  {
    if inputPaths != [] {
      RunAfterCrash(io, inputPaths[..|inputPaths| - 1], batchSize, bag, transform);
    }
  }

  /** Several inputs and no `self`: no file is written (so neither is the
      output path), nothing is reported, and standard output receives each
      readable input's result and a newline, in input order. */
  lemma {:induction false} MultiFileEchoesInOrder(io: Io, inputPaths: seq<string>, batchSize: nat, bag: Bag, transform: Transform)
    requires batchSize != 1 && !Truthy(bag, "self") && !io.crashed
    ensures Run(io, inputPaths, batchSize, bag, transform)
         == io.(stdout := io.stdout + Echoed(io.files, inputPaths, bag, transform))
    decreases |inputPaths|
  {
    if inputPaths == [] {
      assert io.stdout + "" == io.stdout;
    } else {
      var init := inputPaths[..|inputPaths| - 1];
      var last := inputPaths[|inputPaths| - 1];
      MultiFileEchoesInOrder(io, init, batchSize, bag, transform);
      var before := Echoed(io.files, init, bag, transform);
      if last in io.files {
        var out := transform(io.files[last], bag);
        assert io.stdout + before + out + "\n" == io.stdout + (before + (out + "\n"));
      } else {
        assert before + "" == before;
      }
    }
  }

  /** With `self`, nothing is echoed and nothing stops the run; no path is
      created, a path outside the batch keeps its content, and a report is
      made only in a one-file batch. */
  lemma {:induction false} SelfOverwritesOnlyInputs(io: Io, inputPaths: seq<string>, batchSize: nat, bag: Bag, transform: Transform)
    requires Truthy(bag, "self") && !io.crashed
    ensures var r := Run(io, inputPaths, batchSize, bag, transform);
      && r.stdout == io.stdout && !r.crashed
      && r.files.Keys == io.files.Keys
      && (forall q :: q in io.files && q !in inputPaths ==> r.files[q] == io.files[q])
      && (batchSize != 1 ==> r.diagnostics == io.diagnostics)
    decreases |inputPaths|
  {
    if inputPaths != [] {
      var init := inputPaths[..|inputPaths| - 1];
      SelfOverwritesOnlyInputs(io, init, batchSize, bag, transform);
    }
  }

  /** With `self` and no path listed twice, each readable input ends up
      holding its own patched content. */
  lemma {:induction false} SelfPatchesEachInput(io: Io, inputPaths: seq<string>, batchSize: nat, bag: Bag, transform: Transform)
    requires Truthy(bag, "self") && !io.crashed
    requires forall i, j :: 0 <= i < j < |inputPaths| ==> inputPaths[i] != inputPaths[j]
    ensures var r := Run(io, inputPaths, batchSize, bag, transform);
      forall p :: p in io.files ==> p in r.files && r.files[p] == if p in inputPaths then transform(io.files[p], bag) else io.files[p]
    decreases |inputPaths|
  {
    if inputPaths != [] {
      var init := inputPaths[..|inputPaths| - 1];
      var last := inputPaths[|inputPaths| - 1];
      SelfPatchesEachInput(io, init, batchSize, bag, transform);
      SelfOverwritesOnlyInputs(io, init, batchSize, bag, transform);
      forall p | p in inputPaths
        ensures p in init || p == last
      {
        var i :| 0 <= i < |inputPaths| && inputPaths[i] == p;
        if i < |inputPaths| - 1 { assert init[i] == p; }
      }
    }
  }

  /** A one-file batch: the three-way routing decides the whole effect. */
  lemma SingleFile(io: Io, inputPath: string, bag: Bag, transform: Transform)
    requires !io.crashed
    ensures var r := Run(io, [inputPath], 1, bag, transform);
      if inputPath !in io.files then
        r == io.(diagnostics := io.diagnostics + [inputPath])
      else
        var out := transform(io.files[inputPath], bag);
        if Truthy(bag, "self") then r == io.(files := io.files[inputPath := out])
        else if Truthy(bag, "output") && bag["output"].Text? then r == io.(files := io.files[bag["output"].text := out])
        else if Truthy(bag, "output") then r == io.(crashed := true)
        else r == io.(stdout := io.stdout + out + "\n")
  {
  }

  /** With no input or with `help`, `patch` reads, writes and echoes nothing. */
  lemma HelpDoesNothing(io: Io, inputPaths: seq<string>, bag: Bag, transform: Transform)
    requires ShowsHelp(inputPaths, bag)
    ensures PatchIo(io, inputPaths, bag, transform) == io && PatchArgs(bag, inputPaths) == bag
  {
  }

  /** The command as a whole, several inputs, no `self`: files untouched
      (in particular the output path), results echoed in order. The presets
      cannot switch `self` on. */
  lemma PatchManyFilesEchoes(io: Io, inputPaths: seq<string>, bag: Bag, transform: Transform)
    requires |inputPaths| > 1 && !Truthy(bag, "help") && !Truthy(bag, "self") && !io.crashed
    ensures PatchIo(io, inputPaths, bag, transform)
         == io.(stdout := io.stdout + Echoed(io.files, inputPaths, Expand(bag), transform))
  {
    var expanded := Expand(bag);
    assert "self" !in IconFlags && "self" !in UiFlags;
    assert !Truthy(expanded, "self");
    MultiFileEchoesInOrder(io, inputPaths, |inputPaths|, expanded, transform);
  }
}
