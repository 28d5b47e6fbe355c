/** Where `patch` sends the serialised result of one input file
    (lib/cli.js, the three-way `if` at the end of the per-file loop). */
module Routing {
  import opened Options

  /** The destination of one result. `OutputNotPath` is an `output` option
      that is truthy but not a string (a bare `-o` or `--output` parses to
      `true`): the write is attempted with it and does not land in any file. */
  datatype Destination =
    | ToInput(path: string)
    | ToOutput(path: string)
    | ToStdout
    | OutputNotPath(target: Value)

  /** First matching rule wins: `self` overwrites the input; otherwise a
      one-file batch with `output` writes there; otherwise standard output. */
  function Route(bag: Bag, batchSize: nat, inputPath: string): (r: Destination)
    // rule 1: `self` decides alone, whatever `output` and the batch size are
    ensures r.ToInput? <==> Truthy(bag, "self")
    ensures r.ToInput? ==> r.path == inputPath
    // rule 2: the output option is honoured only in a one-file batch without `self`
    ensures (r.ToOutput? || r.OutputNotPath?) <==> !Truthy(bag, "self") && batchSize == 1 && Truthy(bag, "output")
    ensures r.ToOutput? ==> "output" in bag && bag["output"] == Text(r.path) && r.path != ""
    ensures r.OutputNotPath? ==> "output" in bag && r.target == bag["output"] && !bag["output"].Text?
    // rule 3: everything else is echoed
    ensures r.ToStdout? <==> !Truthy(bag, "self") && !(batchSize == 1 && Truthy(bag, "output"))
  {
    if Truthy(bag, "self") then ToInput(inputPath)
    else if batchSize == 1 && Truthy(bag, "output") then
      match bag["output"]
      case Text(path) => ToOutput(path)
      case other => OutputNotPath(other)
    else ToStdout
  }

  /** In a batch of several files the output option never names a
      destination, whatever else is set. */
  lemma MultiFileNeverOutput(bag: Bag, batchSize: nat, inputPath: string)
    requires batchSize != 1
    ensures Route(bag, batchSize, inputPath) == if Truthy(bag, "self") then ToInput(inputPath) else ToStdout
  {
  }
}
