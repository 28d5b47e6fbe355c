/** Concrete runs of the `patch` command, stated on the model of its loop. */
module Scenarios {
  import opened Options
  import opened Batch

  /** Inputs a, b, c where b cannot be read: a's result, then c's, nothing
      for b, and no file written. */
  lemma UnreadableMiddleInput(io: Io, bag: Bag, transform: Transform)
    requires !io.crashed && !Truthy(bag, "self") && !Truthy(bag, "help")
    requires "a.svg" in io.files && "b.svg" !in io.files && "c.svg" in io.files
    ensures PatchIo(io, ["a.svg", "b.svg", "c.svg"], bag, transform)
         == io.(stdout := io.stdout + transform(io.files["a.svg"], Expand(bag)) + "\n"
                                     + transform(io.files["c.svg"], Expand(bag)) + "\n")
  {
    var paths := ["a.svg", "b.svg", "c.svg"];
    PatchManyFilesEchoes(io, paths, bag, transform);
    assert paths[..2][..1] == ["a.svg"] && paths[..2] == ["a.svg", "b.svg"];
    assert ["a.svg"][..0] == [];
  }

  /** Two readable inputs, no options: both results echoed, in order. */
  lemma TwoInputsEchoed(io: Io, transform: Transform)
    requires !io.crashed && "a.svg" in io.files && "b.svg" in io.files
    ensures PatchIo(io, ["a.svg", "b.svg"], map[], transform)
         == io.(stdout := io.stdout + transform(io.files["a.svg"], map[]) + "\n"
                                     + transform(io.files["b.svg"], map[]) + "\n")
  {
    var paths := ["a.svg", "b.svg"];
    PatchManyFilesEchoes(io, paths, map[], transform);
    assert Expand(map[]) == map[];
    assert paths[..1] == ["a.svg"] && ["a.svg"][..0] == [];
  }

  /** One input, `self` off, `output` set, a patch that changes nothing:
      the output file holds the input's content and nothing is echoed. */
  lemma SingleInputToOutputFile(io: Io)
    requires !io.crashed && "a.svg" in io.files
    ensures var bag := map["self" := Flag(false), "output" := Text("out.svg")];
      PatchIo(io, ["a.svg"], bag, (text, _) => text)
        == io.(files := io.files["out.svg" := io.files["a.svg"]])
  {
  }

  /** One input with both `self` and `output`: the input is overwritten and
      the output path is left as it was. */
  lemma SelfBeatsOutput(io: Io, transform: Transform)
    requires !io.crashed && "a.svg" in io.files
    ensures var bag := map["self" := Flag(true), "output" := Text("out.svg")];
      var r := PatchIo(io, ["a.svg"], bag, transform);
      && r.files["a.svg"] == transform(io.files["a.svg"], bag)
      && ("out.svg" in r.files <==> "out.svg" in io.files)
      && ("out.svg" in io.files ==> r.files["out.svg"] == io.files["out.svg"])
      && r.stdout == io.stdout
  {
  }
}
