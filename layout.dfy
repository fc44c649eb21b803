/**
 * The paths the noxfile derives from the project root (the directory holding it), and the
 * ordered list of (input, output) pairs of pinned requirements files.
 */
module Layout {
  import opened Paths

  /** The `jsonschema` package directory (PACKAGE). */
  function Package(root: Path): (p: Path)
    ensures Parent(p) == root && Name(p) == "jsonschema"
  {
    Join(root, "jsonschema")
  }

  /** The documentation directory (DOCS). */
  function DocsDir(root: Path): (p: Path)
    ensures Parent(p) == root && Name(p) == "docs"
  {
    Join(root, "docs")
  }

  /** The checkout of the JSON-Schema-Test-Suite handed to the test runner. */
  function TestSuite(root: Path): (p: Path)
    ensures Parent(p) == root && Name(p) == "json"
  {
    Join(root, "json")
  }

  /** REQUIREMENTS["docs"]. */
  function DocsRequirements(root: Path): (p: Path)
    ensures Parent(p) == DocsDir(root) && Name(p) == "requirements.txt"
    ensures Stem(p) == "requirements" && Suffix(p) == ".txt"
  {
    LastDotOfExtended("requirements", "txt");
    assert "requirements.txt" == "requirements" + "." + "txt";
    Join(DocsDir(root), "requirements.txt")
  }

  /** The values of REQUIREMENTS, in insertion order. */
  function RequirementsOutputs(root: Path): (outputs: seq<Path>)
    ensures |outputs| == 1
    ensures forall i :: 0 <= i < |outputs| ==>
      RelativeTo(outputs[i], root).Some? && Name(outputs[i]) != "" && Suffix(outputs[i]) == ".txt"
  {
    var out := DocsRequirements(root);
    assert out.parts == root.parts + ["docs", "requirements.txt"];
    assert out.parts[..|root.parts|] == root.parts;
    [out]
  }

  /** The input file a pinned output is compiled from: its sibling named `<stem>.in`. */
  function InputFor(output: Path): (input: Path)
    ensures Parent(input) == Parent(output) && Name(input) == Stem(output) + ".in"
  {
    Join(Parent(output), Stem(output) + ".in")
  }

  /** REQUIREMENTS_IN: one (input, output) pair per output, in the outputs' order. */
  function RequirementsIn(outputs: seq<Path>): (pairs: seq<(Path, Path)>)
    ensures |pairs| == |outputs|
    ensures forall i :: 0 <= i < |outputs| ==>
      pairs[i].1 == outputs[i] && Parent(pairs[i].0) == Parent(outputs[i]) && Name(pairs[i].0) == Stem(outputs[i]) + ".in"
  {
    seq(|outputs|, i requires 0 <= i < |outputs| => (InputFor(outputs[i]), outputs[i]))
  }

  /** An input file has the same stem as its output and the suffix ".in". */
  lemma SiblingInput(output: Path)
    requires Name(output) != ""
    ensures Parent(InputFor(output)) == Parent(output)
    ensures Stem(InputFor(output)) == Stem(output) && Suffix(InputFor(output)) == ".in"
  {
    var stem := Stem(output);
    StemSuffixSplit(output);
    var n := Name(InputFor(output));
    assert n == stem + "." + "in";
    LastDotOfExtended(stem, "in");
    assert HasSuffix(n);
    assert n[..|stem|] == stem;
  }

  /** For this repository the chain is the single pair docs/requirements.in -> docs/requirements.txt. */
  lemma RequirementsChainOfRepository(root: Path)
    ensures RequirementsIn(RequirementsOutputs(root)) == [(Join(DocsDir(root), "requirements.in"), DocsRequirements(root))]
  {
    var out := DocsRequirements(root);
    LastDotOfExtended("requirements", "txt");
    assert Name(out) == "requirements" + "." + "txt";
    assert Stem(out) == "requirements";
    assert Stem(out) + ".in" == "requirements.in";
    var pairs := RequirementsIn(RequirementsOutputs(root));
    assert pairs[0].0 == InputFor(out) == Join(DocsDir(root), "requirements.in");
  }
}
