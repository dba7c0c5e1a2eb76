/** A valid candidate that writing loses. */
module WriteExamples {
  import opened Strings
  import opened Documents
  import opened Validator
  import opened Design
  import opened DesignCompiler
  import opened DesignExamples
  import opened Paths
  import opened OutputPaths
  import opened Tools

  lemma ClimbingName(id: string)
    requires id == "../x"
    ensures FileName(id) == "../x.yaml"
  {
    assert Lower(id) == id;
    assert FileName(id)[..4] == id;
  }

  lemma OneSegment(text: string)
    requires text == "x.yaml"
    ensures Segments(text) == [text]
  {
    assert forall i | 0 <= i < |text| :: text[i] != '/';
    assert FirstSlash(text) == |text|;
  }

  lemma ClimbingSegments(text: string)
    requires text == "../x.yaml"
    ensures Segments(text) == ["..", "x.yaml"]
  {
    assert text[0] != '/' && text[1] != '/' && text[2] == '/';
    assert FirstSlash(text) == 2;
    assert text[..2] == ".." && text[3..] == "x.yaml";
    OneSegment(text[3..]);
  }

  /** The way of this id climbs one level and descends none. */
  lemma ClimbingWay(id: string)
    requires id == "../x"
    ensures !Absolute(FileName(id)) && WayOf(Front(id)).ups == 1 && WayOf(Front(id)).downs == []
  {
    ClimbingName(id);
    ClimbingSegments(FileName(id));
    assert Front(id) == [".."];
    assert Front(id)[..0] == [];
  }

  /** Wherever it is written, its graph file is its scenario file. */
  lemma ClimbingIdCoincides(root: Path, at: string, id: string)
    requires id == "../x"
    ensures GraphPath(root, at, id, CompiledGraph(id)) == BaseFile(root, at, id)
  {
    ClimbingWay(id);
    GraphCoincidesExactly(root, at, id);
  }

  /** An accepted design whose candidate validates, and whose scenario is not on disk once it has been written,
      whatever the directory. */
  lemma ClimbingIdLost(py: Python, out: Outside, files: map<Path, Json>, dir: string, id: string, name: string, report: Option<Json>)
    requires id == "../x" && name == "gnb"
    ensures Accepts(OneEach(id), Smallest(id, name))
    ensures var c := CandidateOf(PlanOf(OneEach(id), Smallest(id, name)));
            var at := PlacesOf(py, out, dir, c);
            && CandidateOk(py, c)
            && !OnDisk(Deposit(out, files, at, c, report), at, c)
  {
    PlainNameValidates(py, id, name);
    WrittenAway(py, out, files, dir, PlanOf(OneEach(id), Smallest(id, name)), report);
  }

  lemma WrittenAway(py: Python, out: Outside, files: map<Path, Json>, dir: string, p: Design, report: Option<Json>)
    requires p.header.scenarioId == "../x"
    ensures var c := CandidateOf(p);
            var at := PlacesOf(py, out, dir, c);
            !OnDisk(Deposit(out, files, at, c, report), at, c)
  {
    var c := CandidateOf(p);
    ClimbingIdCoincides(out.root, dir, p.header.scenarioId);
    CompiledKeptExactly(py, out, dir, p);
    ReportIsAside(py, out, dir, c);
    DepositOnDisk(out, files, PlacesOf(py, out, dir, c), c, report);
  }
}
