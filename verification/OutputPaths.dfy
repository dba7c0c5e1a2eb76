/** Where `write_validated_environment_yaml` puts its files, and when they get in each other's way. */
module OutputPaths {
  import opened Strings
  import opened Lists
  import opened DesignCompiler
  import opened Paths

  // ---- The four files ----

  /** The requested segments below the root, without the longest overlap with its end, among the first `n`. */
  function Overlap(root: Path, requested: Path, n: nat): Path
    requires n <= |root| && n <= |requested|
  {
    if n == 0 then root + requested
    else if root[|root| - n..] == requested[..n] then root + requested[n..]
    else Overlap(root, requested, n - 1)
  }

  /** `_resolve_candidate_output_dir` */
  function OutputDir(root: Path, requested: string): Path {
    var text := Strip(requested);
    if Absolute(text) then Segments(text)
    else Overlap(root, Segments(text), if |root| <= |Segments(text)| then |root| else |Segments(text)|)
  }

  method ResolveCandidateOutputDir(root: Path, requested: string) returns (dir: Path)
    ensures dir == OutputDir(root, requested)
  {
    var text := Strip(requested);
    var parts := Segments(text);
    if Absolute(text) {
      return parts;
    }
    if parts == [] {
      assert root + parts == root;
      return root;
    }
    var n: nat := if |root| <= |parts| then |root| else |parts|;
    while n > 0
      invariant n <= |root| && n <= |parts|
      invariant OutputDir(root, requested) == Overlap(root, parts, n)
    {
      if root[|root| - n..] == parts[..n] {
        return root + parts[n..];
      }
      n := n - 1;
    }
    return root + parts;
  }

  /** The scenario file as it is addressed, before links and dots are resolved. */
  function BasePath(root: Path, at: string, id: string): Path {
    Join(OutputDir(root, at), FileName(id))
  }

  function BaseFile(root: Path, at: string, id: string): Path {
    Resolve(BasePath(root, at, id))
  }

  /** The output directory relative to the root, or nothing if it is elsewhere. */
  function RelativeDir(root: Path, at: string, id: string): Path {
    var directory := Resolve(Parent(BasePath(root, at, id)));
    if Resolve(root) <= directory then directory[|Resolve(root)|..] else []
  }

  function OverlayFile(root: Path, at: string, id: string): Path {
    Resolve(Join(root + ["split_mode"] + RelativeDir(root, at, id), FileName(id)))
  }

  /** The graph file that a topology names, seen from the scenario file. */
  function GraphPath(root: Path, at: string, id: string, graphFile: string): Path {
    Resolve(Join(Parent(BasePath(root, at, id)), graphFile))
  }

  function ReportFile(root: Path, at: string, id: string): Path {
    Resolve(WithSuffix(BasePath(root, at, id), ".design.json"))
  }

  predicate SameStem(p: Path, q: Path) {
    Lower(Stem(NameOf(p))) == Lower(Stem(NameOf(q)))
  }

  /** The text that the overlay names its scenario by. */
  function BaseReference(root: Path, at: string, id: string): string {
    Relative(Parent(OverlayFile(root, at, id)), BaseFile(root, at, id))
  }

  // ---- The file name ----

  /** The directories that a scenario id names, and the name of its file. */
  function Front(id: string): Path {
    Parent(Segments(FileName(id)))
  }

  function Last(id: string): string {
    NameOf(Segments(FileName(id)))
  }

  lemma FileNameSplit(id: string)
    ensures Segments(FileName(id)) == Front(id) + [Last(id)] && EndsYaml(Last(id))
  {
    var stem := FileName(id)[..|FileName(id)| - 5];
    assert FileName(id) == stem + YAML;
    YamlSegment(stem);
  }

  lemma JoinNamed(directory: Path, id: string)
    ensures Join(directory, FileName(id)) != [] && NameOf(Join(directory, FileName(id))) == Last(id)
    ensures Parent(Join(directory, FileName(id))) == if Absolute(FileName(id)) then Front(id) else directory + Front(id)
  {
    FileNameSplit(id);
    LastOf(directory, Segments(FileName(id)));
  }

  lemma JoinResolved(directory: Path, id: string)
    ensures var p := Join(directory, FileName(id));
            Resolve(p) == Resolve(Parent(p)) + [Last(id)]
  {
    JoinNamed(directory, id);
    FileNameSplit(id);
    YamlNoDots(Last(id));
    ResolveNamed(Join(directory, FileName(id)));
  }

  /** The report never takes the place of the scenario or of its overlay. */
  lemma ReportApart(root: Path, at: string, id: string)
    ensures ReportFile(root, at, id) != BaseFile(root, at, id) && ReportFile(root, at, id) != OverlayFile(root, at, id)
    ensures BaseFile(root, at, id) != [] && OverlayFile(root, at, id) != []
  {
    var p := WithSuffix(BasePath(root, at, id), ".design.json");
    var name := Stem(NameOf(BasePath(root, at, id))) + ".design.json";
    assert p[|p| - 1] == name && name[|name| - 1] == 'n';
    assert Resolve(p)[|Resolve(p)| - 1] == name;
    JoinResolved(OutputDir(root, at), id);
    JoinResolved(root + ["split_mode"] + RelativeDir(root, at, id), id);
    FileNameSplit(id);
    YamlNoDots(Last(id));
  }

  lemma ReportNamed(root: Path, at: string, id: string)
    ensures ReportFile(root, at, id) != []
  {
    var p := WithSuffix(BasePath(root, at, id), ".design.json");
    var name := Stem(NameOf(BasePath(root, at, id))) + ".design.json";
    assert p[|p| - 1] == name && name[|name| - 1] == 'n';
    assert Resolve(p)[|Resolve(p)| - 1] == name;
  }

  // ---- Where the files of a compiled candidate are ----

  /** The graph file that the compiler names in a topology. */
  function CompiledGraph(id: string): string {
    "graphs/" + FileName(id)
  }

  lemma CompiledGraphSegments(id: string)
    ensures !Absolute(CompiledGraph(id)) && Segments(CompiledGraph(id)) == ["graphs"] + Segments(FileName(id))
  {
    assert CompiledGraph(id) == "graphs" + "/" + FileName(id);
    assert CompiledGraph(id)[0] == 'g';
    SegmentsBelow("graphs", FileName(id));
  }

  /** The directory that the scenario file is in. */
  function BaseDir(root: Path, at: string, id: string): Path {
    Resolve(Parent(BasePath(root, at, id)))
  }

  lemma BaseIn(root: Path, at: string, id: string)
    ensures BaseFile(root, at, id) == BaseDir(root, at, id) + [Last(id)]
  {
    JoinResolved(OutputDir(root, at), id);
  }

  /** A path with a name, under a directory. */
  lemma NamedBelow(directory: Path, below: Path, front: Path, name: string)
    requires NoDots(below) && name != ".."
    ensures Resolve(directory + below + front + [name])
            == Climb(Resolve(directory) + below, WayOf(front).ups) + WayOf(front).downs + [name]
  {
    var p := directory + below + front;
    assert (p + [name])[..|p|] == p;
    ResolveAppend(directory + below, front);
    ResolveDown(directory, below);
  }

  lemma GraphJoined(root: Path, at: string, id: string)
    ensures Join(Parent(BasePath(root, at, id)), CompiledGraph(id))
            == Parent(BasePath(root, at, id)) + ["graphs"] + Front(id) + [Last(id)]
  {
    CompiledGraphSegments(id);
    FileNameSplit(id);
  }

  lemma GraphIn(root: Path, at: string, id: string)
    ensures GraphPath(root, at, id, CompiledGraph(id))
            == Climb(BaseDir(root, at, id) + ["graphs"], WayOf(Front(id)).ups) + WayOf(Front(id)).downs + [Last(id)]
  {
    GraphJoined(root, at, id);
    FileNameSplit(id);
    YamlNoDots(Last(id));
    NamedBelow(Parent(BasePath(root, at, id)), ["graphs"], Front(id), Last(id));
  }

  lemma OverlayJoined(root: Path, at: string, id: string)
    requires !Absolute(FileName(id))
    ensures Join(root + ["split_mode"] + RelativeDir(root, at, id), FileName(id))
            == root + (["split_mode"] + RelativeDir(root, at, id)) + Front(id) + [Last(id)]
  {
    FileNameSplit(id);
    Assoc(root, ["split_mode"], RelativeDir(root, at, id));
    Assoc(root + (["split_mode"] + RelativeDir(root, at, id)), Front(id), [Last(id)]);
  }

  lemma RelativeNoDots(root: Path, at: string, id: string)
    ensures NoDots(["split_mode"] + RelativeDir(root, at, id))
  {
    var directory := Resolve(Parent(BasePath(root, at, id)));
    ResolvedNoDots(Parent(BasePath(root, at, id)));
    NoDotsBelow("split_mode", directory, if Resolve(root) <= directory then |Resolve(root)| else 0);
  }

  lemma OverlayIn(root: Path, at: string, id: string)
    requires !Absolute(FileName(id))
    ensures OverlayFile(root, at, id)
            == Climb(Resolve(root) + (["split_mode"] + RelativeDir(root, at, id)), WayOf(Front(id)).ups)
               + WayOf(Front(id)).downs + [Last(id)]
  {
    OverlayJoined(root, at, id);
    RelativeNoDots(root, at, id);
    FileNameSplit(id);
    YamlNoDots(Last(id));
    NamedBelow(root, ["split_mode"] + RelativeDir(root, at, id), Front(id), Last(id));
  }

  lemma BaseDirIs(root: Path, at: string, id: string)
    requires !Absolute(FileName(id))
    ensures BaseDir(root, at, id) == Climb(Resolve(OutputDir(root, at)), WayOf(Front(id)).ups) + WayOf(Front(id)).downs
  {
    JoinNamed(OutputDir(root, at), id);
    ResolveAppend(OutputDir(root, at), Front(id));
  }

  lemma SameName(p: Path, q: Path, name: string)
    ensures p + [name] == q + [name] <==> p == q
  {
    assert p == (p + [name])[..|p|] && q == (q + [name])[..|q|];
    if p + [name] == q + [name] {
      assert |p| + 1 == |q| + 1;
    }
  }

  // ---- When they coincide ----

  /** Neither the graph nor the overlay of a compiled candidate is the scenario file. */
  predicate Apart(root: Path, at: string, id: string) {
    && GraphPath(root, at, id, CompiledGraph(id)) != BaseFile(root, at, id)
    && OverlayFile(root, at, id) != BaseFile(root, at, id)
  }

  /** An absolute scenario id sends the overlay to the scenario file. */
  lemma AbsoluteCoincides(root: Path, at: string, id: string)
    requires Absolute(FileName(id))
    ensures OverlayFile(root, at, id) == BaseFile(root, at, id)
  {
  }

  lemma Fallen(p: Path, segment: string, ups: nat, downs: Path)
    ensures Climb(p + [segment], ups) + downs == p
            <==> (ups > 0 && ups <= |p| + 1 && |downs| == ups - 1 && p[|p| + 1 - ups..] == downs) || (ups > |p| + 1 && downs == p)
  {
    var q := Climb(p + [segment], ups);
    if ups > |p| + 1 {
      assert q == [];
      assert q + downs == downs;
    } else if ups > 0 {
      var m := |p| + 1 - ups;
      assert q == p[..m];
      if q + downs == p {
        assert |p| == m + |downs|;
        assert p[m..] == downs;
      }
      if |downs| == ups - 1 && p[m..] == downs {
        assert p == p[..m] + p[m..];
      }
    } else {
      assert |q + downs| > |p|;
    }
  }

  /** Along a way through a subdirectory, back to where the same way leads without it. */
  lemma FallsBack(d: Path, segment: string, ups: nat, downs: Path)
    ensures var p := Climb(d, ups) + downs;
            Climb(p + [segment], ups) + downs == p <==> ups == |downs| + 1 || (ups >= |d| && ups > |downs|)
  {
    var p := Climb(d, ups) + downs;
    Fallen(p, segment, ups, downs);
    if ups < |d| {
      assert |p| == |d| - ups + |downs|;
      if ups == |downs| + 1 {
        assert p[|p| + 1 - ups..] == downs;
      }
    } else {
      assert p == downs;
      if ups == |downs| + 1 {
        assert p[0..] == downs;
      }
    }
  }

  /** The graph is the scenario file exactly when the way that the id takes ends one level above the directory:
      it climbs one level more than it descends, or reaches the root. */
  lemma GraphCoincidesExactly(root: Path, at: string, id: string)
    requires !Absolute(FileName(id))
    ensures var way, depth := WayOf(Front(id)), |Resolve(OutputDir(root, at))|;
            GraphPath(root, at, id, CompiledGraph(id)) == BaseFile(root, at, id)
            <==> way.ups == |way.downs| + 1 || (way.ups >= depth && way.ups > |way.downs|)
  {
    var way := WayOf(Front(id));
    var p := BaseDir(root, at, id);
    BaseIn(root, at, id);
    GraphIn(root, at, id);
    BaseDirIs(root, at, id);
    SameName(Climb(p + ["graphs"], way.ups) + way.downs, p, Last(id));
    FallsBack(Resolve(OutputDir(root, at)), "graphs", way.ups, way.downs);
  }

  /** The overlay is elsewhere if the way climbs not at all, or one level and down again. */
  lemma OverlayElsewhere(r: Path, d: Path, ups: nat, downs: Path)
    requires ups == 0 || (ups == 1 && downs != [])
    ensures var p := Climb(d, ups) + downs;
            var rel := if r <= p then p[|r|..] else [];
            Climb(r + (["split_mode"] + rel), ups) + downs != p
  {
    var p := Climb(d, ups) + downs;
    var rel := if r <= p then p[|r|..] else [];
    var q := r + (["split_mode"] + rel);
    if r <= p {
      assert |Climb(q, ups) + downs| > |p|;
    } else {
      assert rel == [] && q == r + ["split_mode"];
      assert r <= Climb(q, ups);
      assert r <= Climb(q, ups) + downs;
    }
  }

  /** Scenario ids whose files never coincide: relative ones whose way climbs not at all, or climbs one level and
      descends again. */
  predicate SafeId(id: string) {
    var way := WayOf(Front(id));
    !Absolute(FileName(id)) && (way.ups == 0 || (way.ups == 1 && way.downs != []))
  }

  lemma SafeApart(root: Path, at: string, id: string)
    requires SafeId(id)
    ensures Apart(root, at, id)
  {
    var way, d := WayOf(Front(id)), Resolve(OutputDir(root, at));
    GraphCoincidesExactly(root, at, id);
    BaseIn(root, at, id);
    BaseDirIs(root, at, id);
    OverlayIn(root, at, id);
    var q := Resolve(root) + (["split_mode"] + RelativeDir(root, at, id));
    SameName(Climb(q, way.ups) + way.downs, BaseDir(root, at, id), Last(id));
    OverlayElsewhere(Resolve(root), d, way.ups, way.downs);
  }

  lemma AtTheRoot()
    ensures OutputDir([], "") == []
  {
    assert Strip("") == "";
    assert Segments("") == [];
  }

  lemma InTheRoot(root: Path)
    requires NoDots(root)
    ensures Resolve(root) == root && Resolve(OutputDir(root, "")) == root
  {
    assert Strip("") == "";
    assert Segments("") == [];
    assert OutputDir(root, "") == root + [];
    assert root + [] == root;
    ResolveDown([], root);
    assert [] + root == root;
  }

  /** A root that a long climb leaves behind. */
  function Shallow(ups: nat, downs: Path): (root: Path)
    requires ups >= 2 && downs != []
    ensures |root| == ups - 1 && NoDots(root) && !(root <= downs)
  {
    var segment := if downs[0] == "a" then "b" else "a";
    var root := seq(ups - 1, _ => segment);
    assert root[0] != downs[0];
    root
  }

  lemma OverlayReached(root: Path, id: string)
    requires !Absolute(FileName(id)) && WayOf(Front(id)).ups >= 2 && WayOf(Front(id)).downs != []
    requires root == Shallow(WayOf(Front(id)).ups, WayOf(Front(id)).downs)
    ensures OverlayFile(root, "", id) == BaseFile(root, "", id)
  {
    var way := WayOf(Front(id));
    InTheRoot(root);
    BaseIn(root, "", id);
    BaseDirIs(root, "", id);
    assert Climb(root, way.ups) == [] && BaseDir(root, "", id) == way.downs;
    OverlayIn(root, "", id);
    assert RelativeDir(root, "", id) == [];
    var q := root + (["split_mode"] + []);
    assert |q| == way.ups && Climb(q, way.ups) == [];
  }

  lemma UnsafeCoincides(id: string) returns (root: Path)
    requires !SafeId(id)
    ensures !Apart(root, "", id)
  {
    root := [];
    if Absolute(FileName(id)) {
      AbsoluteCoincides(root, "", id);
    } else {
      var way := WayOf(Front(id));
      if way.ups > |way.downs| {
        AtTheRoot();
        GraphCoincidesExactly(root, "", id);
      } else {
        root := Shallow(way.ups, way.downs);
        OverlayReached(root, id);
      }
    }
  }

  /** The files of a compiled candidate stay apart, whatever the scenario root and the output directory, if and
      only if the scenario id is safe. */
  lemma ApartExactly(id: string)
    ensures (forall root: Path, at: string :: Apart(root, at, id)) <==> SafeId(id)
  {
    if SafeId(id) {
      forall root: Path, at: string
        ensures Apart(root, at, id)
      {
        SafeApart(root, at, id);
      }
    } else {
      var root := UnsafeCoincides(id);
    }
  }

  /** An id without slashes is safe. */
  lemma PlainIdSafe(id: string)
    requires '/' !in id
    ensures SafeId(id)
  {
    var name := FileName(id);
    assert |name| == |id| + 5 && name[|id|..] == YAML;
    forall j | 0 <= j < |name|
      ensures name[j] != '/'
    {
      if j < |id| {
        assert Lower(id)[j] != '/';
      } else {
        assert name[j] == name[|id|..][j - |id|];
      }
    }
    assert FirstSlash(name) == |name|;
    assert name != "" && name != ".";
    assert Segments(name) == [name];
    assert Front(id) == [];
  }

  // ---- What the overlay refers to ----

  lemma FilesProper(root: Path, at: string, id: string)
    requires AllProper(root)
    ensures AllProper(BaseFile(root, at, id)) && NoDots(BaseFile(root, at, id)) && NoDots(Parent(OverlayFile(root, at, id)))
  {
    var p := BasePath(root, at, id);
    OutputDirProper(root, at);
    SegmentsProper(FileName(id));
    ResolvedMembers(p);
    forall i | 0 <= i < |Resolve(p)|
      ensures Proper(Resolve(p)[i])
    {
      assert Resolve(p)[i] in Resolve(p);
      var j :| 0 <= j < |p| && p[j] == Resolve(p)[i];
    }
    ResolvedNoDots(p);
    ResolvedNoDots(Join(root + ["split_mode"] + RelativeDir(root, at, id), FileName(id)));
  }

  lemma {:induction false} OverlapProper(root: Path, requested: Path, n: nat)
    requires n <= |root| && n <= |requested| && AllProper(root) && AllProper(requested)
    ensures AllProper(Overlap(root, requested, n))
  {
    if n > 0 && root[|root| - n..] != requested[..n] {
      OverlapProper(root, requested, n - 1);
    }
  }

  lemma OutputDirProper(root: Path, at: string)
    requires AllProper(root)
    ensures AllProper(OutputDir(root, at))
  {
    var parts := Segments(Strip(at));
    SegmentsProper(Strip(at));
    OverlapProper(root, parts, if |root| <= |parts| then |root| else |parts|);
  }

  /** Read from where the overlay is, its reference finds the scenario file exactly when no backslash is on the
      way there. */
  lemma OverlayFindsScenarioExactly(root: Path, at: string, id: string)
    requires AllProper(root)
    ensures var directory := Parent(OverlayFile(root, at, id));
            Resolve(Join(directory, BaseReference(root, at, id))) == BaseFile(root, at, id)
            <==> !Backslashed(directory, BaseFile(root, at, id))
  {
    FilesProper(root, at, id);
    ReferenceFindsExactly(Parent(OverlayFile(root, at, id)), BaseFile(root, at, id));
  }
}
