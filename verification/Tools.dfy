/** The tool closures of src/environment/tools.py: the state they share, and what any sequence of tool
    calls keeps true of it. */
module Tools {
  import opened Documents
  import opened Hiding
  import opened Lists
  import opened Strings
  import opened Paths
  import opened OutputPaths
  import opened Validator
  import opened Design
  import opened DesignCompiler
  import opened DesignCompilation
  import opened Revision
  import opened Draft

  /** What the tools get from outside: the quality profile, the minimum counts, the derived documents, and the
      scenario root.  There are no symbolic links, and the tools are the only writers of the files. */
  datatype Outside = Outside(
    quality: Candidate -> bool,
    countsOk: Counts -> bool,
    repairs: Candidate -> set<Section>,
    describe: (Catalog, Design) -> Json,
    nodes: Json -> Json,
    links: Json -> Json,
    root: Path)

  datatype WriteResult = Blocked | NotValidated | WouldOverwrite | Written

  /** The candidate passes the structural checks and the quality profile. */
  ghost predicate Good(py: Python, out: Outside, c: Candidate) {
    CandidateOk(py, c) && out.quality(c)
  }

  // ---- What writing a candidate leaves on disk ----

  /** Where the files of one candidate go, and how its overlay refers to its scenario. */
  datatype Places = Places(base: Path, overlay: Path, graph: Option<Path>, report: Path, reference: string)

  /** `str((topology or {}).get("graph_file") or "").strip()` */
  function GraphFileOf(py: Python, c: Candidate): string {
    if c.scenario.Get(Topology).Obj? then py.Clean(c.scenario.Get(Topology).Get(GraphFile)) else ""
  }

  function PlacesOf(py: Python, out: Outside, dir: string, c: Candidate): Places {
    var id, graphFile := c.scenarioId, GraphFileOf(py, c);
    Places(BaseFile(out.root, dir, id),
           if c.overlay.Null? then [] else OverlayFile(out.root, dir, id),
           if graphFile == "" then None else Some(GraphPath(out.root, dir, id, graphFile)),
           ReportFile(out.root, dir, id),
           if c.overlay.Null? then "" else BaseReference(out.root, dir, id))
  }

  /** `_build_topology_graph`: a mapping of nodes and links. */
  function GraphDoc(out: Outside, scenario: Json): Json {
    Obj(map[Other("nodes") := out.nodes(scenario), Other("links") := out.links(scenario)])
  }

  function OverlayDoc(at: Places, c: Candidate): Json
    requires c.overlay.Obj?
  {
    Obj(c.overlay.fields[BaseScenario := Text(at.reference)])
  }

  /** The scenario and its overlay are on disk as the candidate says. */
  ghost predicate OnDisk(files: map<Path, Json>, at: Places, c: Candidate) {
    && at.base in files && files[at.base] == c.scenario
    && (c.overlay.Obj? ==> at.overlay in files && files[at.overlay] == OverlayDoc(at, c))
  }

  function PutGraph(out: Outside, files: map<Path, Json>, at: Places, c: Candidate): map<Path, Json> {
    if at.graph.Some? && (SameStem(at.graph.value, at.base) || at.graph.value !in files)
    then files[at.graph.value := GraphDoc(out, c.scenario)] else files
  }

  function PutOverlay(files: map<Path, Json>, at: Places, c: Candidate): map<Path, Json> {
    if c.overlay.Obj? then files[at.overlay := OverlayDoc(at, c)] else files
  }

  function PutReport(files: map<Path, Json>, at: Places, report: Option<Json>): map<Path, Json> {
    if report.Some? then files[at.report := report.value] else files
  }

  function Deposit(out: Outside, files: map<Path, Json>, at: Places, c: Candidate, report: Option<Json>): map<Path, Json> {
    PutReport(PutOverlay(PutGraph(out, files[at.base := c.scenario], at, c), at, c), at, report)
  }

  lemma GraphIsNoScenario(out: Outside, c: Candidate)
    requires HasName(c)
    ensures GraphDoc(out, c.scenario) != c.scenario
  {
    assert Name !in GraphDoc(out, c.scenario).fields;
  }

  /** The report takes no other file's place. */
  ghost predicate ReportAside(at: Places) {
    at.report != at.base && at.report != at.overlay
  }

  /** No file written after the scenario takes its place, unless it is the same document. */
  ghost predicate ScenarioKept(at: Places, c: Candidate) {
    if c.overlay.Obj? && at.overlay == at.base then OverlayDoc(at, c) == c.scenario else at.graph != Some(at.base)
  }

  /** What the last of the writes leaves: the overlay always, and the scenario exactly when neither its graph nor
      its overlay was written in its place. */
  lemma DepositOnDisk(out: Outside, files: map<Path, Json>, at: Places, c: Candidate, report: Option<Json>)
    requires HasName(c) && ReportAside(at)
    ensures OnDisk(Deposit(out, files, at, c, report), at, c) <==> ScenarioKept(at, c)
    ensures c.overlay.Obj? ==> var after := Deposit(out, files, at, c, report);
                               at.overlay in after && after[at.overlay] == OverlayDoc(at, c)
  {
    GraphIsNoScenario(out, c);
  }

  lemma ReportIsAside(py: Python, out: Outside, dir: string, c: Candidate)
    ensures var at := PlacesOf(py, out, dir, c);
            ReportAside(at) && at.base != [] && (at.overlay == [] <==> c.overlay.Null?)
  {
    ReportApart(out.root, dir, c.scenarioId);
    ReportNamed(out.root, dir, c.scenarioId);
  }

  /** A topology that names the scenario file itself as its graph file replaces the scenario on disk. */
  lemma GraphOverwritesScenario(out: Outside, files: map<Path, Json>, at: Places, c: Candidate, report: Option<Json>)
    requires HasName(c) && ReportAside(at) && at.graph == Some(at.base)
    requires c.overlay.Obj? ==> at.overlay != at.base
    ensures Deposit(out, files, at, c, report)[at.base] == GraphDoc(out, c.scenario) != c.scenario
  {
    GraphIsNoScenario(out, c);
  }

  // ---- Where compiled candidates go ----

  lemma CompiledGraphClean(py: Python, id: string)
    ensures py.Clean(Text(CompiledGraph(id))) == CompiledGraph(id)
  {
    FileNameSplit(id);
    var text := CompiledGraph(id);
    assert text[0] == 'g' && text[|text| - 1] == 'l';
    StripFixes(text);
  }

  lemma CompiledParts(p: Design)
    ensures ScenarioOf(p).Get(Topology) == Obj(map[GraphFile := Text(CompiledGraph(p.header.scenarioId))])
    ensures BaseScenario !in ScenarioOf(p).fields && Name in ScenarioOf(p).fields
    ensures OverlayOf(p).Obj?
  {
    var ues := seq(|p.ues|, i requires 0 <= i < |p.ues| => CompileUe(p, i));
    AssembledKeys(p, ues);
    AssembledTopology(p, ues);
  }

  lemma AssembledTopology(p: Design, ues: seq<Json>)
    ensures Assemble(p, ues).Get(Topology) == Obj(map[GraphFile := Text(CompiledGraph(p.header.scenarioId))])
  {
  }

  /** A compiled scenario is kept exactly when the paths that its id leads to differ. */
  lemma CompiledKeptExactly(py: Python, out: Outside, dir: string, p: Design)
    ensures HasName(CandidateOf(p))
    ensures ScenarioKept(PlacesOf(py, out, dir, CandidateOf(p)), CandidateOf(p)) <==> Apart(out.root, dir, p.header.scenarioId)
  {
    var c := CandidateOf(p);
    CompiledParts(p);
    CompiledGraphClean(py, p.header.scenarioId);
    assert GraphFileOf(py, c) == CompiledGraph(p.header.scenarioId);
    assert CompiledGraph(p.header.scenarioId)[0] == 'g';
    assert BaseScenario in OverlayDoc(PlacesOf(py, out, dir, c), c).fields;
  }

  /** A compiled scenario with a safe id is kept wherever it is written. */
  lemma SafeIdKept(py: Python, out: Outside, dir: string, c: Candidate)
    requires Derived(c) && SafeId(c.scenarioId)
    ensures ScenarioKept(PlacesOf(py, out, dir, c), c)
  {
    var catalog, design :| CompiledFrom(catalog, design, c);
    CompiledKeptExactly(py, out, dir, PlanOf(catalog, design));
    SafeApart(out.root, dir, c.scenarioId);
  }

  // ---- Compiled candidates survive the draft ----

  lemma FifteenKeys(j: map<Field, Json>)
    requires j.Keys == {Name, ScenarioId, TickMs, Seed, Slices, Upfs, Gnbs, Ues, Apps, Flows, Free5gc, Ns3, Writer, Topology, Bridge}
    ensures HasRoot(j)
  {
    forall f
      ensures f in j <==> IsMetadata(f) || IsCollection(f) || IsRuntime(f)
    {
      assert f in j <==> f in j.Keys;
    }
  }

  lemma AssembledKeys(p: Design, ues: seq<Json>)
    ensures Assemble(p, ues).fields.Keys ==
            {Name, ScenarioId, TickMs, Seed, Slices, Upfs, Gnbs, Ues, Apps, Flows, Free5gc, Ns3, Writer, Topology, Bridge}
  {
  }

  lemma CompiledNamed(py: Python, p: Design)
    ensures Named(py, CandidateOf(p))
  {
    var ues := seq(|p.ues|, i requires 0 <= i < |p.ues| => CompileUe(p, i));
    AssembledKeys(p, ues);
    FifteenKeys(Assemble(p, ues).fields);
    AssembledNames(p, ues);
  }

  lemma AssembledNames(p: Design, ues: seq<Json>)
    ensures Name in Assemble(p, ues).fields && Assemble(p, ues).fields[Name] == Text(p.header.name)
    ensures ScenarioId in Assemble(p, ues).fields && Assemble(p, ues).fields[ScenarioId] == Text(p.header.scenarioId)
  {
  }

  // ---- The meaning of the checks, as the invariants see it ----

  /** The judgements that the workflow is about.  The workflow proofs use them as black boxes: `Linked`
      says what they are, and `Meaning` brings that in where a proof asks for it. */
  datatype Semantics = Semantics(
    accepts: (Catalog, Design) -> bool,
    candidate: (Catalog, Design) -> Candidate,
    good: Candidate -> bool,
    assembled: map<Section, Json> -> Option<Candidate>,
    places: (string, Candidate) -> Places)

  const NO_CANDIDATE := Candidate("", "", Null, Null)

  ghost function TrueSemantics(py: Python, out: Outside): Semantics {
    Semantics(
      (c, d) => Accepts(c, d),
      (c, d) => if Accepts(c, d) then CandidateOf(PlanOf(c, d)) else NO_CANDIDATE,
      c => CandidateOk(py, c) && out.quality(c),
      s => if AllPresent(s) && Spreadable(s) then Some(Assembled(py, s)) else None,
      (dir, c) => PlacesOf(py, out, dir, c))
  }

  ghost predicate Linked(sem: Semantics, py: Python, out: Outside) {
    forall k: nat {:trigger Asked(k)} :: Asked(k) ==> sem == TrueSemantics(py, out)
  }

  lemma Meaning(sem: Semantics, py: Python, out: Outside)
    requires Linked(sem, py, out)
    ensures sem == TrueSemantics(py, out)
  {
    assert Asked(0);
  }

  lemma AcceptsMeans(sem: Semantics, py: Python, out: Outside, c: Catalog, d: Design)
    requires Linked(sem, py, out)
    ensures sem.accepts(c, d) <==> Accepts(c, d)
    ensures sem.accepts(c, d) ==> sem.candidate(c, d) == CandidateOf(PlanOf(c, d))
  {
    Meaning(sem, py, out);
  }

  lemma GoodMeans(sem: Semantics, py: Python, out: Outside, c: Candidate)
    requires Linked(sem, py, out)
    ensures sem.good(c) <==> CandidateOk(py, c) && out.quality(c)
  {
    Meaning(sem, py, out);
  }

  lemma AssembledMeans(sem: Semantics, py: Python, out: Outside, s: map<Section, Json>)
    requires Linked(sem, py, out)
    ensures sem.assembled(s) == if AllPresent(s) && Spreadable(s) then Some(Assembled(py, s)) else None
  {
    Meaning(sem, py, out);
  }

  lemma PlacesMean(sem: Semantics, py: Python, out: Outside, dir: string, c: Candidate)
    requires Linked(sem, py, out)
    ensures sem.places(dir, c) == PlacesOf(py, out, dir, c)
  {
    Meaning(sem, py, out);
  }

  // ---- Calls, and what a simulation starts from ----

  datatype Call =
    | CallSubmitCatalog(catalog: Option<Catalog>)
    | CallCompileDesign(design: Option<Design>)
    | CallReviseDesign(change: Option<Change>)
    | CallInitialize(metadata: map<Field, Json>)
    | CallReplaceSection(section: Section, payload: Json)
    | CallPatchEntity(section: Section, id: string, changes: map<Field, Json>)
    | CallValidate
    | CallWrite(dir: string)
    | CallSimulate

  datatype Launch = Launch(path: Path, candidate: Candidate, dir: string, files: map<Path, Json>)

  ghost predicate CompiledFrom(catalog: Catalog, design: Design, c: Candidate) {
    Accepts(catalog, design) && c == CandidateOf(PlanOf(catalog, design))
  }

  ghost predicate Derived(c: Candidate) {
    exists catalog, design :: CompiledFrom(catalog, design, c)
  }

  /** The simulator starts from a candidate that validates (and, in semantic mode, was compiled from an
      accepted design), and finds it on disk, unless its own files got in each other's way; in semantic mode that
      takes an id that is not safe. */
  ghost predicate LaunchOk(semantic: bool, py: Python, out: Outside, l: Launch) {
    var at := PlacesOf(py, out, l.dir, l.candidate);
    && Good(py, out, l.candidate)
    && (semantic ==> Derived(l.candidate))
    && (l.path == at.base || l.path == at.overlay)
    && (OnDisk(l.files, at, l.candidate) <==> ScenarioKept(at, l.candidate))
    && (semantic && SafeId(l.candidate.scenarioId) ==> OnDisk(l.files, at, l.candidate))
  }

  // ---- The tools ----

  class EnvironmentTools {
    const semantic: bool
    const py: Python
    const out: Outside
    const draft: ScenarioDraftStore
    ghost const sem: Semantics

    var mustReplace: set<Section>
    var catalog: Option<Catalog>
    var design: Option<Design>
    var report: Option<Json>
    var compiled: bool
    var reportPath: Path
    var ownedScenario: Path
    var ownedOverlay: Path
    var files: map<Path, Json>
    ghost var dir: string

    constructor (semantic: bool, py: Python, out: Outside, files: map<Path, Json>)
      ensures Valid() && fresh(draft) && this.semantic == semantic && this.py == py && this.out == out
      ensures !compiled && catalog.None? && draft.scenarioPath == []
    {
      this.semantic, this.py, this.out, this.files, this.dir := semantic, py, out, files, "";
      draft := new ScenarioDraftStore();
      sem := TrueSemantics(py, out);
      mustReplace, catalog, design, report, compiled := {}, None, None, None, false;
      reportPath, ownedScenario, ownedOverlay := [], [], [];
    }

    /** The candidate that the draft, as it is, assembles to. */
    ghost function Current(): Option<Candidate>
      reads draft`sections
    {
      sem.assembled(draft.sections)
    }

    ghost predicate CurrentGood()
      reads draft`sections
    {
      Current().Some? && sem.good(Current().value)
    }

    /** The recorded paths are where the draft, as it is, was written. */
    ghost predicate WrittenAt(c: Candidate)
      reads this, draft
    {
      && draft.scenarioPath == sem.places(dir, c).base && draft.overlayPath == sem.places(dir, c).overlay
      && (OnDisk(files, sem.places(dir, c), c) <==> ScenarioKept(sem.places(dir, c), c))
    }

    /** A successful compilation is of the stored catalog and design, and the draft is its result. */
    ghost predicate CompiledMeansDraft()
      reads this, draft
    {
      compiled ==>
        && semantic && catalog.Some? && design.Some? && draft.validationPassed
        && sem.accepts(catalog.value, design.value)
        && Current() == Some(sem.candidate(catalog.value, design.value))
    }

    ghost predicate Valid()
      reads this, draft
    {
      && draft.Valid() && Linked(sem, py, out)
      && (draft.validationPassed ==> CurrentGood())
      && (draft.scenarioPath != [] ==> CurrentGood() && WrittenAt(Current().value))
      && CompiledMeansDraft()
    }

    // ---- The parts that the tools are made of ----

    method Judge(c: Candidate) returns (ok: bool)
      requires Linked(sem, py, out)
      ensures ok == sem.good(c)
    {
      GoodMeans(sem, py, out, c);
      var structural, errors := ValidateCandidate(py, c);
      ok := structural && out.quality(c);
    }

    method Assemble() returns (c: Option<Candidate>)
      requires draft.Valid() && Linked(sem, py, out)
      ensures c == Current()
    {
      AssembledMeans(sem, py, out, draft.sections);
      c := draft.AssembleCandidate(py);
    }

    method RunCompiler(c: Catalog, d: Design) returns (compiled: Option<Candidate>)
      requires Linked(sem, py, out)
      ensures compiled.Some? <==> sem.accepts(c, d)
      ensures compiled.Some? ==> compiled.value == sem.candidate(c, d) && Named(py, compiled.value)
    {
      AcceptsMeans(sem, py, out, c, d);
      var outcome := DesignCompilation.Compile(c, d);
      if outcome.Refused? {
        return None;
      }
      CompiledNamed(py, PlanOf(c, d));
      return Some(outcome.candidate);
    }

    /** Replaces the next section of a draft that is being rewritten. */
    method Next(section: Section, payload: Json)
      requires draft.Valid() && 0 < |draft.completed| < |SECTION_ORDER| && section == SECTION_ORDER[|draft.completed|]
      modifies draft
      ensures draft.Valid() && draft.NoEvidence()
      ensures draft.sections == old(draft.sections)[section := payload] && |draft.completed| == |old(draft.completed)| + 1
    {
      draft.Distinct();
      assert section in SECTION_ORDER && SECTION_ORDER[0] == Metadata && section != Metadata;
      var ok := draft.ReplaceSection(section, payload);
    }

    method LoadMetadata(j: map<Field, Json>)
      requires draft.Valid() && HasMetadata(Part(j, IsMetadata))
      modifies draft
      ensures draft.Valid() && |draft.completed| == 1 && draft.sections == map[Metadata := Obj(Part(j, IsMetadata))]
    {
      var ok := draft.Initialize(Part(j, IsMetadata));
    }

    method LoadNetwork(j: map<Field, Json>)
      requires draft.Valid() && HasCollections(j) && |draft.completed| == 1
      modifies draft
      ensures draft.Valid() && |draft.completed| == 4
      ensures draft.sections == old(draft.sections)[SliceSection := j[Slices]][UpfSection := j[Upfs]][GnbSection := j[Gnbs]]
    {
      Next(SliceSection, j[Slices]);
      Next(UpfSection, j[Upfs]);
      Next(GnbSection, j[Gnbs]);
    }

    method LoadUsers(j: map<Field, Json>)
      requires draft.Valid() && HasCollections(j) && |draft.completed| == 4
      modifies draft
      ensures draft.Valid() && |draft.completed| == 7
      ensures draft.sections == old(draft.sections)[UeSection := j[Ues]][AppSection := j[Apps]][FlowSection := j[Flows]]
    {
      Next(UeSection, j[Ues]);
      Next(AppSection, j[Apps]);
      Next(FlowSection, j[Flows]);
    }

    method LoadSections(j: map<Field, Json>, overlay: Json)
      requires draft.Valid() && HasMetadata(Part(j, IsMetadata)) && HasCollections(j)
      modifies draft
      ensures draft.Valid() && draft.NoEvidence() && draft.sections == SplitUp(j, overlay)
    {
      LoadMetadata(j);
      LoadNetwork(j);
      LoadUsers(j);
      Next(RuntimeConfig, Obj(Part(j, IsRuntime)));
      Next(SplitModeOverlay, overlay);
    }

    /** Rewrites the whole draft, section by section, with a compiled candidate. */
    method LoadDraft(c: Candidate)
      requires draft.Valid() && Linked(sem, py, out) && Named(py, c)
      modifies draft
      ensures draft.Valid() && draft.NoEvidence() && Current() == Some(c)
    {
      RootHas(c.scenario.fields);
      LoadSections(c.scenario.fields, c.overlay);
      LoadedIs(c);
    }

    lemma LoadedIs(c: Candidate)
      requires Linked(sem, py, out) && Named(py, c) && draft.sections == SplitUp(c.scenario.fields, c.overlay)
      ensures Current() == Some(c)
    {
      SplitRoundTrip(py, c);
      AssembledMeans(sem, py, out, draft.sections);
    }

    // ---- Semantic design mode ----

    /** `None` stands for a catalog that fails its schema. */
    method SubmitCatalog(parsed: Option<Catalog>) returns (ok: bool)
      requires Valid() && semantic
      modifies this
      ensures Valid()
      ensures ok <==> parsed.Some? && CatalogOk(parsed.value) && out.countsOk(parsed.value.expected)
      ensures ok ==> catalog == parsed && design.None? && report.None? && !compiled
      ensures !ok ==> unchanged(this)
    {
      if parsed.None? {
        return false;
      }
      var errors := ValidateCatalog(parsed.value);
      if errors != [] || !out.countsOk(parsed.value.expected) {
        return false;
      }
      catalog, design, report, compiled := parsed, None, None, false;
      return true;
    }

    method CompileParsed(parsed: Design) returns (ok: bool)
      requires Valid() && semantic
      modifies this, draft
      ensures Valid()
      ensures catalog == old(catalog)
      ensures ok <==> catalog.Some? && sem.accepts(catalog.value, parsed) && sem.good(sem.candidate(catalog.value, parsed))
      ensures catalog.Some? ==> design == Some(parsed) && compiled == ok
      ensures catalog.None? ==> unchanged(this) && unchanged(draft)
    {
      if catalog.None? {
        return false;
      }
      design, report, compiled := Some(parsed), None, false;
      draft.validationPassed := false;
      var outcome := RunCompiler(catalog.value, parsed);
      if outcome.None? {
        return false;
      }
      LoadDraft(outcome.value);
      ok := Judge(outcome.value);
      draft.validationPassed := ok;
      report, compiled := Some(out.describe(catalog.value, parsed)), ok;
    }

    /** `None` stands for a design that fails its schema. */
    method CompileDesign(parsed: Option<Design>) returns (ok: bool)
      requires Valid() && semantic
      modifies this, draft
      ensures Valid()
      ensures ok <==> && old(catalog).Some? && parsed.Some? && sem.accepts(old(catalog).value, parsed.value)
                      && sem.good(sem.candidate(old(catalog).value, parsed.value))
      ensures ok ==> compiled && catalog == old(catalog) && design == parsed
      ensures !ok && old(catalog).Some? ==> !compiled
    {
      if catalog.None? {
        return false;
      }
      if parsed.None? {
        report, compiled := None, false;
        draft.validationPassed := false;
        return false;
      }
      ok := CompileParsed(parsed.value);
    }

    ghost predicate Revisable(change: Option<Change>)
      reads this
    {
      design.Some? && change.Some? && Applies(design.value, change.value)
    }

    /** `None` stands for a revision that fails its schema. */
    method ReviseDesign(change: Option<Change>) returns (ok: bool)
      requires Valid() && semantic
      modifies this, draft
      ensures Valid()
      ensures old(Revisable(change)) ==>
                var merged := Merge(old(design).value, change.value);
                && design == Some(merged) && compiled == ok && catalog == old(catalog)
                && (ok <==> catalog.Some? && sem.accepts(catalog.value, merged) && sem.good(sem.candidate(catalog.value, merged)))
      ensures !old(Revisable(change)) ==> !ok && unchanged(this) && unchanged(draft)
    {
      if design.None? || change.None? {
        return false;
      }
      var revised := ApplyRevision(design.value, change.value);
      if revised.Rejected? {
        return false;
      }
      design, compiled := Some(revised.design), false;
      ok := CompileParsed(revised.design);
    }

    // ---- Section by section mode ----

    method InitializeDraft(metadata: map<Field, Json>) returns (ok: bool)
      requires Valid() && !semantic
      modifies this, draft
      ensures Valid()
      ensures ok <==> HasMetadata(metadata)
      ensures ok ==> draft.NoEvidence() && draft.sections == map[Metadata := Obj(metadata)]
    {
      mustReplace := {};
      ok := draft.Initialize(metadata);
    }

    method ReplaceDraftSection(section: Section, payload: Json) returns (ok: bool)
      requires Valid() && !semantic
      modifies this, draft
      ensures Valid()
      ensures ok <==> old(draft.Replaceable(section))
      ensures ok ==> draft.NoEvidence() && draft.sections == old(draft.sections)[section := payload]
      ensures ok ==> mustReplace == old(mustReplace) - {section}
      ensures !ok ==> unchanged(this) && unchanged(draft)
    {
      ok := draft.ReplaceSection(section, payload);
      if ok {
        mustReplace := mustReplace - {section};
      }
    }

    method PatchDraftEntity(section: Section, id: string, changes: map<Field, Json>) returns (ok: bool)
      requires Valid() && !semantic
      modifies draft
      ensures Valid()
      ensures ok <==> section !in mustReplace && old(draft.Patchable(py, section, id, changes)) && old(draft.Listed(py, section, id))
      ensures ok ==> draft.NoEvidence() && draft.PatchedFirst(py, old(draft.sections), section, id, changes)
      ensures !ok ==> unchanged(draft)
    {
      if section in mustReplace {
        return false;
      }
      ghost var at;
      ok, at := draft.PatchEntity(py, section, id, changes);
    }

    // ---- Validating, writing, simulating ----

    method Validate() returns (ok: bool)
      requires Valid()
      modifies this, draft
      ensures Valid()
      ensures draft.sections == old(draft.sections) && draft.scenarioPath == old(draft.scenarioPath)
      ensures compiled == old(compiled)
      ensures ok ==> draft.validationPassed
      ensures ok <==> (semantic ==> compiled) && CurrentGood()
    {
      if semantic && !compiled {
        return false;
      }
      var c := Assemble();
      if c.None? {
        return false;
      }
      ok := Judge(c.value);
      draft.validationPassed := ok;
      mustReplace := out.repairs(c.value);
    }

    /** Where the files of a candidate go. */
    method Locate(dir: string, c: Candidate) returns (at: Places)
      requires Linked(sem, py, out)
      ensures at == sem.places(dir, c) && ReportAside(at) && at.base != [] && (at.overlay == [] <==> c.overlay.Null?)
    {
      PlacesMean(sem, py, out, dir, c);
      ReportIsAside(py, out, dir, c);
      at := PlacesOf(py, out, dir, c);
    }

    /** The paths that the tools may replace: their own earlier output, and a graph file of the scenario's name. */
    ghost predicate MayReplace(path: Path, base: Path)
      reads this
    {
      path == ownedScenario || path == ownedOverlay || path == reportPath || SameStem(path, base)
    }

    method WriteGraph(at: Places, c: Candidate)
      modifies this`files
      ensures files == PutGraph(out, old(files), at, c)
    {
      if at.graph.Some? {
        var graphAt := at.graph.value;
        var created := graphAt !in files;
        var owned := SameStem(graphAt, at.base);
        if owned || created {
          files := files[graphAt := GraphDoc(out, c.scenario)];
        }
      }
    }

    /** Nothing that exists and is not the tools' own output is in the way. */
    ghost predicate Free(at: Places, c: Candidate)
      reads this
    {
      && (at.base in files ==> at.base == ownedScenario)
      && (!c.overlay.Null? && at.overlay in files ==> at.overlay == ownedOverlay)
      && (report.Some? && at.report in files ==> at.report == reportPath)
    }

    method CheckFree(at: Places, c: Candidate) returns (free: bool)
      ensures free == Free(at, c)
    {
      if at.base in files && at.base != ownedScenario {
        return false;
      }
      if !c.overlay.Null? && at.overlay in files && at.overlay != ownedOverlay {
        return false;
      }
      if report.Some? && at.report in files && at.report != reportPath {
        return false;
      }
      return true;
    }

    method WriteFiles(at: Places, c: Candidate)
      requires c.overlay.Null? || c.overlay.Obj?
      modifies this`files, this`reportPath
      ensures files == Deposit(out, old(files), at, c, report)
      ensures reportPath == if report.Some? then at.report else old(reportPath)
    {
      files := files[at.base := c.scenario];
      WriteGraph(at, c);
      if !c.overlay.Null? {
        files := files[at.overlay := OverlayDoc(at, c)];
      }
      if report.Some? {
        reportPath := at.report;
        files := files[reportPath := report.value];
      }
    }

    method Write(to: string) returns (result: WriteResult)
      requires Valid()
      modifies this, draft
      ensures Valid()
      ensures draft.sections == old(draft.sections) && catalog == old(catalog) && design == old(design) && compiled == old(compiled)
      ensures result.Blocked? <==> semantic && !compiled
      ensures result.NotValidated? <==> (semantic ==> compiled) && !old(draft.validationPassed)
      ensures result.Written? <==> (semantic ==> compiled) && old(draft.validationPassed)
                                   && old(Free(sem.places(to, Current().value), Current().value))
      ensures result.Written? ==> && dir == to && WrittenAt(Current().value)
                                  && files == Deposit(out, old(files), sem.places(to, Current().value), Current().value, report)
      ensures result.Written? ==> forall path | path in old(files) && !(path in files && files[path] == old(files)[path]) ::
                                    old(MayReplace(path, sem.places(to, Current().value).base))
      ensures !result.Written? ==> unchanged(this) && unchanged(draft)
    {
      if semantic && !compiled {
        return Blocked;
      }
      if !draft.validationPassed {
        return NotValidated;
      }
      var assembled := Assemble();
      CurrentNamed();
      var written := WriteGood(to, assembled.value);
      return if written then Written else WouldOverwrite;
    }

    method WriteGood(to: string, c: Candidate) returns (written: bool)
      requires Linked(sem, py, out) && sem.good(c) && HasName(c)
      modifies this`files, this`reportPath, this`dir, this`ownedScenario, this`ownedOverlay, draft`scenarioPath, draft`overlayPath
      ensures written <==> old(Free(sem.places(to, c), c))
      ensures written ==> dir == to && WrittenAt(c) && files == Deposit(out, old(files), sem.places(to, c), c, report)
      ensures written ==> forall path | path in old(files) && !(path in files && files[path] == old(files)[path]) ::
                            old(MayReplace(path, sem.places(to, c).base))
      ensures !written ==> unchanged(this) && unchanged(draft)
    {
      var at := Locate(to, c);
      written := CheckFree(at, c);
      if written {
        GoodOverlay(c);
        WriteFree(to, at, c);
      }
    }

    method WriteFree(to: string, at: Places, c: Candidate)
      requires Free(at, c) && (c.overlay.Null? || c.overlay.Obj?) && HasName(c) && at == sem.places(to, c) && ReportAside(at)
      modifies this`files, this`reportPath, this`dir, this`ownedScenario, this`ownedOverlay, draft`scenarioPath, draft`overlayPath
      ensures dir == to && WrittenAt(c) && files == Deposit(out, old(files), at, c, report)
      ensures forall path | path in old(files) && !(path in files && files[path] == old(files)[path]) ::
                old(MayReplace(path, at.base))
    {
      forall path | path in files
        ensures var after := Deposit(out, files, at, c, report);
                !(path in after && after[path] == files[path]) ==> MayReplace(path, at.base)
      {
        DepositReplaces(at, c, path);
      }
      WriteAndRecord(to, at, c);
    }

    method WriteAndRecord(to: string, at: Places, c: Candidate)
      requires (c.overlay.Null? || c.overlay.Obj?) && HasName(c) && at == sem.places(to, c) && ReportAside(at)
      modifies this`files, this`reportPath, this`dir, this`ownedScenario, this`ownedOverlay, draft`scenarioPath, draft`overlayPath
      ensures dir == to && WrittenAt(c) && files == Deposit(out, old(files), at, c, report)
    {
      WriteFiles(at, c);
      draft.RecordWrittenPaths(at.base, at.overlay);
      dir, ownedScenario, ownedOverlay := to, draft.scenarioPath, draft.overlayPath;
      DepositOnDisk(out, old(files), at, c, report);
    }

    /** Existing files of others are never replaced, except a graph file of the scenario's own name. */
    lemma DepositReplaces(at: Places, c: Candidate, path: Path)
      requires Free(at, c) && path in files && (c.overlay.Null? || c.overlay.Obj?)
      ensures var after := Deposit(out, files, at, c, report);
              !(path in after && after[path] == files[path]) ==> MayReplace(path, at.base)
    {
      var f1 := files[at.base := c.scenario];
      var f2 := PutGraph(out, f1, at, c);
      assert f2 == f1 || at.graph.value !in f1 || SameStem(at.graph.value, at.base);
      var f3 := PutOverlay(f2, at, c);
    }

    lemma GoodOverlay(c: Candidate)
      requires Linked(sem, py, out) && sem.good(c)
      ensures c.overlay.Null? || c.overlay.Obj?
    {
      GoodMeans(sem, py, out, c);
    }

    lemma CurrentNamed()
      requires Linked(sem, py, out) && Current().Some?
      ensures HasName(Current().value)
    {
      AssembledMeans(sem, py, out, draft.sections);
      AssembledHasName(py, draft.sections);
    }

    /** The file a simulation starts from, once every guard is passed. */
    method Simulate() returns (path: Option<Path>)
      requires Valid()
      ensures path.Some? <==> draft.scenarioPath != [] && (semantic ==> compiled)
      ensures path.Some? ==> CurrentGood() && WrittenAt(Current().value)
      ensures path.Some? ==> path.value == if draft.overlayPath != [] then sem.places(dir, Current().value).overlay
                                           else sem.places(dir, Current().value).base
    {
      if semantic && !compiled {
        return None;
      }
      if draft.scenarioPath == [] {
        return None;
      }
      return Some(if draft.overlayPath != [] then draft.overlayPath else draft.scenarioPath);
    }

    lemma LaunchIsOk(path: Path)
      requires Valid() && CurrentGood() && WrittenAt(Current().value) && (semantic ==> compiled)
      requires path == draft.overlayPath || path == draft.scenarioPath
      ensures LaunchOk(semantic, py, out, Launch(path, Current().value, dir, files))
    {
      GoodMeans(sem, py, out, Current().value);
      PlacesMean(sem, py, out, dir, Current().value);
      if semantic {
        AcceptsMeans(sem, py, out, catalog.value, design.value);
        assert CompiledFrom(catalog.value, design.value, Current().value);
        if SafeId(Current().value.scenarioId) {
          SafeIdKept(py, out, dir, Current().value);
        }
      }
    }

    /** One call of a tool that the mode offers; the others are not there to be called. */
    method Perform(call: Call) returns (path: Option<Path>, ghost launch: Option<Launch>)
      requires Valid()
      modifies this, draft
      ensures Valid()
      ensures path.Some? ==> launch.Some? && launch.value.path == path.value && LaunchOk(semantic, py, out, launch.value)
    {
      path, launch := None, None;
      var ok;
      match call {
        case CallSubmitCatalog(c) => if semantic { ok := SubmitCatalog(c); }
        case CallCompileDesign(d) => if semantic { ok := CompileDesign(d); }
        case CallReviseDesign(r) => if semantic { ok := ReviseDesign(r); }
        case CallInitialize(m) => if !semantic { ok := InitializeDraft(m); }
        case CallReplaceSection(s, p) => if !semantic { ok := ReplaceDraftSection(s, p); }
        case CallPatchEntity(s, id, changes) => if !semantic { ok := PatchDraftEntity(s, id, changes); }
        case CallValidate => ok := Validate();
        case CallWrite(at) => var result := Write(at);
        case CallSimulate =>
          path := Simulate();
          if path.Some? {
            LaunchIsOk(path.value);
            launch := Some(Launch(path.value, Current().value, dir, files));
          }
      }
    }

    /** The launches are of these paths, and each starts as it should. */
    ghost predicate AllOk(paths: seq<Path>, launches: seq<Launch>) {
      Paired(paths, launches, (path: Path, l: Launch) => l.path == path && LaunchOk(semantic, py, out, l))
    }

    /** The agent may call the tools in any order: every simulation it gets to start is of a valid, written
        candidate, compiled from an accepted design in semantic mode. */
    method Session(calls: seq<Call>) returns (paths: seq<Path>, ghost launches: seq<Launch>)
      requires Valid()
      modifies this, draft
      ensures Valid()
      ensures AllOk(paths, launches)
    {
      paths, launches := [], [];
      for i := 0 to |calls|
        invariant Valid() && AllOk(paths, launches)
      {
        var path, launch := Perform(calls[i]);
        if path.Some? {
          PairedMore(paths, launches, path.value, launch.value,
                     (path: Path, l: Launch) => l.path == path && LaunchOk(semantic, py, out, l));
          paths, launches := paths + [path.value], launches + [launch.value];
        }
      }
    }
  }
}
