/** The scenario draft of src/environment/draft.py. */
module Draft {
  import opened Documents
  import opened Paths
  import opened Validator

  datatype Section =
    | Metadata | SliceSection | UpfSection | GnbSection | UeSection | AppSection | FlowSection | RuntimeConfig | SplitModeOverlay
    | Unsupported(name: string)

  const SECTION_ORDER: seq<Section> :=
    [Metadata, SliceSection, UpfSection, GnbSection, UeSection, AppSection, FlowSection, RuntimeConfig, SplitModeOverlay]

  /** The key that identifies the entities of a section. */
  function IdKey(section: Section): Option<Field> {
    match section
    case SliceSection => Some(Label)
    case UpfSection => Some(Name)
    case GnbSection => Some(Name)
    case UeSection => Some(Name)
    case AppSection => Some(AppId)
    case FlowSection => Some(FlowId)
    case _ => None
  }

  // ---- Assembling and splitting ----

  predicate AllPresent(sections: map<Section, Json>) {
    forall k | 0 <= k < |SECTION_ORDER| :: SECTION_ORDER[k] in sections
  }

  /** The two sections that are spread into the scenario are mappings, and the first names the scenario. */
  predicate Spreadable(sections: map<Section, Json>) {
    && Metadata in sections && RuntimeConfig in sections
    && sections[Metadata].Obj? && sections[RuntimeConfig].Obj?
    && ScenarioId in sections[Metadata].fields && Name in sections[Metadata].fields
  }

  lemma SectionsIn(sections: map<Section, Json>)
    requires AllPresent(sections)
    ensures forall s | s in {Metadata, SliceSection, UpfSection, GnbSection, UeSection, AppSection, FlowSection,
                             RuntimeConfig, SplitModeOverlay} :: s in sections
  {
    assert SECTION_ORDER[0] == Metadata && SECTION_ORDER[1] == SliceSection && SECTION_ORDER[2] == UpfSection;
    assert SECTION_ORDER[3] == GnbSection && SECTION_ORDER[4] == UeSection && SECTION_ORDER[5] == AppSection;
    assert SECTION_ORDER[6] == FlowSection && SECTION_ORDER[7] == RuntimeConfig && SECTION_ORDER[8] == SplitModeOverlay;
  }

  /** `{**metadata, "slices": ..., "flows": ..., **runtime}` and the overlay. */
  function Assembled(py: Python, sections: map<Section, Json>): Candidate
    requires AllPresent(sections) && Spreadable(sections)
  {
    SectionsIn(sections);
    Joined(py, sections[Metadata].fields,
           Collected(sections[SliceSection], sections[UpfSection], sections[GnbSection],
                     sections[UeSection], sections[AppSection], sections[FlowSection]),
           sections[RuntimeConfig].fields, sections[SplitModeOverlay])
  }

  function Joined(py: Python, metadata: map<Field, Json>, collections: map<Field, Json>, runtime: map<Field, Json>,
                  overlay: Json): Candidate
    requires ScenarioId in metadata && Name in metadata
  {
    Candidate(py.Str(metadata[ScenarioId]), py.Str(metadata[Name]), Obj(metadata + collections + runtime), overlay)
  }

  function Collected(slices: Json, upfs: Json, gnbs: Json, ues: Json, apps: Json, flows: Json): map<Field, Json> {
    map[Slices := slices, Upfs := upfs, Gnbs := gnbs, Ues := ues, Apps := apps, Flows := flows]
  }

  predicate IsMetadata(f: Field) {
    f.Name? || f.ScenarioId? || f.TickMs? || f.Seed?
  }

  predicate IsCollection(f: Field) {
    f.Slices? || f.Upfs? || f.Gnbs? || f.Ues? || f.Apps? || f.Flows?
  }

  predicate IsRuntime(f: Field) {
    f.Free5gc? || f.Ns3? || f.Writer? || f.Topology? || f.Bridge?
  }

  predicate HasMetadata(m: map<Field, Json>) {
    Name in m && ScenarioId in m && TickMs in m && Seed in m
  }

  predicate HasCollections(m: map<Field, Json>) {
    Slices in m && Upfs in m && Gnbs in m && Ues in m && Apps in m && Flows in m
  }

  /** The scenario has the fifteen root fields and no others. */
  ghost predicate HasRoot(j: map<Field, Json>) {
    forall f :: f in j <==> IsMetadata(f) || IsCollection(f) || IsRuntime(f)
  }

  function Part(j: map<Field, Json>, wanted: Field -> bool): (part: map<Field, Json>)
    ensures forall f :: f in part <==> f in j && wanted(f)
    ensures forall f | f in part :: part[f] == j[f]
  {
    map f | f in j && wanted(f) :: j[f]
  }

  ghost predicate SubMap(part: map<Field, Json>, whole: map<Field, Json>) {
    forall f | f in part :: f in whole && part[f] == whole[f]
  }

  lemma MergeBack(whole: map<Field, Json>, a: map<Field, Json>, b: map<Field, Json>, c: map<Field, Json>)
    requires SubMap(a, whole) && SubMap(b, whole) && SubMap(c, whole)
    requires forall f | f in whole :: f in a || f in b || f in c
    ensures a + b + c == whole
  {
  }

  lemma CollectedIs(j: map<Field, Json>)
    requires HasCollections(j)
    ensures Collected(j[Slices], j[Upfs], j[Gnbs], j[Ues], j[Apps], j[Flows]) == Part(j, IsCollection)
  {
    var m := Collected(j[Slices], j[Upfs], j[Gnbs], j[Ues], j[Apps], j[Flows]);
    assert m.Keys == {Slices, Upfs, Gnbs, Ues, Apps, Flows};
  }

  lemma RootMerged(j: map<Field, Json>)
    requires HasRoot(j)
    ensures Part(j, IsMetadata) + Part(j, IsCollection) + Part(j, IsRuntime) == j
  {
    MergeBack(j, Part(j, IsMetadata), Part(j, IsCollection), Part(j, IsRuntime));
  }

  lemma RootHas(j: map<Field, Json>)
    requires HasRoot(j)
    ensures HasMetadata(j) && HasCollections(j) && HasMetadata(Part(j, IsMetadata))
  {
  }

  /** The sections that the semantic tools write for a compiled candidate. */
  function SplitUp(j: map<Field, Json>, overlay: Json): map<Section, Json>
    requires HasCollections(j)
  {
    map[Metadata := Obj(Part(j, IsMetadata)),
        SliceSection := j[Slices], UpfSection := j[Upfs], GnbSection := j[Gnbs],
        UeSection := j[Ues], AppSection := j[Apps], FlowSection := j[Flows],
        RuntimeConfig := Obj(Part(j, IsRuntime)),
        SplitModeOverlay := overlay]
  }

  ghost predicate Named(py: Python, c: Candidate) {
    && c.scenario.Obj? && HasRoot(c.scenario.fields) && HasMetadata(c.scenario.fields) && HasCollections(c.scenario.fields)
    && py.Str(c.scenario.fields[Name]) == c.name && py.Str(c.scenario.fields[ScenarioId]) == c.scenarioId
  }

  lemma Rejoined(py: Python, c: Candidate)
    requires Named(py, c)
    ensures var j := c.scenario.fields;
            && HasMetadata(Part(j, IsMetadata))
            && Joined(py, Part(j, IsMetadata), Collected(j[Slices], j[Upfs], j[Gnbs], j[Ues], j[Apps], j[Flows]),
                      Part(j, IsRuntime), c.overlay) == c
  {
    var j := c.scenario.fields;
    RootHas(j);
    CollectedIs(j);
    RootMerged(j);
  }

  lemma SplitHas(j: map<Field, Json>, overlay: Json)
    requires HasCollections(j)
    ensures var s := SplitUp(j, overlay);
            && AllPresent(s)
            && s[Metadata] == Obj(Part(j, IsMetadata)) && s[RuntimeConfig] == Obj(Part(j, IsRuntime))
            && s[SliceSection] == j[Slices] && s[UpfSection] == j[Upfs] && s[GnbSection] == j[Gnbs]
            && s[UeSection] == j[Ues] && s[AppSection] == j[Apps] && s[FlowSection] == j[Flows]
            && s[SplitModeOverlay] == overlay
  {
  }

  /** Splitting a candidate into sections and assembling them again gives it back. */
  lemma SplitRoundTrip(py: Python, c: Candidate)
    requires Named(py, c)
    ensures var sections := SplitUp(c.scenario.fields, c.overlay);
            AllPresent(sections) && Spreadable(sections) && Assembled(py, sections) == c
  {
    SplitHas(c.scenario.fields, c.overlay);
    Rejoined(py, c);
  }

  ghost predicate HasName(c: Candidate) {
    c.scenario.Obj? && Name in c.scenario.fields
  }

  lemma AssembledHasName(py: Python, sections: map<Section, Json>)
    requires AllPresent(sections) && Spreadable(sections)
    ensures HasName(Assembled(py, sections))
  {
    SectionsIn(sections);
    JoinedHasName(py, sections[Metadata].fields,
                  Collected(sections[SliceSection], sections[UpfSection], sections[GnbSection],
                            sections[UeSection], sections[AppSection], sections[FlowSection]),
                  sections[RuntimeConfig].fields, sections[SplitModeOverlay]);
  }

  lemma JoinedHasName(py: Python, metadata: map<Field, Json>, collections: map<Field, Json>, runtime: map<Field, Json>, overlay: Json)
    requires ScenarioId in metadata && Name in metadata
    ensures HasName(Joined(py, metadata, collections, runtime, overlay))
  {
  }

  // ---- Patching one entity ----

  /** `str(entity.get(id_key) or "")` */
  function EntityId(py: Python, key: Field, entity: Json): string {
    if entity.Get(key).Truthy() then py.Str(entity.Get(key)) else ""
  }

  predicate Matches(py: Python, key: Field, id: string, entity: Json) {
    entity.Obj? && EntityId(py, key, entity) == id
  }

  /** The first entity of that id. */
  ghost predicate FirstMatch(py: Python, key: Field, id: string, items: seq<Json>, at: nat) {
    at < |items| && Matches(py, key, id, items[at]) && forall k | 0 <= k < at :: !Matches(py, key, id, items[k])
  }

  /** The guard against a patch that renames the entity it is addressed to. */
  predicate KeepsStableId(py: Python, key: Field, id: string, changes: map<Field, Json>) {
    key in changes ==> py.Str(changes[key]) == id
  }

  /** `entity.update(changes)` on one entity of the list. */
  function Patched(items: seq<Json>, i: nat, changes: map<Field, Json>): (out: seq<Json>)
    requires i < |items| && items[i].Obj?
    ensures |out| == |items|
  {
    items[i := Obj(items[i].fields + changes)]
  }

  ghost predicate SameIds(py: Python, key: Field, a: seq<Json>, b: seq<Json>) {
    |a| == |b| && forall k | 0 <= k < |a| :: EntityId(py, key, a[k]) == EntityId(py, key, b[k])
  }

  lemma UpdatedId(py: Python, key: Field, id: string, fields: map<Field, Json>, changes: map<Field, Json>)
    requires Matches(py, key, id, Obj(fields)) && KeepsStableId(py, key, id, changes)
    ensures EntityId(py, key, Obj(fields + changes)) == id <==> (key in changes && id != "" ==> changes[key].Truthy())
  {
    var merged := Obj(fields + changes);
    if key in changes {
      assert merged.Get(key) == changes[key];
    } else {
      assert merged.Get(key) == Obj(fields).Get(key);
    }
  }

  /** A patch that passes the guard keeps every id, unless it writes a falsy id over a nonempty one. */
  lemma PatchKeepsIdsExactly(py: Python, key: Field, id: string, items: seq<Json>, i: nat, changes: map<Field, Json>)
    requires i < |items| && Matches(py, key, id, items[i]) && KeepsStableId(py, key, id, changes)
    ensures SameIds(py, key, items, Patched(items, i, changes))
            <==> (key in changes && id != "" ==> changes[key].Truthy())
  {
    UpdatedId(py, key, id, items[i].fields, changes);
    OneChanged(py, key, items, i, Obj(items[i].fields + changes));
  }

  lemma OneChanged(py: Python, key: Field, items: seq<Json>, i: nat, x: Json)
    requires i < |items|
    ensures SameIds(py, key, items, items[i := x]) <==> EntityId(py, key, items[i]) == EntityId(py, key, x)
  {
    assert items[i := x][i] == x;
  }

  /** The guard alone does not keep ids: the number zero reads as "0", and is then taken for a missing id. */
  lemma PatchCanLoseId(py: Python)
    requires py.Str(Num(Int(0))) == "0"
    ensures exists items: seq<Json>, changes: map<Field, Json> ::
              && |items| == 1 && Matches(py, FlowId, "0", items[0]) && KeepsStableId(py, FlowId, "0", changes)
              && !SameIds(py, FlowId, items, Patched(items, 0, changes))
  {
    var items, changes := [Obj(map[FlowId := Text("0")])], map[FlowId := Num(Int(0))];
    assert Matches(py, FlowId, "0", items[0]);
    PatchKeepsIdsExactly(py, FlowId, "0", items, 0, changes);
  }

  // ---- The store ----

  class ScenarioDraftStore {
    var sections: map<Section, Json>
    var completed: seq<Section>
    var validationPassed: bool
    /** Where the draft was written; empty while it is not. */
    var scenarioPath: Path
    var overlayPath: Path

    /** Sections are completed in their fixed order, and exactly the completed ones hold a payload. */
    ghost predicate Valid()
      reads this
    {
      && |completed| <= |SECTION_ORDER| && completed == SECTION_ORDER[..|completed|]
      && (forall s :: s in sections <==> s in completed)
      && (completed != [] ==> Metadata in sections && sections[Metadata].Obj? && HasMetadata(sections[Metadata].fields))
    }

    ghost predicate NoEvidence()
      reads this
    {
      !validationPassed && scenarioPath == [] && overlayPath == []
    }

    constructor ()
      ensures Valid() && NoEvidence() && completed == []
    {
      sections, completed, validationPassed, scenarioPath, overlayPath := map[], [], false, [], [];
    }

    method InvalidateEvidence()
      modifies this`validationPassed, this`scenarioPath, this`overlayPath
      ensures NoEvidence()
    {
      validationPassed, scenarioPath, overlayPath := false, [], [];
    }

    method Initialize(metadata: map<Field, Json>) returns (ok: bool)
      requires Valid()
      modifies this
      ensures Valid()
      ensures ok <==> HasMetadata(metadata)
      ensures ok ==> sections == map[Metadata := Obj(metadata)] && completed == [Metadata] && NoEvidence()
      ensures !ok ==> unchanged(this)
    {
      if !HasMetadata(metadata) {
        return false;
      }
      sections, completed := map[Metadata := Obj(metadata)], [Metadata];
      InvalidateEvidence();
      return true;
    }

    method NextSection() returns (next: Option<Section>)
      requires Valid()
      ensures next == if |completed| == |SECTION_ORDER| then None else Some(SECTION_ORDER[|completed|])
    {
      for i := 0 to |SECTION_ORDER|
        invariant i <= |completed|
      {
        if SECTION_ORDER[i] !in completed {
          Distinct();
          return Some(SECTION_ORDER[i]);
        }
        Distinct();
      }
      return None;
    }

    /** The order names each section once. */
    lemma Distinct()
      requires Valid()
      ensures forall i | 0 <= i < |SECTION_ORDER| :: SECTION_ORDER[i] in completed <==> i < |completed|
    {
      forall i | 0 <= i < |SECTION_ORDER|
        ensures SECTION_ORDER[i] in completed <==> i < |completed|
      {
        if i < |completed| {
          assert completed[i] == SECTION_ORDER[i];
        }
        assert forall j | 0 <= j < |completed| :: completed[j] == SECTION_ORDER[j];
      }
    }

    /** The section is completed already, or the next one in order. */
    ghost predicate Replaceable(section: Section)
      reads this
    {
      && completed != [] && section in SECTION_ORDER && section != Metadata
      && (section in completed || (|completed| < |SECTION_ORDER| && section == SECTION_ORDER[|completed|]))
    }

    method ReplaceSection(section: Section, payload: Json) returns (ok: bool)
      requires Valid()
      modifies this
      ensures Valid()
      ensures ok <==> old(Replaceable(section))
      ensures ok ==> && sections == old(sections)[section := payload] && NoEvidence()
                     && completed == if section in old(completed) then old(completed) else old(completed) + [section]
      ensures !ok ==> unchanged(this)
    {
      if Metadata !in sections || section !in SECTION_ORDER || section == Metadata {
        Distinct();
        assert SECTION_ORDER[0] == Metadata;
        return false;
      }
      Distinct();
      assert completed != [];
      var next := NextSection();
      if section !in completed && Some(section) != next {
        return false;
      }
      Put(section, payload);
      return true;
    }

    method Put(section: Section, payload: Json)
      requires Valid() && completed != [] && section != Metadata
      requires section in completed || (|completed| < |SECTION_ORDER| && section == SECTION_ORDER[|completed|])
      modifies this
      ensures Valid() && NoEvidence() && sections == old(sections)[section := payload]
      ensures completed == if section in old(completed) then old(completed) else old(completed) + [section]
    {
      assert section !in completed ==> completed + [section] == SECTION_ORDER[..|completed| + 1];
      sections := sections[section := payload];
      if section !in completed {
        completed := completed + [section];
      }
      InvalidateEvidence();
    }

    /** The list that a patch is about, when the patch gets as far as looking for its entity. */
    ghost predicate Patchable(py: Python, section: Section, id: string, changes: map<Field, Json>)
      reads this
    {
      && completed != [] && IdKey(section).Some?
      && section in sections && sections[section].List?
      && KeepsStableId(py, IdKey(section).value, id, changes)
    }

    /** Some entity of the section has that id. */
    ghost predicate Listed(py: Python, section: Section, id: string)
      requires IdKey(section).Some? && section in sections && sections[section].List?
      reads this
    {
      exists k :: 0 <= k < |sections[section].items| && Matches(py, IdKey(section).value, id, sections[section].items[k])
    }

    /** Nothing but the first entity of that id is updated. */
    ghost predicate PatchedFirst(py: Python, before: map<Section, Json>, section: Section, id: string, changes: map<Field, Json>)
      reads this
    {
      && IdKey(section).Some? && section in before && before[section].List?
      && exists at: nat :: FirstMatch(py, IdKey(section).value, id, before[section].items, at)
                           && sections == before[section := List(Patched(before[section].items, at, changes))]
    }

    method PatchEntity(py: Python, section: Section, id: string, changes: map<Field, Json>) returns (ok: bool, ghost at: nat)
      requires Valid()
      modifies this
      ensures Valid()
      ensures ok <==> old(Patchable(py, section, id, changes)) && old(Listed(py, section, id))
      ensures ok ==> var items := old(sections)[section].items;
                     && FirstMatch(py, IdKey(section).value, id, items, at)
                     && sections == old(sections)[section := List(Patched(items, at, changes))]
                     && completed == old(completed) && NoEvidence()
      ensures !ok ==> unchanged(this)
    {
      ok, at := false, 0;
      Distinct();
      assert SECTION_ORDER[0] == Metadata;
      if Metadata !in sections || IdKey(section).None? {
        return;
      }
      var key := IdKey(section).value;
      if section !in sections || !sections[section].List? || !KeepsStableId(py, key, id, changes) {
        return;
      }
      var items := sections[section].items;
      var found := FindEntity(py, key, id, items);
      if found == |items| {
        return;
      }
      sections := sections[section := List(Patched(items, found, changes))];
      InvalidateEvidence();
      ok, at := true, found;
    }

    /** The first entity of that identifier, or the length of the list. */
    static method FindEntity(py: Python, key: Field, id: string, items: seq<Json>) returns (at: nat)
      ensures at <= |items| && (at < |items| ==> Matches(py, key, id, items[at]))
      ensures forall k | 0 <= k < at :: !Matches(py, key, id, items[k])
    {
      at := 0;
      while at < |items| && !Matches(py, key, id, items[at])
        invariant at <= |items|
        invariant forall k | 0 <= k < at :: !Matches(py, key, id, items[k])
      {
        at := at + 1;
      }
    }

    method AssembleCandidate(py: Python) returns (candidate: Option<Candidate>)
      requires Valid()
      ensures candidate == if AllPresent(sections) && Spreadable(sections) then Some(Assembled(py, sections)) else None
    {
      Distinct();
      if exists s | s in SECTION_ORDER :: s !in completed {
        return None;
      }
      SectionsIn(sections);
      if !sections[RuntimeConfig].Obj? {
        return None;
      }
      return Some(Assembled(py, sections));
    }

    method RecordWrittenPaths(scenario: Path, overlay: Path)
      modifies this`scenarioPath, this`overlayPath
      ensures scenarioPath == scenario && overlayPath == overlay
    {
      scenarioPath, overlayPath := scenario, overlay;
    }
  }
}
