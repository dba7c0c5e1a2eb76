/** `apply_revision`: explicit replacements merged into an accepted design. */
module Revision {
  import opened Documents
  import opened Design

  datatype Change = Change(name: Option<string>, rationale: Option<string>, tickMs: Option<int>, seed: Option<int>,
                           slices: seq<Slice>, upfs: seq<Upf>, gnbs: seq<Gnb>, ues: seq<Ue>, apps: seq<App>, flows: seq<Flow>,
                           runtime: Option<Runtime>)

  datatype Revised = Revised(design: Design, changed: seq<string>) | Rejected(errors: seq<string>)

  // ---- One section ----

  predicate SectionAccepts<T>(items: seq<T>, replacements: seq<T>, key: T -> string) {
    DistinctKeys(Keys(replacements, key)) && forall i | 0 <= i < |replacements| :: key(replacements[i]) in KeyMap(items, key)
  }

  /** The entity that ends up under a key: its replacement, or what the section's dictionary held. */
  function Settled<T>(items: seq<T>, replacements: seq<T>, key: T -> string, k: string): T
    requires k in KeyMap(items, key)
  {
    if k in KeyMap(replacements, key) then KeyMap(replacements, key)[k] else KeyMap(items, key)[k]
  }

  function ReviseSection<T>(items: seq<T>, replacements: seq<T>, key: T -> string): (out: seq<T>)
    ensures |out| == |items|
  {
    if replacements == [] then items
    else seq(|items|, i requires 0 <= i < |items| => Settled(items, replacements, key, key(items[i])))
  }

  /** The dictionary after every replacement was stored. */
  function Overlay<T>(m: map<string, T>, replacements: seq<T>, key: T -> string): map<string, T> {
    if replacements == [] then m
    else
      var last := replacements[|replacements| - 1];
      Overlay(m, replacements[..|replacements| - 1], key)[key(last) := last]
  }

  lemma {:induction false} OverlayIs<T>(m: map<string, T>, replacements: seq<T>, key: T -> string, k: string)
    ensures k in Overlay(m, replacements, key) <==> k in m || k in KeyMap(replacements, key)
    ensures k in Overlay(m, replacements, key) ==>
              Overlay(m, replacements, key)[k] == if k in KeyMap(replacements, key) then KeyMap(replacements, key)[k] else m[k]
  {
    if replacements != [] {
      OverlayIs(m, replacements[..|replacements| - 1], key, k);
    }
  }

  method StoreReplacements<T>(start: map<string, T>, replacements: seq<T>, key: T -> string)
    returns (indexed: map<string, T>, changed: seq<string>, errors: seq<string>)
    ensures errors == [] <==> forall i | 0 <= i < |replacements| :: key(replacements[i]) in start
    ensures errors == [] ==> indexed == Overlay(start, replacements, key)
    ensures errors == [] ==> changed == Keys(replacements, key)
    ensures indexed.Keys == start.Keys
  {
    indexed, changed, errors := start, [], [];
    for i := 0 to |replacements|
      invariant indexed.Keys == start.Keys
      invariant errors == [] <==> forall k | 0 <= k < i :: key(replacements[k]) in start
      invariant errors == [] ==> indexed == Overlay(start, replacements[..i], key)
      invariant errors == [] ==> changed == Keys(replacements, key)[..i]
    {
      assert replacements[..i + 1][..i] == replacements[..i];
      var k := key(replacements[i]);
      if k !in indexed {
        errors := errors + ["revision cannot add an undeclared key"];
      } else {
        indexed := indexed[k := replacements[i]];
        changed := changed + [k];
      }
    }
    assert replacements[..|replacements|] == replacements;
  }

  method ReplaceInSection<T>(items: seq<T>, replacements: seq<T>, key: T -> string)
    returns (out: seq<T>, changed: seq<string>, errors: seq<string>)
    ensures errors == [] <==> SectionAccepts(items, replacements, key)
    ensures errors == [] ==> out == ReviseSection(items, replacements, key)
    ensures errors == [] ==> changed == Keys(replacements, key)
  {
    if replacements == [] {
      return items, [], [];
    }
    if !DistinctKeys(Keys(replacements, key)) {
      return items, [], ["revision contains duplicate replacement keys"];
    }
    var indexed;
    indexed, changed, errors := StoreReplacements(KeyMap(items, key), replacements, key);
    out := seq(|items|, i requires 0 <= i < |items| => indexed[key(items[i])]);
    if errors == [] {
      forall i | 0 <= i < |items|
        ensures out[i] == Settled(items, replacements, key, key(items[i]))
      {
        OverlayIs(KeyMap(items, key), replacements, key, key(items[i]));
      }
    }
  }

  // ---- What a revised section looks like ----

  lemma KeyPicksOne<T>(items: seq<T>, key: T -> string, i: nat, j: nat)
    requires i < |items| && j < |items| && DistinctKeys(Keys(items, key)) && key(items[i]) == key(items[j])
    ensures i == j
  {
    var keys := Keys(items, key);
    assert keys[i] == keys[j];
  }

  lemma Indexed<T>(items: seq<T>, key: T -> string, i: nat)
    requires i < |items| && DistinctKeys(Keys(items, key))
    ensures KeyMap(items, key)[key(items[i])] == items[i]
  {
    var j := KeptUnder(items, key, i);
    KeyPicksOne(items, key, i, j);
  }

  /** Where the entity stands that the dictionary keeps under a key. */
  lemma KeptUnder<T>(items: seq<T>, key: T -> string, i: nat) returns (j: nat)
    requires i < |items|
    ensures j < |items| && key(items[j]) == key(items[i]) && KeyMap(items, key)[key(items[i])] == items[j]
  {
    var x := KeyMap(items, key)[key(items[i])];
    j :| 0 <= j < |items| && items[j] == x;
  }

  /** The keys stay where they are, also when the section repeats some. */
  lemma KeysStay<T>(items: seq<T>, replacements: seq<T>, key: T -> string)
    ensures Keys(ReviseSection(items, replacements, key), key) == Keys(items, key)
  {
  }

  /** Every listed entity becomes its replacement, wherever its key stands. */
  lemma ListedReplaced<T>(items: seq<T>, replacements: seq<T>, key: T -> string, i: nat, r: nat)
    requires SectionAccepts(items, replacements, key)
    requires i < |items| && r < |replacements| && key(items[i]) == key(replacements[r])
    ensures ReviseSection(items, replacements, key)[i] == replacements[r]
  {
    Indexed(replacements, key, r);
  }

  ghost predicate Omitted<T>(replacements: seq<T>, key: T -> string, x: T) {
    forall r | 0 <= r < |replacements| :: key(replacements[r]) != key(x)
  }

  lemma OmittedSettles<T>(items: seq<T>, replacements: seq<T>, key: T -> string, i: nat)
    requires i < |items| && Omitted(replacements, key, items[i]) && replacements != []
    ensures ReviseSection(items, replacements, key)[i] == KeyMap(items, key)[key(items[i])]
  {
    KeysMapped(replacements, key, key(items[i]));
    assert forall r | 0 <= r < |replacements| :: Keys(replacements, key)[r] != key(items[i]);
  }

  /** No omitted key is shared by two different entities. */
  ghost predicate OmittedAgree<T(!new)>(items: seq<T>, replacements: seq<T>, key: T -> string) {
    forall i, j | 0 <= i < |items| && 0 <= j < |items| && key(items[i]) == key(items[j]) && Omitted(replacements, key, items[i]) ::
      items[i] == items[j]
  }

  ghost predicate FrameKept<T(!new)>(items: seq<T>, replacements: seq<T>, key: T -> string) {
    forall i | 0 <= i < |items| && Omitted(replacements, key, items[i]) :: ReviseSection(items, replacements, key)[i] == items[i]
  }

  /** A section that is revised at all leaves its omitted entities alone exactly when no omitted key is
      shared by two different entities; unique keys are enough for that. */
  lemma FrameExact<T(!new)>(items: seq<T>, replacements: seq<T>, key: T -> string)
    requires replacements != []
    ensures FrameKept(items, replacements, key) <==> OmittedAgree(items, replacements, key)
    ensures DistinctKeys(Keys(items, key)) ==> OmittedAgree(items, replacements, key)
  {
    if FrameKept(items, replacements, key) {
      forall i, j | 0 <= i < |items| && 0 <= j < |items| && key(items[i]) == key(items[j]) && Omitted(replacements, key, items[i])
        ensures items[i] == items[j]
      {
        OmittedSettles(items, replacements, key, i);
        OmittedSettles(items, replacements, key, j);
      }
    }
    if OmittedAgree(items, replacements, key) {
      forall i | 0 <= i < |items| && Omitted(replacements, key, items[i])
        ensures ReviseSection(items, replacements, key)[i] == items[i]
      {
        OmittedSettles(items, replacements, key, i);
        var j := KeptUnder(items, key, i);
      }
    }
    if DistinctKeys(Keys(items, key)) {
      forall i, j | 0 <= i < |items| && 0 <= j < |items| && key(items[i]) == key(items[j])
        ensures i == j
      {
        KeyPicksOne(items, key, i, j);
      }
    }
  }

  /** With a repeated key the frame fails: an omitted entity is overwritten by its later namesake. */
  lemma FrameFailsOnRepeatedKeys()
    ensures var first, second, other := Upf("a", "first", "r", "d", "w"), Upf("a", "second", "r", "d", "w"), Upf("b", "other", "r", "d", "w");
            && SectionAccepts([first, second, other], [other], UpfKey)
            && ReviseSection([first, second, other], [other], UpfKey)[0] == second != first
  {
    var first, second, other := Upf("a", "first", "r", "d", "w"), Upf("a", "second", "r", "d", "w"), Upf("b", "other", "r", "d", "w");
    var items := [first, second, other];
    assert items[..2] == [first, second] && items[..2][..1] == [first] && [other][..0] == [];
    assert KeyMap([first, second], UpfKey) == KeyMap([first], UpfKey)["a" := second];
    assert KeyMap(items, UpfKey) == KeyMap(items[..2], UpfKey)["b" := other];
    assert "a" != "b";
    assert KeyMap([other], UpfKey) == map["b" := other];
  }

  lemma SettledKey<T>(items: seq<T>, replacements: seq<T>, key: T -> string, k: string)
    requires k in KeyMap(items, key)
    ensures key(Settled(items, replacements, key, k)) == k
  {
  }

  lemma SettledTwice<T>(items: seq<T>, replacements: seq<T>, key: T -> string, k: string)
    requires replacements != [] && k in KeyMap(items, key) && k in KeyMap(ReviseSection(items, replacements, key), key)
    ensures Settled(ReviseSection(items, replacements, key), replacements, key, k) == Settled(items, replacements, key, k)
  {
    var once := ReviseSection(items, replacements, key);
    if k !in KeyMap(replacements, key) {
      var x := KeyMap(once, key)[k];
      assert key(x) == k;
      var j :| 0 <= j < |once| && once[j] == x;
      SettledKey(items, replacements, key, key(items[j]));
    }
  }

  /** Revising twice is revising once. */
  lemma SectionIdempotent<T>(items: seq<T>, replacements: seq<T>, key: T -> string)
    ensures SectionAccepts(items, replacements, key) ==>
              SectionAccepts(ReviseSection(items, replacements, key), replacements, key)
    ensures ReviseSection(ReviseSection(items, replacements, key), replacements, key) == ReviseSection(items, replacements, key)
  {
    var once := ReviseSection(items, replacements, key);
    KeysStay(items, replacements, key);
    forall k | k in KeyMap(items, key)
      ensures k in KeyMap(once, key)
    {
      SameKeyed(items, once, key, k);
    }
    if replacements != [] {
      var twice := ReviseSection(once, replacements, key);
      forall i | 0 <= i < |items|
        ensures twice[i] == once[i]
      {
        SettledKey(items, replacements, key, key(items[i]));
        SettledTwice(items, replacements, key, key(items[i]));
      }
    }
  }

  lemma SameKeyed<T>(a: seq<T>, b: seq<T>, key: T -> string, k: string)
    requires Keys(a, key) == Keys(b, key) && k in KeyMap(a, key)
    ensures k in KeyMap(b, key)
  {
    var x := KeyMap(a, key)[k];
    var i :| 0 <= i < |a| && a[i] == x;
    assert Keys(a, key)[i] == k == Keys(b, key)[i] == key(b[i]);
  }

  // ---- The whole revision ----

  function Replace<T>(option: Option<T>, value: T): T {
    if option.Some? then option.value else value
  }

  function Merge(d: Design, r: Change): Design {
    d.(header := d.header.(name := Replace(r.name, d.header.name), rationale := Replace(r.rationale, d.header.rationale),
                           tickMs := Replace(r.tickMs, d.header.tickMs), seed := Replace(r.seed, d.header.seed)),
       slices := ReviseSection(d.slices, r.slices, SliceKey), upfs := ReviseSection(d.upfs, r.upfs, UpfKey),
       gnbs := ReviseSection(d.gnbs, r.gnbs, GnbKey), ues := ReviseSection(d.ues, r.ues, UeKey),
       apps := ReviseSection(d.apps, r.apps, AppKey), flows := ReviseSection(d.flows, r.flows, FlowKey),
       runtime := Replace(r.runtime, d.runtime))
  }

  predicate SectionsAccept(d: Design, r: Change) {
    && SectionAccepts(d.slices, r.slices, SliceKey) && SectionAccepts(d.upfs, r.upfs, UpfKey)
    && SectionAccepts(d.gnbs, r.gnbs, GnbKey) && SectionAccepts(d.ues, r.ues, UeKey)
    && SectionAccepts(d.apps, r.apps, AppKey) && SectionAccepts(d.flows, r.flows, FlowKey)
  }

  predicate Explicit(r: Change) {
    || r.name.Some? || r.rationale.Some? || r.tickMs.Some? || r.seed.Some? || r.runtime.Some?
    || r.slices != [] || r.upfs != [] || r.gnbs != [] || r.ues != [] || r.apps != [] || r.flows != []
  }

  predicate Applies(d: Design, r: Change) {
    SectionsAccept(d, r) && Explicit(r)
  }

  function Prefixed(section: string, keys: seq<string>): (out: seq<string>)
    ensures |out| == |keys|
  {
    seq(|keys|, i requires 0 <= i < |keys| => section + "." + keys[i])
  }

  method ReviseSections(d: Design, r: Change) returns (out: Design, changed: seq<string>, errors: seq<string>)
    ensures errors == [] <==> SectionsAccept(d, r)
    ensures errors == [] ==> Merge(d, r) == out.(header := Merge(d, r).header, runtime := Merge(d, r).runtime)
    ensures errors == [] ==> |changed| == |r.slices| + |r.upfs| + |r.gnbs| + |r.ues| + |r.apps| + |r.flows|
  {
    var slices, c1, e1 := ReplaceInSection(d.slices, r.slices, SliceKey);
    var upfs, c2, e2 := ReplaceInSection(d.upfs, r.upfs, UpfKey);
    var gnbs, c3, e3 := ReplaceInSection(d.gnbs, r.gnbs, GnbKey);
    var ues, c4, e4 := ReplaceInSection(d.ues, r.ues, UeKey);
    var apps, c5, e5 := ReplaceInSection(d.apps, r.apps, AppKey);
    var flows, c6, e6 := ReplaceInSection(d.flows, r.flows, FlowKey);
    changed := Prefixed("slices", c1) + Prefixed("upfs", c2) + Prefixed("gnbs", c3)
               + Prefixed("ues", c4) + Prefixed("apps", c5) + Prefixed("flows", c6);
    errors := e1 + e2 + e3 + e4 + e5 + e6;
    out := d.(slices := slices, upfs := upfs, gnbs := gnbs, ues := ues, apps := apps, flows := flows);
  }

  method ReviseHeader(d: Design, r: Change) returns (header: Header, changed: seq<string>)
    ensures header == Merge(d, r).header
    ensures changed == [] <==> r.name.None? && r.rationale.None? && r.tickMs.None? && r.seed.None?
  {
    header, changed := d.header, [];
    if r.name.Some? {
      header, changed := header.(name := r.name.value), changed + ["name"];
    }
    if r.rationale.Some? {
      header, changed := header.(rationale := r.rationale.value), changed + ["rationale"];
    }
    if r.tickMs.Some? {
      header, changed := header.(tickMs := r.tickMs.value), changed + ["tick_ms"];
    }
    if r.seed.Some? {
      header, changed := header.(seed := r.seed.value), changed + ["seed"];
    }
  }

  method ApplyRevision(d: Design, r: Change) returns (result: Revised)
    ensures result.Revised? <==> Applies(d, r)
    ensures result.Revised? ==> result.design == Merge(d, r)
  {
    var header, named := ReviseHeader(d, r);
    var sections, listed, errors := ReviseSections(d, r);
    var changed := named + listed + if r.runtime.Some? then ["runtime"] else [];
    if errors != [] {
      return Rejected(errors);
    }
    if changed == [] {
      return Rejected(["revision contains no explicit semantic replacements"]);
    }
    return Revised.Revised(sections.(header := header, runtime := Replace(r.runtime, d.runtime)), changed);
  }

  /** A revision that applies keeps applying, and changes nothing more. */
  lemma RevisionIdempotent(d: Design, r: Change)
    requires Applies(d, r)
    ensures Applies(Merge(d, r), r) && Merge(Merge(d, r), r) == Merge(d, r)
  {
    SectionIdempotent(d.slices, r.slices, SliceKey);
    SectionIdempotent(d.upfs, r.upfs, UpfKey);
    SectionIdempotent(d.gnbs, r.gnbs, GnbKey);
    SectionIdempotent(d.ues, r.ues, UeKey);
    SectionIdempotent(d.apps, r.apps, AppKey);
    SectionIdempotent(d.flows, r.flows, FlowKey);
  }

  /** On a design with unique keys, a revision touches the listed entities and nothing else. */
  lemma SectionRevised<T(!new)>(items: seq<T>, replacements: seq<T>, key: T -> string)
    requires SectionAccepts(items, replacements, key) && DistinctKeys(Keys(items, key))
    ensures var out := ReviseSection(items, replacements, key);
            && Keys(out, key) == Keys(items, key)
            && (forall i | 0 <= i < |items| && Omitted(replacements, key, items[i]) :: out[i] == items[i])
            && (forall r | 0 <= r < |replacements| ::
                  exists i :: 0 <= i < |items| && key(items[i]) == key(replacements[r]) && out[i] == replacements[r])
  {
    KeysStay(items, replacements, key);
    if replacements != [] {
      FrameExact(items, replacements, key);
    }
    forall r | 0 <= r < |replacements|
      ensures exists i :: 0 <= i < |items| && key(items[i]) == key(replacements[r])
                          && ReviseSection(items, replacements, key)[i] == replacements[r]
    {
      var x := KeyMap(items, key)[key(replacements[r])];
      assert key(x) == key(replacements[r]);
      var i :| 0 <= i < |items| && items[i] == x;
      ListedReplaced(items, replacements, key, i, r);
    }
  }
}
