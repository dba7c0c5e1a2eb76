/** The order in which a design lists its entities matters neither to its acceptance, nor to its soundness,
    nor to the candidate compiled from it. */
module DesignReordering {
  import opened Strings
  import opened Lists
  import opened Sums
  import opened Documents
  import opened Validator
  import opened Design
  import opened DesignCompiler
  import opened DesignCompilation
  import opened CompilerCorrectness

  lemma {:induction false} DistinctOnce<T>(s: seq<T>, key: T -> string, x: T)
    requires DistinctKeys(Keys(s, key))
    ensures multiset(s)[x] <= 1
  {
    if s != [] {
      var n := |s| - 1;
      assert s == s[..n] + [s[n]];
      assert forall i | 0 <= i < n :: Keys(s[..n], key)[i] == Keys(s, key)[i];
      DistinctOnce(s[..n], key, x);
      forall i | 0 <= i < n
        ensures s[i] != s[n]
      {
        assert Keys(s, key)[i] != Keys(s, key)[n];
      }
    }
  }

  lemma Twice<T>(s: seq<T>, i: nat, j: nat)
    requires i < j < |s| && s[i] == s[j]
    ensures multiset(s)[s[i]] >= 2
  {
    assert s == s[..j] + s[j..];
    assert s[i] in s[..j] && s[j] in s[j..];
  }

  lemma Reordered<T>(a: seq<T>, b: seq<T>, key: T -> string)
    requires multiset(a) == multiset(b) && DistinctKeys(Keys(a, key))
    ensures forall x | x in b :: x in a
    ensures forall x | x in a :: x in b
    ensures DistinctKeys(Keys(b, key))
    ensures KeyMap(a, key) == KeyMap(b, key)
  {
    assert forall x :: x in a <==> x in multiset(a);
    assert forall x :: x in b <==> x in multiset(b);
    forall i, j | 0 <= i < j < |b|
      ensures key(b[i]) != key(b[j])
    {
      assert b[i] in b && b[j] in b;
      var m :| 0 <= m < |a| && a[m] == b[i];
      var n :| 0 <= n < |a| && a[n] == b[j];
      assert Keys(a, key)[m] == key(b[i]) && Keys(a, key)[n] == key(b[j]);
      if b[i] == b[j] {
        Twice(b, i, j);
        DistinctOnce(a, key, b[i]);
      }
    }
    SameMap(a, b, key);
  }

  lemma KeyFound<T>(items: seq<T>, key: T -> string, x: T)
    requires x in items && DistinctKeys(Keys(items, key))
    ensures key(x) in KeyMap(items, key) && KeyMap(items, key)[key(x)] == x
  {
    var i :| 0 <= i < |items| && items[i] == x;
    var y := KeyMap(items, key)[key(x)];
    assert key(y) == key(x);
    var j :| 0 <= j < |items| && items[j] == y;
    assert Keys(items, key)[i] == key(x) && Keys(items, key)[j] == key(y);
  }

  lemma FoundToo<T>(a: seq<T>, b: seq<T>, key: T -> string)
    requires (forall x | x in a :: x in b) && DistinctKeys(Keys(b, key))
    ensures forall k | k in KeyMap(a, key) :: k in KeyMap(b, key) && KeyMap(b, key)[k] == KeyMap(a, key)[k]
  {
    forall k | k in KeyMap(a, key)
      ensures k in KeyMap(b, key) && KeyMap(b, key)[k] == KeyMap(a, key)[k]
    {
      KeyFound(b, key, KeyMap(a, key)[k]);
    }
  }

  lemma SameMap<T>(a: seq<T>, b: seq<T>, key: T -> string)
    requires (forall x | x in b :: x in a) && (forall x | x in a :: x in b)
    requires DistinctKeys(Keys(a, key)) && DistinctKeys(Keys(b, key))
    ensures KeyMap(a, key) == KeyMap(b, key)
  {
    FoundToo(a, b, key);
    FoundToo(b, a, key);
    MapsEqual(KeyMap(a, key), KeyMap(b, key));
  }

  lemma MapsEqual<T>(m: map<string, T>, n: map<string, T>)
    requires forall k | k in m :: k in n && n[k] == m[k]
    requires forall k | k in n :: k in m
    ensures m == n
  {
  }

  /** The same entities, listed in any order. */
  ghost predicate SameEntities(a: Design, b: Design) {
    && a.header == b.header && a.runtime == b.runtime
    && multiset(a.slices) == multiset(b.slices) && multiset(a.upfs) == multiset(b.upfs) && multiset(a.gnbs) == multiset(b.gnbs)
    && multiset(a.ues) == multiset(b.ues) && multiset(a.apps) == multiset(b.apps) && multiset(a.flows) == multiset(b.flows)
  }

  ghost predicate SameMaps(a: Design, b: Design) {
    && KeyMap(a.slices, SliceKey) == KeyMap(b.slices, SliceKey) && KeyMap(a.upfs, UpfKey) == KeyMap(b.upfs, UpfKey)
    && KeyMap(a.gnbs, GnbKey) == KeyMap(b.gnbs, GnbKey) && KeyMap(a.ues, UeKey) == KeyMap(b.ues, UeKey)
    && KeyMap(a.apps, AppKey) == KeyMap(b.apps, AppKey) && KeyMap(a.flows, FlowKey) == KeyMap(b.flows, FlowKey)
  }

  ghost predicate SameMembers(a: Design, b: Design) {
    && (forall x | x in b.gnbs :: x in a.gnbs) && (forall x | x in b.ues :: x in a.ues) && (forall x | x in b.apps :: x in a.apps)
    && (forall x | x in b.flows :: x in a.flows)
    && (forall x | x in a.apps :: x in b.apps) && (forall x | x in a.flows :: x in b.flows)
  }

  lemma SectionReordered<T>(declared: seq<string>, a: seq<T>, b: seq<T>, key: T -> string)
    requires multiset(a) == multiset(b) && SectionComplete(declared, Keys(a, key))
    ensures SectionComplete(declared, Keys(b, key)) && KeyMap(a, key) == KeyMap(b, key)
    ensures forall x | x in b :: x in a
    ensures forall x | x in a :: x in b
  {
    Reordered(a, b, key);
    forall k
      ensures k in Keys(a, key) <==> k in Keys(b, key)
    {
      KeysMapped(a, key, k);
      KeysMapped(b, key, k);
    }
  }

  lemma SectionsReordered(c: Catalog, a: Design, b: Design)
    requires SectionsComplete(c, a) && SameEntities(a, b)
    ensures SectionsComplete(c, b) && SameMaps(a, b) && SameMembers(a, b)
  {
    var s, x, y := c.Sections(), DesignSections(a), DesignSections(b);
    assert SectionComplete(s[0], x[0]) && SectionComplete(s[1], x[1]) && SectionComplete(s[2], x[2]);
    assert SectionComplete(s[3], x[3]) && SectionComplete(s[4], x[4]) && SectionComplete(s[5], x[5]);
    SectionReordered(c.sliceKeys, a.slices, b.slices, SliceKey);
    SectionReordered(c.upfKeys, a.upfs, b.upfs, UpfKey);
    SectionReordered(c.gnbKeys, a.gnbs, b.gnbs, GnbKey);
    SectionReordered(c.ueKeys, a.ues, b.ues, UeKey);
    SectionReordered(c.appKeys, a.apps, b.apps, AppKey);
    SectionReordered(c.flowKeys, a.flows, b.flows, FlowKey);
    assert SectionComplete(s[0], y[0]) && SectionComplete(s[1], y[1]) && SectionComplete(s[2], y[2]);
    assert SectionComplete(s[3], y[3]) && SectionComplete(s[4], y[4]) && SectionComplete(s[5], y[5]);
    forall i | 0 <= i < 6
      ensures SectionComplete(s[i], y[i])
    {
      assert i in {0, 1, 2, 3, 4, 5};
    }
  }

  lemma EntitiesReordered(c: Catalog, a: Design, b: Design)
    requires SameMembers(a, b) && EntitiesDeclared(c, a)
    ensures EntitiesDeclared(c, b)
  {
    forall i | 0 <= i < |b.gnbs| ensures GnbDeclared(c, b.gnbs[i]) {
      assert b.gnbs[i] in b.gnbs;
      var j :| 0 <= j < |a.gnbs| && a.gnbs[j] == b.gnbs[i];
    }
    forall i | 0 <= i < |b.ues| ensures UeDeclared(c, b.ues[i]) {
      assert b.ues[i] in b.ues;
      var j :| 0 <= j < |a.ues| && a.ues[j] == b.ues[i];
    }
    forall i | 0 <= i < |b.apps| ensures b.apps[i].ueKey in c.ueKeys {
      assert b.apps[i] in b.apps;
      var j :| 0 <= j < |a.apps| && a.apps[j] == b.apps[i];
    }
  }

  lemma FlowReordered(c: Catalog, a: Design, b: Design, f: Flow)
    requires SameMaps(a, b) && FlowDeclared(c, a, f)
    ensures FlowDeclared(c, b, f)
  {
  }

  lemma DeclaredReordered(c: Catalog, a: Design, b: Design)
    requires SameMaps(a, b) && SameMembers(a, b)
    ensures EntitiesDeclared(c, a) ==> EntitiesDeclared(c, b)
    ensures FlowsDeclared(c, a) ==> FlowsDeclared(c, b)
  {
    if EntitiesDeclared(c, a) {
      EntitiesReordered(c, a, b);
    }
    if FlowsDeclared(c, a) {
      forall i | 0 <= i < |b.flows| ensures FlowDeclared(c, b, b.flows[i]) {
        assert b.flows[i] in b.flows;
        var j :| 0 <= j < |a.flows| && a.flows[j] == b.flows[i];
        FlowReordered(c, a, b, a.flows[j]);
      }
    }
  }

  lemma UsedReordered(a: Design, b: Design)
    requires SameMembers(a, b)
    ensures AppsUsed(a) ==> AppsUsed(b)
    ensures UesUsed(a) ==> UesUsed(b)
  {
    if AppsUsed(a) {
      forall i | 0 <= i < |b.apps| ensures AppUsed(b.flows, b.apps[i].key) {
        assert b.apps[i] in b.apps;
        var n :| 0 <= n < |a.apps| && a.apps[n] == b.apps[i];
        assert AppUsed(a.flows, a.apps[n].key);
        var f :| 0 <= f < |a.flows| && a.flows[f].appKey == a.apps[n].key;
        assert a.flows[f] in a.flows;
        var m :| 0 <= m < |b.flows| && b.flows[m] == a.flows[f];
      }
    }
    if UesUsed(a) {
      forall i | 0 <= i < |b.ues| ensures UeUsed(b.apps, b.ues[i].key) {
        assert b.ues[i] in b.ues;
        var n :| 0 <= n < |a.ues| && a.ues[n] == b.ues[i];
        assert UeUsed(a.apps, a.ues[n].key);
        var f :| 0 <= f < |a.apps| && a.apps[f].ueKey == a.ues[n].key;
        assert a.apps[f] in a.apps;
        var m :| 0 <= m < |b.apps| && b.apps[m] == a.apps[f];
      }
    }
  }

  /** Reordering the entity lists of a design changes neither its acceptance nor its candidate. */
  lemma OrderIrrelevant(c: Catalog, a: Design, b: Design)
    requires SameEntities(a, b)
    ensures Accepts(c, a) <==> Accepts(c, b)
    ensures Accepts(c, a) ==> CandidateOf(PlanOf(c, a)) == CandidateOf(PlanOf(c, b))
  {
    if Accepts(c, a) {
      SectionsReordered(c, a, b);
      DeclaredReordered(c, a, b);
      UsedReordered(a, b);
      assert PlanOf(c, a) == PlanOf(c, b);
    }
    if Accepts(c, b) {
      SectionsReordered(c, b, a);
      DeclaredReordered(c, b, a);
      UsedReordered(b, a);
    }
  }

  // ---- The plan reorders the design ----

  /** Two lists without repetitions and with the same members are arrangements of each other. */
  lemma SameBag<T>(a: seq<T>, b: seq<T>, key: T -> string)
    requires DistinctKeys(Keys(a, key)) && DistinctKeys(Keys(b, key))
    requires (forall x | x in a :: x in b) && (forall x | x in b :: x in a)
    ensures multiset(a) == multiset(b)
  {
    forall x: T
      ensures multiset(a)[x] == multiset(b)[x]
    {
      DistinctOnce(a, key, x);
      DistinctOnce(b, key, x);
      assert x in multiset(a) <==> x in a;
      assert x in multiset(b) <==> x in b;
    }
  }

  lemma ArrangedReorders<T>(keys: seq<string>, items: seq<T>, key: T -> string, xs: seq<T>)
    requires Arranged(keys, items, key, xs)
    ensures multiset(items) == multiset(xs)
  {
    forall x | x in items
      ensures x in xs
    {
      KeyFound(items, key, x);
      var i :| 0 <= i < |items| && items[i] == x;
      assert Keys(items, key)[i] == key(x);
      assert key(x) in keys;
      var j :| 0 <= j < |keys| && keys[j] == key(x);
      assert key(xs[j]) == Keys(xs, key)[j];
    }
    forall x | x in xs
      ensures x in items
    {
      var i :| 0 <= i < |xs| && xs[i] == x;
    }
    SameBag(items, xs, key);
  }

  lemma PlanReorders(c: Catalog, d: Design)
    requires Accepts(c, d)
    ensures SameEntities(d, PlanOf(c, d)) && KeysUnique(d)
  {
    var p := PlanOf(c, d);
    PlanArranged(c, d);
    ArrangedReorders(c.sliceKeys, d.slices, SliceKey, p.slices);
    ArrangedReorders(c.upfKeys, d.upfs, UpfKey, p.upfs);
    ArrangedReorders(c.gnbKeys, d.gnbs, GnbKey, p.gnbs);
    ArrangedReorders(c.ueKeys, d.ues, UeKey, p.ues);
    ArrangedReorders(c.appKeys, d.apps, AppKey, p.apps);
    ArrangedReorders(c.flowKeys, d.flows, FlowKey, p.flows);
  }

  // ---- Soundness does not depend on the order ----

  lemma Members<T>(a: seq<T>, b: seq<T>)
    requires multiset(a) == multiset(b)
    ensures forall x | x in b :: x in a
  {
    assert forall x :: x in a <==> x in multiset(a);
    assert forall x :: x in b <==> x in multiset(b);
  }

  /** What holds of each entity holds of each in the other order. */
  lemma EachReordered<T>(a: seq<T>, b: seq<T>, holds: T -> bool)
    requires multiset(a) == multiset(b) && forall i | 0 <= i < |a| :: holds(a[i])
    ensures forall i | 0 <= i < |b| :: holds(b[i])
  {
    Members(a, b);
    forall i | 0 <= i < |b|
      ensures holds(b[i])
    {
      assert b[i] in b;
      var j :| 0 <= j < |a| && a[j] == b[i];
    }
  }

  lemma DistinctReordered<T>(a: seq<T>, b: seq<T>, key: T -> string)
    requires multiset(a) == multiset(b) && DistinctKeys(Keys(a, key))
    ensures DistinctKeys(Keys(b, key))
  {
    Reordered(a, b, key);
  }

  lemma SlicesDifferByLabel(d: Design)
    ensures SlicesDiffer(d) <==> DistinctKeys(Keys(d.slices, LabelOf))
  {
    forall i, j | 0 <= i < j < |d.slices|
      ensures Keys(d.slices, LabelOf)[i] == Keys(d.slices, LabelOf)[j]
              <==> d.slices[i].sst == d.slices[j].sst && Lower(d.slices[i].sd) == Lower(d.slices[j].sd)
    {
      LabelInjective(d.slices[i], d.slices[j]);
    }
  }

  lemma SlicesDifferReordered(a: Design, b: Design)
    requires SameEntities(a, b) && SlicesDiffer(a)
    ensures SlicesDiffer(b)
  {
    SlicesDifferByLabel(a);
    SlicesDifferByLabel(b);
    DistinctReordered(a.slices, b.slices, LabelOf);
  }

  lemma NamesByStrip<T>(items: seq<T>, name: T -> string)
    ensures NamesOk(Keys(items, name)) <==> (forall i | 0 <= i < |items| :: Strip(name(items[i])) != "")
                                            && DistinctKeys(Keys(items, x => Strip(name(x))))
  {
    var names, stripped := Keys(items, name), Keys(items, x => Strip(name(x)));
    assert forall i | 0 <= i < |items| :: Strip(names[i]) == stripped[i];
  }

  lemma NamesReordered<T>(a: seq<T>, b: seq<T>, name: T -> string)
    requires multiset(a) == multiset(b) && NamesOk(Keys(a, name))
    ensures NamesOk(Keys(b, name))
  {
    NamesByStrip(a, name);
    NamesByStrip(b, name);
    EachReordered(a, b, x => Strip(name(x)) != "");
    DistinctReordered(a, b, x => Strip(name(x)));
  }

  /** A lookup by key finds the same gNB in either order. */
  lemma GnbOfReordered(a: Design, b: Design, k: string)
    requires multiset(a.gnbs) == multiset(b.gnbs) && DistinctKeys(Keys(a.gnbs, GnbKey))
    ensures GnbOf(a, k) == GnbOf(b, k)
  {
    Reordered(a.gnbs, b.gnbs, GnbKey);
    GnbOfMapped(a, k);
    GnbOfMapped(b, k);
  }

  lemma GnbOfMapped(d: Design, k: string)
    requires DistinctKeys(Keys(d.gnbs, GnbKey))
    ensures GnbOf(d, k) == if k in KeyMap(d.gnbs, GnbKey) then KeyMap(d.gnbs, GnbKey)[k] else NO_GNB
  {
    KeysMapped(d.gnbs, GnbKey, k);
    var i := At(Keys(d.gnbs, GnbKey), k);
    if i < |d.gnbs| {
      assert Keys(d.gnbs, GnbKey)[i] == k;
      KeyFound(d.gnbs, GnbKey, d.gnbs[i]);
    }
  }

  predicate PrefersTrimmed(gnbs: map<string, Gnb>, u: Ue) {
    forall k | k in u.preferred :: k in gnbs ==> Trimmed(gnbs[k].name)
  }

  lemma PreferredByMap(d: Design)
    requires DistinctKeys(Keys(d.gnbs, GnbKey))
    ensures PreferredTrimmed(d) <==> forall i | 0 <= i < |d.ues| :: PrefersTrimmed(KeyMap(d.gnbs, GnbKey), d.ues[i])
  {
    forall i, k | 0 <= i < |d.ues| && k in d.ues[i].preferred
      ensures Trimmed(GnbOf(d, k).name)
              <==> (k in KeyMap(d.gnbs, GnbKey) ==> Trimmed(KeyMap(d.gnbs, GnbKey)[k].name))
    {
      GnbOfMapped(d, k);
    }
  }

  lemma PreferredReordered(a: Design, b: Design)
    requires SameEntities(a, b) && KeysUnique(a) && PreferredTrimmed(a)
    ensures PreferredTrimmed(b)
  {
    Reordered(a.gnbs, b.gnbs, GnbKey);
    PreferredByMap(a);
    PreferredByMap(b);
    EachReordered(a.ues, b.ues, u => PrefersTrimmed(KeyMap(a.gnbs, GnbKey), u));
  }

  function GuaranteeDl(k: string): Flow -> real {
    (f: Flow) => if f.sliceKey == k then f.sla.guaranteedDl else 0.0
  }

  function GuaranteeUl(k: string): Flow -> real {
    (f: Flow) => if f.sliceKey == k then f.sla.guaranteedUl else 0.0
  }

  lemma {:induction false} PromisedIsTotal(flows: seq<Flow>, k: string)
    ensures Promised(flows, k) == (Total(flows, GuaranteeDl(k)), Total(flows, GuaranteeUl(k)))
  {
    if flows != [] {
      PromisedIsTotal(flows[..|flows| - 1], k);
    }
  }

  lemma PromisedReordered(a: seq<Flow>, b: seq<Flow>, k: string)
    requires multiset(a) == multiset(b)
    ensures Promised(a, k) == Promised(b, k)
  {
    PromisedIsTotal(a, k);
    PromisedIsTotal(b, k);
    TotalReordered(a, b, GuaranteeDl(k));
    TotalReordered(a, b, GuaranteeUl(k));
  }

  lemma CapacityReordered(a: Design, b: Design)
    requires SameEntities(a, b) && CapacitySound(a)
    ensures CapacitySound(b)
  {
    EachReordered(a.slices, b.slices, s => FitsPlan(a, s));
    forall i | 0 <= i < |b.slices|
      ensures FitsPlan(b, b.slices[i])
    {
      PromisedReordered(a.flows, b.flows, b.slices[i].key);
    }
  }

  lemma FlowsAndAppsReordered(a: Design, b: Design)
    requires SameEntities(a, b)
    ensures SlasSound(a) ==> SlasSound(b)
    ensures ApnsOk(a) ==> ApnsOk(b)
  {
    if SlasSound(a) {
      EachReordered(a.flows, b.flows, SlaSound);
    }
    if ApnsOk(a) {
      EachReordered(a.apps, b.apps, (x: App) => RStrip(x.apn) == Strip(x.apn));
    }
  }

  lemma SoundCarries(py: Python, a: Design, b: Design)
    requires SameEntities(a, b) && KeysUnique(a) && Sound(py, a)
    ensures Sound(py, b)
  {
    SlicesDifferReordered(a, b);
    NamesReordered(a.upfs, b.upfs, NameOfUpf);
    NamesReordered(a.gnbs, b.gnbs, NameOfGnb);
    NamesReordered(a.ues, b.ues, NameOfUe);
    PreferredReordered(a, b);
    CapacityReordered(a, b);
    FlowsAndAppsReordered(a, b);
  }

  lemma UniqueReordered(a: Design, b: Design)
    requires SameEntities(a, b) && KeysUnique(a)
    ensures KeysUnique(b)
  {
    DistinctReordered(a.slices, b.slices, SliceKey);
    DistinctReordered(a.upfs, b.upfs, UpfKey);
    DistinctReordered(a.gnbs, b.gnbs, GnbKey);
    DistinctReordered(a.ues, b.ues, UeKey);
    DistinctReordered(a.apps, b.apps, AppKey);
    DistinctReordered(a.flows, b.flows, FlowKey);
  }

  /** Soundness is a property of the entities, not of the order in which they are listed. */
  lemma SoundReordered(py: Python, a: Design, b: Design)
    requires SameEntities(a, b) && KeysUnique(a)
    ensures Sound(py, a) <==> Sound(py, b)
  {
    UniqueReordered(a, b);
    if Sound(py, a) {
      SoundCarries(py, a, b);
    }
    if Sound(py, b) {
      SoundCarries(py, b, a);
    }
  }
}
