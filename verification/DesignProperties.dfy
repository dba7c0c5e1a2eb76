/** What the compilation of an accepted design promises as a whole. */
module DesignProperties {
  import opened Strings
  import opened Documents
  import opened Validator
  import opened Design
  import opened DesignCompiler
  import opened DesignCompilation
  import opened CompilerCorrectness
  import opened ReferenceCorrectness
  import opened DesignReordering

  // ---- Exactly which accepted designs validate ----

  lemma PlanSchema(d: Design, p: Design)
    requires Schema(d) && (forall x | x in p.slices :: x in d.slices) && (forall x | x in p.flows :: x in d.flows)
    ensures Schema(p)
  {
    forall i | 0 <= i < |p.slices|
      ensures SliceSchema(p.slices[i])
    {
      assert p.slices[i] in p.slices;
      var j :| 0 <= j < |d.slices| && d.slices[j] == p.slices[i];
    }
    forall i | 0 <= i < |p.flows|
      ensures FlowSchema(p.flows[i])
    {
      assert p.flows[i] in p.flows;
      var j :| 0 <= j < |d.flows| && d.flows[j] == p.flows[i];
    }
  }

  /** An accepted design compiles to a candidate that the independent validator accepts, if and only if
      the design is sound. */
  lemma CompilerExact(py: Python, c: Catalog, d: Design)
    requires Accepts(c, d) && Schema(d)
    ensures CandidateOk(py, CandidateOf(PlanOf(c, d))) <==> Sound(py, d)
  {
    var p := PlanOf(c, d);
    PlanArranged(c, d);
    PlanAccepted(c, d);
    PlanSchema(d, p);
    CompiledIsValidExactly(py, p);
    PlanReorders(c, d);
    SoundReordered(py, d, p);
  }

  // ---- Nothing authored is lost ----

  /** Entities arranged in catalog order that are alike in place are alike by key. */
  lemma AlikeByKey<T(!new)>(keys: seq<string>, m: map<string, T>, n: map<string, T>, alike: (T, T) -> bool)
    requires forall k | k in keys :: k in m && k in n
    requires forall i | 0 <= i < |keys| :: alike(Ordered(keys, m)[i], Ordered(keys, n)[i])
    ensures forall k | k in keys :: alike(m[k], n[k])
  {
    forall k | k in keys
      ensures alike(m[k], n[k])
    {
      var i :| 0 <= i < |keys| && keys[i] == k;
      assert alike(Ordered(keys, m)[i], Ordered(keys, n)[i]);
    }
  }

  /** Two accepted designs that compile to the same candidate agree on every authored metric. */
  lemma MetricsKept(c: Catalog, a: Design, b: Design)
    requires Accepts(c, a) && Accepts(c, b)
    requires CandidateOf(PlanOf(c, a)) == CandidateOf(PlanOf(c, b))
    ensures forall k | k in c.sliceKeys ::
              && k in KeyMap(a.slices, SliceKey) && k in KeyMap(b.slices, SliceKey)
              && SameResources(KeyMap(a.slices, SliceKey)[k], KeyMap(b.slices, SliceKey)[k])
    ensures forall k | k in c.flowKeys ::
              && k in KeyMap(a.flows, FlowKey) && k in KeyMap(b.flows, FlowKey)
              && SameMetrics(KeyMap(a.flows, FlowKey)[k], KeyMap(b.flows, FlowKey)[k])
  {
    PlanLists(c, a);
    PlanLists(c, b);
    SlicesAlike(c.sliceKeys, KeyMap(a.slices, SliceKey), KeyMap(b.slices, SliceKey), PlanOf(c, a), PlanOf(c, b));
    FlowsAlike(c.flowKeys, KeyMap(a.flows, FlowKey), KeyMap(b.flows, FlowKey), PlanOf(c, a), PlanOf(c, b));
  }

  lemma PlanLists(c: Catalog, d: Design)
    requires Accepts(c, d)
    ensures forall k | k in c.sliceKeys :: k in KeyMap(d.slices, SliceKey)
    ensures forall k | k in c.flowKeys :: k in KeyMap(d.flows, FlowKey)
    ensures PlanOf(c, d).slices == Ordered(c.sliceKeys, KeyMap(d.slices, SliceKey))
    ensures PlanOf(c, d).flows == Ordered(c.flowKeys, KeyMap(d.flows, FlowKey))
  {
    SectionsCovered(c, d);
  }

  lemma SlicesAlike(keys: seq<string>, m: map<string, Slice>, n: map<string, Slice>, p: Design, q: Design)
    requires forall k | k in keys :: k in m && k in n
    requires p.slices == Ordered(keys, m) && q.slices == Ordered(keys, n) && CandidateOf(p) == CandidateOf(q)
    ensures forall k | k in keys :: SameResources(m[k], n[k])
  {
    SliceMetricsKept(p, q);
    AlikeByKey(keys, m, n, SameResources);
  }

  lemma FlowsAlike(keys: seq<string>, m: map<string, Flow>, n: map<string, Flow>, p: Design, q: Design)
    requires forall k | k in keys :: k in m && k in n
    requires p.flows == Ordered(keys, m) && q.flows == Ordered(keys, n) && CandidateOf(p) == CandidateOf(q)
    ensures forall k | k in keys :: SameMetrics(m[k], n[k])
  {
    FlowMetricsKept(p, q);
    AlikeByKey(keys, m, n, SameMetrics);
  }

  lemma SliceMetricsKept(p: Design, q: Design)
    requires CandidateOf(p) == CandidateOf(q)
    ensures |p.slices| == |q.slices| && forall i | 0 <= i < |p.slices| :: SameResources(p.slices[i], q.slices[i])
  {
    Sections(p);
    Sections(q);
    assert |SliceItems(p)| == |SliceItems(q)|;
    forall i | 0 <= i < |p.slices|
      ensures SameResources(p.slices[i], q.slices[i])
    {
      assert SliceItems(p)[i] == SliceItems(q)[i];
      SliceMetrics(p.slices[i], q.slices[i]);
    }
  }

  lemma FlowMetricsKept(p: Design, q: Design)
    requires CandidateOf(p) == CandidateOf(q)
    ensures |p.flows| == |q.flows| && forall i | 0 <= i < |p.flows| :: SameMetrics(p.flows[i], q.flows[i])
  {
    Sections(p);
    Sections(q);
    forall i | 0 <= i < |p.flows|
      ensures SameMetrics(p.flows[i], q.flows[i])
    {
      assert CompileFlow(p, i) == CompileFlow(q, i);
      FlowMetrics(p, q, i);
    }
  }

  ghost predicate SameResources(s: Slice, t: Slice) {
    s.resource == t.resource && s.qos == t.qos
  }

  ghost predicate SameMetrics(f: Flow, g: Flow) {
    f.traffic == g.traffic && f.sla == g.sla && f.dlShare == g.dlShare && f.ulShare == g.ulShare && f.fiveQi == g.fiveQi
  }

  lemma SliceMetrics(s: Slice, t: Slice)
    requires CompileSlice(s) == CompileSlice(t)
    ensures s.resource == t.resource && s.qos == t.qos
  {
    var x, y := CompileSlice(s).Get(Resource), CompileSlice(t).Get(Resource);
    assert x.Get(CapacityDl) == y.Get(CapacityDl) && x.Get(CapacityUl) == y.Get(CapacityUl);
    assert x.Get(GuaranteedDl) == y.Get(GuaranteedDl) && x.Get(GuaranteedUl) == y.Get(GuaranteedUl);
    assert x.Get(Priority) == y.Get(Priority);
    var u, v := CompileSlice(s).Get(Qos), CompileSlice(t).Get(Qos);
    assert u.Get(LatencyMs) == v.Get(LatencyMs) && u.Get(JitterMs) == v.Get(JitterMs);
    assert u.Get(LossRate) == v.Get(LossRate) && u.Get(ProcessingDelayMs) == v.Get(ProcessingDelayMs);
  }

  lemma SlaMetrics(s: Sla, t: Sla)
    requires CompileSla(s) == CompileSla(t)
    ensures s == t
  {
    var j := CompileSla(s);
    SlaView(s, j);
    SlaView(t, j);
  }

  lemma DirectionsView(p: Design, i: nat)
    requires i < |p.flows|
    ensures var t, j := p.flows[i].traffic, CompileFlow(p, i);
            && Has(j, DlPacketSize, Real(t.dlPacketSize)) && Has(j, UlPacketSize, Real(t.ulPacketSize))
            && Has(j, DlArrivalRate, Real(t.dlArrivalRate)) && Has(j, UlArrivalRate, Real(t.ulArrivalRate))
  {
  }

  lemma TrafficView(p: Design, i: nat)
    requires i < |p.flows|
    ensures var t, j := p.flows[i].traffic, CompileFlow(p, i);
            && Has(j, PacketSize, Real(t.packetSize)) && Has(j, ArrivalRate, Real(t.arrivalRate))
            && Has(j, DlPacketSize, Real(t.dlPacketSize)) && Has(j, UlPacketSize, Real(t.ulPacketSize))
            && Has(j, DlArrivalRate, Real(t.dlArrivalRate)) && Has(j, UlArrivalRate, Real(t.ulArrivalRate))
            && Has(j, FiveQi, Num(Int(p.flows[i].fiveQi)))
  {
    DirectionsView(p, i);
  }

  lemma FlowMetrics(p: Design, q: Design, i: nat)
    requires i < |p.flows| && i < |q.flows| && CompileFlow(p, i) == CompileFlow(q, i)
    ensures SameMetrics(p.flows[i], q.flows[i])
  {
    TrafficView(p, i);
    TrafficView(q, i);
    FlowViewed(p, i);
    FlowViewed(q, i);
    SlaMetrics(p.flows[i].sla, q.flows[i].sla);
  }

  // ---- Sessions ----

  lemma BestOfGroup(flows: seq<Flow>, appKey: string, sliceKey: string)
    requires OnSlice(FlowsOfApp(flows, appKey), sliceKey) != []
    ensures var best := Best(OnSlice(FlowsOfApp(flows, appKey), sliceKey));
            && best in flows && best.appKey == appKey && best.sliceKey == sliceKey
            && forall f | f in flows && f.appKey == appKey && f.sliceKey == sliceKey :: best.sla.priority <= f.sla.priority
  {
    var own := FlowsOfApp(flows, appKey);
    var best := Best(OnSlice(own, sliceKey));
    assert best in OnSlice(own, sliceKey) && best in own;
    forall f | f in flows && f.appKey == appKey && f.sliceKey == sliceKey
      ensures best.sla.priority <= f.sla.priority
    {
      var n :| 0 <= n < |flows| && flows[n] == f;
      OwnFlow(flows, n);
      var m :| 0 <= m < |own| && own[m] == f;
      GroupHas(own, m);
    }
  }

  lemma {:induction false} GroupHas(own: seq<Flow>, m: nat)
    requires m < |own|
    ensures own[m] in OnSlice(own, own[m].sliceKey)
  {
    var n := |own| - 1;
    if m < n {
      GroupHas(own[..n], m);
    }
  }

  lemma SessionQi(p: Design, app: App, sliceKey: string, best: Flow)
    ensures Has(CompileSession(p, app, sliceKey, best), FiveQi, Num(Int(best.fiveQi)))
  {
  }

  /** Every session of a compiled UE takes its 5QI from a flow of minimal priority value among the flows
      of its app on its slice. */
  lemma SessionTakesBestFlow(p: Design, ueKey: string, session: Json) returns (app: App, sliceKey: string, best: Flow)
    requires session in UeSessions(p, ueKey, |p.apps|)
    ensures app in p.apps && app.ueKey == ueKey && SessionView(p, app, sliceKey, session)
    ensures best in p.flows && best.appKey == app.key && best.sliceKey == sliceKey
    ensures Has(session, FiveQi, Num(Int(best.fiveQi)))
    ensures forall f | f in p.flows && f.appKey == app.key && f.sliceKey == sliceKey :: best.sla.priority <= f.sla.priority
  {
    SessionOrigin(p, ueKey, |p.apps|, session);
    var a :| 0 <= a < |p.apps| && p.apps[a].ueKey == ueKey && session in SessionsOfApp(p, a);
    app := p.apps[a];
    sliceKey, best := SessionBest(p, a, session);
  }

  lemma SessionBest(p: Design, a: nat, session: Json) returns (sliceKey: string, best: Flow)
    requires a < |p.apps| && session in SessionsOfApp(p, a)
    ensures SessionView(p, p.apps[a], sliceKey, session) && Has(session, FiveQi, Num(Int(best.fiveQi)))
    ensures best in p.flows && best.appKey == p.apps[a].key && best.sliceKey == sliceKey
    ensures forall f | f in p.flows && f.appKey == p.apps[a].key && f.sliceKey == sliceKey :: best.sla.priority <= f.sla.priority
  {
    var own := FlowsOfApp(p.flows, p.apps[a].key);
    var order, sessions := SliceOrder(own), SessionsOfApp(p, a);
    var i :| 0 <= i < |sessions| && sessions[i] == session;
    sliceKey := order[i];
    best := Best(OnSlice(own, sliceKey));
    BestOfGroup(p.flows, p.apps[a].key, sliceKey);
    SessionViewed(p, p.apps[a], sliceKey, best);
    SessionQi(p, p.apps[a], sliceKey, best);
  }
}
