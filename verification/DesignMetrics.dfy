/** Every authored metric of an accepted design can be read back, unchanged, through the derived
    identifiers that the compiler reports. */
module DesignMetrics {
  import opened Strings
  import opened Documents
  import opened Validator
  import opened Design
  import opened DesignCompiler
  import opened DesignCompilation
  import opened CompilerCorrectness
  import opened DesignReordering
  import opened DesignProperties

  // ---- Reading by identifier ----

  /** The `n`-th entry, and no other, holds this text under `f`. */
  ghost predicate Identifies(items: seq<Json>, f: Field, id: string, n: nat) {
    n < |items| && forall i {:trigger items[i]} | 0 <= i < |items| :: Has(items[i], f, Text(id)) <==> i == n
  }

  ghost predicate ResourceCarried(r: SliceResource, j: Json) {
    && Has(j, CapacityDl, Real(r.capacityDl)) && Has(j, CapacityUl, Real(r.capacityUl))
    && Has(j, GuaranteedDl, Real(r.guaranteedDl)) && Has(j, GuaranteedUl, Real(r.guaranteedUl))
    && Has(j, Priority, Num(Int(r.priority)))
  }

  ghost predicate QosCarried(q: SliceQos, j: Json) {
    && Has(j, LatencyMs, Real(q.latency)) && Has(j, JitterMs, Real(q.jitter))
    && Has(j, LossRate, Real(q.lossRate)) && Has(j, ProcessingDelayMs, Real(q.processingDelay))
  }

  /** The compiled slice holds the authored resource and QoS values. */
  ghost predicate SliceCarried(s: Slice, j: Json) {
    ResourceCarried(s.resource, j.Get(Resource)) && QosCarried(s.qos, j.Get(Qos))
  }

  ghost predicate SlaCarried(s: Sla, j: Json) {
    && Has(j, LatencyMs, Real(s.latency)) && Has(j, JitterMs, Real(s.jitter)) && Has(j, LossRate, Real(s.lossRate))
    && Has(j, BandwidthDl, Real(s.bandwidthDl)) && Has(j, BandwidthUl, Real(s.bandwidthUl))
    && Has(j, GuaranteedBandwidthDl, Real(s.guaranteedDl)) && Has(j, GuaranteedBandwidthUl, Real(s.guaranteedUl))
    && Has(j, Priority, Num(Int(s.priority)))
  }

  ghost predicate TrafficCarried(t: Traffic, j: Json) {
    && Has(j, PacketSize, Real(t.packetSize)) && Has(j, ArrivalRate, Real(t.arrivalRate))
    && Has(j, DlPacketSize, Real(t.dlPacketSize)) && Has(j, UlPacketSize, Real(t.ulPacketSize))
    && Has(j, DlArrivalRate, Real(t.dlArrivalRate)) && Has(j, UlArrivalRate, Real(t.ulArrivalRate))
  }

  /** The compiled flow holds the authored traffic, 5QI, allocation and SLA values. */
  ghost predicate FlowCarried(f: Flow, j: Json) {
    && TrafficCarried(f.traffic, j) && Has(j, FiveQi, Num(Int(f.fiveQi)))
    && Has(j, AllocatedDl, Real(f.dlShare)) && Has(j, AllocatedUl, Real(f.ulShare))
    && SlaCarried(f.sla, j.Get(SlaTarget))
  }

  lemma SliceCarries(s: Slice)
    ensures SliceCarried(s, CompileSlice(s)) && Has(CompileSlice(s), Label, Text(LabelOf(s)))
  {
    assert CompileSlice(s).Get(Resource) == CompileResource(s.resource);
  }

  lemma FlowCarries(p: Design, i: nat)
    requires i < |p.flows|
    ensures FlowCarried(p.flows[i], CompileFlow(p, i)) && Has(CompileFlow(p, i), FlowId, Text(FlowIdAt(i)))
  {
    TrafficView(p, i);
    FlowViewed(p, i);
    SlaView(p.flows[i].sla, CompileSla(p.flows[i].sla));
    assert CompileFlow(p, i).Get(SlaTarget) == CompileSla(p.flows[i].sla);
  }

  // ---- The reported identifiers ----

  lemma {:induction false} LabelledAt<T>(items: seq<T>, key: T -> string, idOf: (nat, T) -> string, i: nat)
    requires i < |items| && DistinctKeys(Keys(items, key))
    ensures key(items[i]) in Labelled(items, key, idOf)
    ensures Labelled(items, key, idOf)[key(items[i])] == idOf(i, items[i])
  {
    var n := |items| - 1;
    if i < n {
      assert forall k | 0 <= k < n :: Keys(items[..n], key)[k] == Keys(items, key)[k];
      assert Keys(items, key)[i] != Keys(items, key)[n];
      LabelledAt(items[..n], key, idOf, i);
    }
  }

  lemma FlowIdReported(p: Design, i: nat)
    requires i < |p.flows| && DistinctKeys(Keys(p.flows, FlowKey))
    ensures p.flows[i].key in IdentifiersOf(p).flowIds && IdentifiersOf(p).flowIds[p.flows[i].key] == FlowIdAt(i)
  {
    LabelledAt(p.flows, FlowKey, (i: nat, x: Flow) => FlowIdAt(i), i);
  }

  lemma LabelReported(p: Design, i: nat)
    requires i < |p.slices| && DistinctKeys(Keys(p.slices, SliceKey))
    ensures p.slices[i].key in IdentifiersOf(p).sliceLabels && IdentifiersOf(p).sliceLabels[p.slices[i].key] == LabelOf(p.slices[i])
  {
    LabelledAt(p.slices, SliceKey, (i: nat, x: Slice) => LabelOf(x), i);
  }

  // ---- Flows ----

  lemma FlowIdentified(p: Design, flows: seq<Json>, n: nat)
    requires n < |p.flows| && |flows| == |p.flows| && forall i | 0 <= i < |flows| :: flows[i] == CompileFlow(p, i)
    ensures Identifies(flows, FlowId, FlowIdAt(n), n) && FlowCarried(p.flows[n], flows[n])
  {
    FlowCarries(p, n);
    forall i | 0 <= i < |flows|
      ensures Has(flows[i], FlowId, Text(FlowIdAt(n))) <==> i == n
    {
      FlowCarries(p, i);
      NumbersInjective(i, n);
    }
  }

  /** Where the entity of a declared key stands in the plan. */
  lemma PlanPosition<T>(keys: seq<string>, m: map<string, T>, key: T -> string, xs: seq<T>, k: string) returns (n: nat)
    requires (forall k | k in keys :: k in m) && xs == Ordered(keys, m) && k in keys
    requires forall k | k in m :: key(m[k]) == k
    ensures n < |xs| && xs[n] == m[k] && key(xs[n]) == k
  {
    n :| 0 <= n < |keys| && keys[n] == k;
  }

  /** The reported id of a flow key names exactly one compiled flow, which holds the values authored under
      that key. */
  ghost predicate FlowRecovered(ids: Identifiers, flows: seq<Json>, k: string, f: Flow) {
    k in ids.flowIds && exists n: nat :: Identifies(flows, FlowId, ids.flowIds[k], n) && FlowCarried(f, flows[n])
  }

  lemma PlanUnique(c: Catalog, d: Design)
    requires Accepts(c, d)
    ensures DistinctKeys(Keys(PlanOf(c, d).slices, SliceKey)) && DistinctKeys(Keys(PlanOf(c, d).flows, FlowKey))
  {
    PlanAccepted(c, d);
  }

  lemma FlowInPlan(p: Design, keys: seq<string>, m: map<string, Flow>, k: string)
    requires (forall k | k in keys :: k in m) && (forall k | k in m :: FlowKey(m[k]) == k)
    requires p.flows == Ordered(keys, m) && k in keys && DistinctKeys(Keys(p.flows, FlowKey))
    ensures FlowRecovered(IdentifiersOf(p), ItemsOf(ScenarioOf(p), Flows), k, m[k])
  {
    var n := PlanPosition(keys, m, FlowKey, p.flows, k);
    Sections(p);
    FlowIdentified(p, ItemsOf(ScenarioOf(p), Flows), n);
    FlowIdReported(p, n);
  }

  /** Every authored traffic, 5QI, allocation and SLA value of an accepted design is found, unchanged, under
      the id that the compiler reports for the flow. */
  lemma FlowMetricsRecovered(c: Catalog, d: Design, k: string)
    requires Accepts(c, d) && k in c.flowKeys
    ensures k in KeyMap(d.flows, FlowKey)
    ensures FlowRecovered(IdentifiersOf(PlanOf(c, d)), ItemsOf(CandidateOf(PlanOf(c, d)).scenario, Flows), k, KeyMap(d.flows, FlowKey)[k])
  {
    PlanLists(c, d);
    PlanUnique(c, d);
    FlowInPlan(PlanOf(c, d), c.flowKeys, KeyMap(d.flows, FlowKey), k);
  }

  // ---- Slices ----

  ghost predicate SliceRecovered(ids: Identifiers, slices: seq<Json>, k: string, s: Slice) {
    k in ids.sliceLabels && exists n: nat :: Identifies(slices, Label, ids.sliceLabels[k], n) && SliceCarried(s, slices[n])
  }

  lemma SliceIdentified(p: Design, n: nat)
    requires n < |p.slices| && SlicesDiffer(p)
    ensures Identifies(SliceItems(p), Label, LabelOf(p.slices[n]), n) && SliceCarried(p.slices[n], SliceItems(p)[n])
  {
    SliceCarries(p.slices[n]);
    forall i | 0 <= i < |p.slices|
      ensures Has(SliceItems(p)[i], Label, Text(LabelOf(p.slices[n]))) <==> i == n
    {
      SliceCarries(p.slices[i]);
      LabelInjective(p.slices[i], p.slices[n]);
    }
  }

  lemma SliceInPlan(p: Design, keys: seq<string>, m: map<string, Slice>, k: string)
    requires (forall k | k in keys :: k in m) && (forall k | k in m :: SliceKey(m[k]) == k)
    requires p.slices == Ordered(keys, m) && k in keys && DistinctKeys(Keys(p.slices, SliceKey)) && SlicesDiffer(p)
    ensures SliceRecovered(IdentifiersOf(p), ItemsOf(ScenarioOf(p), Slices), k, m[k])
  {
    var n := PlanPosition(keys, m, SliceKey, p.slices, k);
    Sections(p);
    SliceIdentified(p, n);
    LabelReported(p, n);
  }

  /** A label that two slices share names neither of them. */
  lemma SharedLabel(p: Design, i: nat, j: nat, m: Slice)
    requires i < j < |p.slices| && LabelOf(p.slices[i]) == LabelOf(p.slices[j]) && DistinctKeys(Keys(p.slices, SliceKey))
    ensures !SliceRecovered(IdentifiersOf(p), SliceItems(p), p.slices[i].key, m)
  {
    LabelReported(p, i);
    SliceCarries(p.slices[i]);
    SliceCarries(p.slices[j]);
    assert Has(SliceItems(p)[i], Label, Text(LabelOf(p.slices[i]))) && Has(SliceItems(p)[j], Label, Text(LabelOf(p.slices[i])));
  }

  lemma PlanRecovers(p: Design, keys: seq<string>, m: map<string, Slice>)
    requires (forall k | k in keys :: k in m) && (forall k | k in m :: SliceKey(m[k]) == k)
    requires p.slices == Ordered(keys, m) && DistinctKeys(Keys(p.slices, SliceKey))
    ensures (forall k | k in keys :: SliceRecovered(IdentifiersOf(p), ItemsOf(ScenarioOf(p), Slices), k, m[k])) <==> SlicesDiffer(p)
  {
    Sections(p);
    if SlicesDiffer(p) {
      forall k | k in keys
        ensures SliceRecovered(IdentifiersOf(p), ItemsOf(ScenarioOf(p), Slices), k, m[k])
      {
        SliceInPlan(p, keys, m, k);
      }
    } else {
      var i, j :| 0 <= i < j < |p.slices| && p.slices[i].sst == p.slices[j].sst && Lower(p.slices[i].sd) == Lower(p.slices[j].sd);
      LabelInjective(p.slices[i], p.slices[j]);
      assert keys[i] in keys && p.slices[i] == m[keys[i]];
      SharedLabel(p, i, j, m[keys[i]]);
    }
  }

  /** Every authored resource and QoS value of an accepted design is found, unchanged, under the label that the
      compiler reports for the slice, if and only if no two slices have the same sst and lower-case sd. */
  lemma SliceMetricsRecovered(c: Catalog, d: Design)
    requires Accepts(c, d)
    ensures forall k | k in c.sliceKeys :: k in KeyMap(d.slices, SliceKey)
    ensures (forall k | k in c.sliceKeys ::
               SliceRecovered(IdentifiersOf(PlanOf(c, d)), ItemsOf(CandidateOf(PlanOf(c, d)).scenario, Slices), k, KeyMap(d.slices, SliceKey)[k]))
            <==> SlicesDiffer(d)
  {
    PlanLists(c, d);
    PlanUnique(c, d);
    PlanReorders(c, d);
    var p := PlanOf(c, d);
    SlicesDifferByLabel(d);
    SlicesDifferByLabel(p);
    if SlicesDiffer(d) {
      SlicesDifferReordered(d, p);
    }
    if SlicesDiffer(p) {
      SlicesDifferReordered(p, d);
    }
    PlanRecovers(p, c.sliceKeys, KeyMap(d.slices, SliceKey));
  }
}
