/** A smallest design: one entity of each kind.  It is accepted whatever its scenario id and the name of its
    gNB, and its candidate validates or not, as the name goes. */
module DesignExamples {
  import opened Strings
  import opened Documents
  import opened Validator
  import opened Design
  import D = Design
  import opened DesignCompiler
  import opened CompilerCorrectness
  import opened DesignReordering
  import opened DesignProperties

  function OneEach(id: string): Catalog {
    Catalog(id, "o", "r", Counts(1, 1, 1, 1, 1, 1), ["s"], ["p"], ["g"], ["u"], ["a"], ["f"])
  }

  const A_SLICE := Slice("s", 1, "000001", SliceResource(10.0, 10.0, 1.0, 1.0, 1), SliceQos(1.0, 1.0, 0.0, 1.0), "r")
  const AN_UPF := Upf("p", "upf", "core", "internet", "r")
  const A_UE := Ue("u", "ue", "g", "g", ["g"], "r")
  const AN_APP := App("a", "app", "u", "internet", "IPv4", "r")
  const A_FLOW := Flow("f", "flow", "a", "s", 9, EMbb, Traffic(1.0, 1.0, 1.0, 1.0, 1.0, 1.0),
                       Sla.Sla(10.0, 1.0, 0.0, 2.0, 2.0, 1.0, 1.0, 1), 1.0, 1.0, false, "r")
  const A_RUNTIME := Runtime(map[ComposeFile := Text("c"), ConfigRoot := Text("r")], map[Ns3Root := Text("n")], map[], map[],
                             map[], map[], map[])

  function GnbNamed(name: string): Gnb {
    Gnb.Gnb("g", name, "g", 1, "1", ["s"], "p", "r")
  }

  function Smallest(id: string, gnbName: string): Design {
    D.Design.Design(Header(id, "n", "o", "r", 1, 0), [A_SLICE], [AN_UPF], [GnbNamed(gnbName)], [A_UE], [AN_APP], [A_FLOW], A_RUNTIME)
  }

  lemma OneKey<T>(x: T, key: T -> string)
    ensures Keys([x], key) == [key(x)] && KeyMap([x], key) == map[key(x) := x]
  {
    assert [x][..0] == [];
    assert KeyMap([], key) == map[];
  }

  lemma SmallestKeys(id: string, name: string)
    ensures var d := Smallest(id, name);
            && DesignSections(d) == [["s"], ["p"], ["g"], ["u"], ["a"], ["f"]]
            && KeyMap(d.gnbs, GnbKey) == map["g" := GnbNamed(name)]
            && KeyMap(d.ues, UeKey) == map["u" := A_UE] && KeyMap(d.apps, AppKey) == map["a" := AN_APP]
  {
    OneKey(A_SLICE, SliceKey);
    OneKey(AN_UPF, UpfKey);
    OneKey(GnbNamed(name), GnbKey);
    OneKey(A_UE, UeKey);
    OneKey(AN_APP, AppKey);
    OneKey(A_FLOW, FlowKey);
  }

  lemma SmallestComplete(id: string, name: string)
    ensures SectionsComplete(OneEach(id), Smallest(id, name))
  {
    SmallestKeys(id, name);
  }

  lemma Solo(k: string)
    requires Strip(k) != ""
    ensures CatalogSectionOk([k], 1)
  {
  }

  lemma OneLetter(c: char)
    requires !IsSpace(c)
    ensures Strip([c]) == [c]
  {
    StripFixes([c]);
  }

  lemma CatalogAccepted(id: string)
    ensures CatalogOk(OneEach(id))
  {
    OneLetter('s'); OneLetter('p'); OneLetter('g'); OneLetter('u'); OneLetter('a'); OneLetter('f');
    Solo("s"); Solo("p"); Solo("g"); Solo("u"); Solo("a"); Solo("f");
  }

  lemma SmallestAccepted(id: string, name: string)
    ensures Accepts(OneEach(id), Smallest(id, name))
  {
    var d := Smallest(id, name);
    CatalogAccepted(id);
    SmallestComplete(id, name);
    SmallestKeys(id, name);
    assert EntitiesDeclared(OneEach(id), d);
    assert FlowDeclared(OneEach(id), d, A_FLOW);
    assert d.flows[0].appKey == "a" && d.apps[0].ueKey == "u";
  }

  lemma SmallestSchema(id: string, name: string)
    ensures Schema(Smallest(id, name))
  {
    var d := Smallest(id, name);
    assert SliceSchema(A_SLICE) && FlowSchema(A_FLOW);
  }

  lemma OneName<T>(x: T, name: T -> string)
    ensures NamesOk(Keys([x], name)) <==> Strip(name(x)) != ""
  {
    assert Keys([x], name)[0] == name(x);
  }

  lemma RuntimeComplete(py: Python, id: string, name: string)
    ensures RuntimeOk(py, Smallest(id, name))
  {
    OneLetter('c'); OneLetter('r'); OneLetter('n');
  }

  lemma Roomy(id: string, name: string)
    ensures CapacitySound(Smallest(id, name)) && SlasSound(Smallest(id, name))
  {
    assert [A_FLOW][..0] == [];
    assert Promised([A_FLOW], "s") == (1.0, 1.0);
  }

  lemma Internet()
    ensures RStrip("internet") == Strip("internet")
  {
    StripAppend("i", "nternet");
    RStripAppend("i", "nternet");
    assert "i" + "nternet" == "internet";
  }

  lemma OtherNames()
    ensures Strip("upf") != "" && Strip("ue") != ""
  {
    StripFixes("upf");
    StripFixes("ue");
  }

  lemma Preferring(id: string, name: string)
    ensures PreferredTrimmed(Smallest(id, name)) <==> Trimmed(name)
  {
    var d := Smallest(id, name);
    assert Keys(d.gnbs, GnbKey) == ["g"];
    assert GnbOf(d, "g") == GnbNamed(name);
    assert d.ues[0].preferred == ["g"];
  }

  lemma SmallestSound(py: Python, id: string, name: string)
    ensures Sound(py, Smallest(id, name)) <==> name != "" && Trimmed(name)
  {
    var d := Smallest(id, name);
    RuntimeComplete(py, id, name);
    Roomy(id, name);
    Internet();
    OtherNames();
    Preferring(id, name);
    OneName(AN_UPF, NameOfUpf);
    OneName(GnbNamed(name), NameOfGnb);
    OneName(A_UE, NameOfUe);
    StripFixes(name);
  }

  /** The smallest design is accepted under every name of its gNB, and validates exactly under a nonempty
      trimmed one. */
  lemma SmallestValidExactly(py: Python, id: string, name: string)
    ensures Accepts(OneEach(id), Smallest(id, name)) && Schema(Smallest(id, name))
    ensures CandidateOk(py, CandidateOf(PlanOf(OneEach(id), Smallest(id, name)))) <==> name != "" && Trimmed(name)
  {
    SmallestAccepted(id, name);
    SmallestSchema(id, name);
    SmallestSound(py, id, name);
    CompilerExact(py, OneEach(id), Smallest(id, name));
  }

  lemma GnbTrimmed(name: string)
    requires name == "gnb"
    ensures name != "" && Trimmed(name)
  {
    assert name[0] == 'g' && name[2] == 'b';
  }

  /** An accepted design whose candidate validates. */
  lemma PlainNameValidates(py: Python, id: string, name: string)
    requires name == "gnb"
    ensures Accepts(OneEach(id), Smallest(id, name)) && CandidateOk(py, CandidateOf(PlanOf(OneEach(id), Smallest(id, name))))
  {
    GnbTrimmed(name);
    SmallestValidExactly(py, id, name);
  }

  /** The same design with one blank too many: still accepted, and its candidate does not validate. */
  lemma BlankSpoils(py: Python, id: string, name: string)
    requires name == "gnb "
    ensures Accepts(OneEach(id), Smallest(id, name)) && !CandidateOk(py, CandidateOf(PlanOf(OneEach(id), Smallest(id, name))))
  {
    SmallestValidExactly(py, id, name);
    assert name[3] == ' ';
  }
}
