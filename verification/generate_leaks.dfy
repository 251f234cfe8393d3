/** The scenario list of the leak generator: a normal run, a small morning and
    a big evening leak per node, and one two-leak combination; the defaults a
    leak takes when it is added to the network; and which scenarios reach the
    simulator. */
module LeakScenarios {
  import opened Common

  const DefaultNodes: seq<string> := ["C1H2", "C2H3", "C3H5"]
  /** Leak areas in square metres. */
  const SmallLeakArea := 0.00005
  const BigLeakArea := 0.0002
  const DischargeCoeff := 0.75
  /** Start and end of the morning and evening windows, in seconds. */
  const MorningStart := 6 * 3600
  const MorningEnd := 9 * 3600
  const EveningStart := 18 * 3600
  const EveningEnd := 21 * 3600

  /** A leak entry as a scenario lists it; a missing key is `None`. */
  datatype LeakSpec = LeakSpec(junction: string, area: Option<real>, dischargeCoeff: Option<real>, startTime: Option<int>, endTime: Option<int>)

  datatype Scenario = Scenario(name: string, leaks: seq<LeakSpec>)

  /** The arguments `node.add_leak` receives. */
  datatype Leak = Leak(junction: string, area: real, dischargeCoeff: real, startTime: Option<int>, endTime: Option<int>)

  function OrElse<T>(o: Option<T>, default: T): (v: T)
    ensures o.Some? ==> v == o.value
    ensures o.None? ==> v == default
  {
    if o.Some? then o.value else default
  }

  /** `leak.get(key, default)` for each key: the small area, coefficient 0.75, and no start or end time. */
  function ResolveLeak(spec: LeakSpec): (leak: Leak)
    ensures leak.junction == spec.junction
    ensures spec.area.None? ==> leak.area == SmallLeakArea
    ensures spec.dischargeCoeff.None? ==> leak.dischargeCoeff == DischargeCoeff
    ensures spec.startTime.None? ==> leak.startTime.None?
    ensures spec.endTime.None? ==> leak.endTime.None?
    ensures spec.area.Some? ==> leak.area == spec.area.value
    ensures spec.dischargeCoeff.Some? ==> leak.dischargeCoeff == spec.dischargeCoeff.value
    ensures leak.startTime == spec.startTime && leak.endTime == spec.endTime
  {
    Leak(spec.junction, OrElse(spec.area, SmallLeakArea), OrElse(spec.dischargeCoeff, DischargeCoeff), spec.startTime, spec.endTime)
  }

  function SmallMorning(node: string): LeakSpec {
    LeakSpec(node, Some(SmallLeakArea), Some(DischargeCoeff), Some(MorningStart), Some(MorningEnd))
  }

  function BigEvening(node: string): LeakSpec {
    LeakSpec(node, Some(BigLeakArea), Some(DischargeCoeff), Some(EveningStart), Some(EveningEnd))
  }

  /** A leak of the two-leak scenario: no `discharge_coeff` key. */
  function SmallMorningNoCoeff(node: string): LeakSpec {
    LeakSpec(node, Some(SmallLeakArea), None, Some(MorningStart), Some(MorningEnd))
  }

  /** The two scenarios appended for one node. */
  function NodeScenarios(node: string): seq<Scenario> {
    [Scenario(node + "_small_morning", [SmallMorning(node)]), Scenario(node + "_big_evening", [BigEvening(node)])]
  }

  function PerNodeScenarios(nodes: seq<string>): (s: seq<Scenario>)
    ensures |s| == 2 * |nodes|
  {
    if nodes == [] then [] else PerNodeScenarios(nodes[..|nodes| - 1]) + NodeScenarios(nodes[|nodes| - 1])
  }

  /** The list `build_default_scenarios` returns. */
  function DefaultScenariosOf(nodes: seq<string>): (scenarios: seq<Scenario>)
    ensures |scenarios| == 1 + 2 * |nodes| + (if |nodes| >= 2 then 1 else 0)
    ensures scenarios[0] == Scenario("normal", [])
  {
    [Scenario("normal", [])] + PerNodeScenarios(nodes) +
    (if |nodes| >= 2
     then [Scenario(nodes[0] + "_" + nodes[1] + "_two_small", [SmallMorningNoCoeff(nodes[0]), SmallMorningNoCoeff(nodes[1])])]
     else [])
  }

  /** `build_default_scenarios`: the appending loop over the nodes. */
  method BuildDefaultScenarios(nodes: seq<string>) returns (scenarios: seq<Scenario>)
    ensures scenarios == DefaultScenariosOf(nodes)
    ensures |scenarios| == 1 + 2 * |nodes| + (if |nodes| >= 2 then 1 else 0)
  {
    scenarios := [Scenario("normal", [])];
    for i := 0 to |nodes|
      invariant scenarios == [Scenario("normal", [])] + PerNodeScenarios(nodes[..i])
    {
      var n := nodes[i];
      scenarios := scenarios + [Scenario(n + "_small_morning", [SmallMorning(n)])];
      scenarios := scenarios + [Scenario(n + "_big_evening", [BigEvening(n)])];
      assert nodes[..i + 1][..i] == nodes[..i];
    }
    assert nodes[..|nodes|] == nodes;
    if |nodes| >= 2 {
      scenarios := scenarios + [Scenario(nodes[0] + "_" + nodes[1] + "_two_small", [SmallMorningNoCoeff(nodes[0]), SmallMorningNoCoeff(nodes[1])])];
    }
  }

  /** Node `i` contributes scenarios `2i` and `2i + 1` of the per-node part, in node order. */
  lemma {:induction false} PerNodeScenariosAt(nodes: seq<string>, i: nat)
    requires i < |nodes|
    ensures PerNodeScenarios(nodes)[2 * i] == Scenario(nodes[i] + "_small_morning", [SmallMorning(nodes[i])])
    ensures PerNodeScenarios(nodes)[2 * i + 1] == Scenario(nodes[i] + "_big_evening", [BigEvening(nodes[i])])
  {
    var front := nodes[..|nodes| - 1];
    if i < |nodes| - 1 {
      PerNodeScenariosAt(front, i);
      assert front[i] == nodes[i];
    }
  }

  /** The shape of the list: "normal" first with no leaks, two scenarios per node in node order, and the
      two-leak scenario last, present exactly when there are at least two nodes. */
  lemma DefaultScenariosShape(nodes: seq<string>)
    ensures var s := DefaultScenariosOf(nodes);
      |s| == 1 + 2 * |nodes| + (if |nodes| >= 2 then 1 else 0) &&
      s[0] == Scenario("normal", []) &&
      (forall i :: 0 <= i < |nodes| ==>
        s[1 + 2 * i] == Scenario(nodes[i] + "_small_morning", [SmallMorning(nodes[i])]) &&
        s[2 + 2 * i] == Scenario(nodes[i] + "_big_evening", [BigEvening(nodes[i])])) &&
      (|nodes| >= 2 ==> s[|s| - 1].leaks == [SmallMorningNoCoeff(nodes[0]), SmallMorningNoCoeff(nodes[1])])
  {
    var s := DefaultScenariosOf(nodes);
    forall i | 0 <= i < |nodes|
      ensures s[1 + 2 * i] == Scenario(nodes[i] + "_small_morning", [SmallMorning(nodes[i])])
      ensures s[2 + 2 * i] == Scenario(nodes[i] + "_big_evening", [BigEvening(nodes[i])])
    {
      PerNodeScenariosAt(nodes, i);
    }
  }

  /** Every leak of the default scenarios resolves to coefficient 0.75, a small or a big area, and a
      window that starts before it ends; the two-leak scenario's omitted coefficient resolves to the same
      leak as the node's small morning scenario. */
  lemma DefaultLeaksResolve(nodes: seq<string>)
    ensures forall sc, spec :: sc in DefaultScenariosOf(nodes) && spec in sc.leaks ==>
      var leak := ResolveLeak(spec);
      leak.dischargeCoeff == DischargeCoeff &&
      (leak.area == SmallLeakArea || leak.area == BigLeakArea) &&
      leak.startTime.Some? && leak.endTime.Some? && leak.startTime.value < leak.endTime.value
    ensures forall node :: ResolveLeak(SmallMorningNoCoeff(node)) == ResolveLeak(SmallMorning(node))
  {
    forall sc, spec | sc in DefaultScenariosOf(nodes) && spec in sc.leaks
      ensures ResolveLeak(spec).dischargeCoeff == DischargeCoeff
      ensures ResolveLeak(spec).area == SmallLeakArea || ResolveLeak(spec).area == BigLeakArea
      ensures ResolveLeak(spec).startTime.Some? && ResolveLeak(spec).endTime.Some?
      ensures ResolveLeak(spec).startTime.value < ResolveLeak(spec).endTime.value
    {
      SpecIsDefaultLeak(nodes, sc, spec);
    }
  }

  /** Each leak in the default list is one of the three leak shapes above. */
  lemma SpecIsDefaultLeak(nodes: seq<string>, sc: Scenario, spec: LeakSpec)
    requires sc in DefaultScenariosOf(nodes) && spec in sc.leaks
    ensures spec == SmallMorning(spec.junction) || spec == BigEvening(spec.junction) || spec == SmallMorningNoCoeff(spec.junction)
  {
    var k :| 0 <= k < |DefaultScenariosOf(nodes)| && DefaultScenariosOf(nodes)[k] == sc;
    if 1 <= k <= 2 * |nodes| {
      PerNodeLeaks(nodes, k - 1, spec);
    }
  }

  lemma {:induction false} PerNodeLeaks(nodes: seq<string>, k: nat, spec: LeakSpec)
    requires k < 2 * |nodes| && spec in PerNodeScenarios(nodes)[k].leaks
    ensures spec == SmallMorning(spec.junction) || spec == BigEvening(spec.junction)
  {
    PerNodeScenariosAt(nodes, k / 2);
    assert k == 2 * (k / 2) || k == 2 * (k / 2) + 1;
  }

  /** `args.nodes if args.nodes else DEFAULT_NODES`: an absent or empty `--nodes` list takes the defaults. */
  function SelectNodes(argNodes: Option<seq<string>>): (nodes: seq<string>)
    ensures argNodes.None? || argNodes.value == [] ==> nodes == DefaultNodes
    ensures argNodes.Some? && argNodes.value != [] ==> nodes == argNodes.value
    ensures nodes != []
  {
    if argNodes.Some? && argNodes.value != [] then argNodes.value else DefaultNodes
  }

  /** A run without `--nodes` builds eight scenarios: normal, six single leaks and the C1H2/C2H3 pair. */
  lemma DefaultRunScenarios()
    ensures var s := DefaultScenariosOf(SelectNodes(None));
      |s| == 8 && s[0].name == "normal" && s[1].name == "C1H2_small_morning" && s[6].name == "C3H5_big_evening" &&
      s[7].name == "C1H2_C2H3_two_small"
  {
    var nodes := DefaultNodes;
    DefaultScenariosShape(nodes);
    var s := DefaultScenariosOf(nodes);
    assert s[1] == Scenario(nodes[0] + "_small_morning", [SmallMorning(nodes[0])]);
    assert s[6] == Scenario(nodes[2] + "_big_evening", [BigEvening(nodes[2])]);
    assert s[7].name == nodes[0] + "_" + nodes[1] + "_two_small";
  }

  /** The network a scenario is loaded into: its node names, and the leaks added so far. */
  class LeakNetwork {
    const nodeNames: set<string>
    var leaks: seq<Leak>

    constructor (nodeNames: set<string>)
      ensures this.nodeNames == nodeNames && leaks == []
    {
      this.nodeNames := nodeNames;
      leaks := [];
    }

    /** `add_leaks_to_wn`: each leak in turn, with its defaults resolved. An unknown junction raises,
        leaving the leaks added before it in place. */
    method AddLeaks(specs: seq<LeakSpec>) returns (ok: bool)
      modifies this
      ensures ok <==> forall i :: 0 <= i < |specs| ==> specs[i].junction in nodeNames
      ensures ok ==> leaks == old(leaks) + seq(|specs|, i requires 0 <= i < |specs| => ResolveLeak(specs[i]))
      ensures !ok ==> exists k :: (0 <= k < |specs| && specs[k].junction !in nodeNames &&
        (forall i :: 0 <= i < k ==> specs[i].junction in nodeNames) &&
        leaks == old(leaks) + seq(k, i requires 0 <= i < k => ResolveLeak(specs[i])))
    {
      var added: seq<Leak> := [];
      for i := 0 to |specs|
        invariant |added| == i
        invariant forall j :: 0 <= j < i ==> specs[j].junction in nodeNames && added[j] == ResolveLeak(specs[j])
        invariant leaks == old(leaks) + added
      {
        if specs[i].junction !in nodeNames {
          assert added == seq(i, j requires 0 <= j < i => ResolveLeak(specs[j]));
          return false;
        }
        added := added + [ResolveLeak(specs[i])];
        leaks := leaks + [ResolveLeak(specs[i])];
      }
      assert added == seq(|specs|, i requires 0 <= i < |specs| => ResolveLeak(specs[i]));
      return true;
    }
  }

  /** A scenario reaches the simulator unless one of its leaks names a junction the network lacks. */
  predicate Simulated(sc: Scenario, nodeNames: set<string>)
    ensures Simulated(sc, nodeNames) <==> (set i | 0 <= i < |sc.leaks| :: sc.leaks[i].junction) <= nodeNames
  {
    forall i :: 0 <= i < |sc.leaks| ==> sc.leaks[i].junction in nodeNames
  }

  function SimulatedNames(scenarios: seq<Scenario>, nodeNames: set<string>): seq<string> {
    if scenarios == [] then []
    else
      var last := scenarios[|scenarios| - 1];
      SimulatedNames(scenarios[..|scenarios| - 1], nodeNames) + (if Simulated(last, nodeNames) then [last.name] else [])
  }

  /** The `main` loop: load a fresh network per scenario, add its leaks when it has any, skip it when
      that raises, and otherwise hand it to the simulator. Returns the names handed over, in order. */
  method RunScenarios(scenarios: seq<Scenario>, nodeNames: set<string>) returns (simulated: seq<string>)
    ensures simulated == SimulatedNames(scenarios, nodeNames)
  {
    simulated := [];
    for i := 0 to |scenarios|
      invariant simulated == SimulatedNames(scenarios[..i], nodeNames)
    {
      var wn := new LeakNetwork(nodeNames);
      var added := true;
      if scenarios[i].leaks != [] {
        added := wn.AddLeaks(scenarios[i].leaks);
      }
      assert scenarios[..i + 1][..i] == scenarios[..i];
      if added {
        simulated := simulated + [scenarios[i].name];
      }
    }
    assert scenarios[..|scenarios|] == scenarios;
  }

  /** "normal" is always simulated, and every default scenario is when all nodes exist in the network. */
  lemma {:induction false} NormalAlwaysSimulated(nodes: seq<string>, nodeNames: set<string>)
    ensures var names := SimulatedNames(DefaultScenariosOf(nodes), nodeNames);
      |names| > 0 && names[0] == "normal"
    ensures (forall n :: n in nodes ==> n in nodeNames) ==>
      |SimulatedNames(DefaultScenariosOf(nodes), nodeNames)| == |DefaultScenariosOf(nodes)|
  {
    var s := DefaultScenariosOf(nodes);
    SimulatedFirst(s, nodeNames);
    if forall n :: n in nodes ==> n in nodeNames {
      forall k | 0 <= k < |s|
        ensures Simulated(s[k], nodeNames)
      {
        forall i | 0 <= i < |s[k].leaks|
          ensures s[k].leaks[i].junction in nodeNames
        {
          JunctionsAreNodes(nodes, s[k], s[k].leaks[i]);
        }
      }
      AllSimulated(s, nodeNames);
    }
  }

  lemma {:induction false} SimulatedFirst(s: seq<Scenario>, nodeNames: set<string>)
    requires |s| >= 1 && Simulated(s[0], nodeNames)
    ensures |SimulatedNames(s, nodeNames)| > 0 && SimulatedNames(s, nodeNames)[0] == s[0].name
  {
    if |s| > 1 {
      SimulatedFirst(s[..|s| - 1], nodeNames);
    } else {
      assert s[..0] == [];
    }
  }

  lemma {:induction false} AllSimulated(s: seq<Scenario>, nodeNames: set<string>)
    requires forall k :: 0 <= k < |s| ==> Simulated(s[k], nodeNames)
    ensures |SimulatedNames(s, nodeNames)| == |s|
  {
    if s != [] {
      AllSimulated(s[..|s| - 1], nodeNames);
    }
  }

  lemma JunctionsAreNodes(nodes: seq<string>, sc: Scenario, spec: LeakSpec)
    requires sc in DefaultScenariosOf(nodes) && spec in sc.leaks
    ensures spec.junction in nodes
  {
    var k :| 0 <= k < |DefaultScenariosOf(nodes)| && DefaultScenariosOf(nodes)[k] == sc;
    if 1 <= k <= 2 * |nodes| {
      PerNodeScenariosAt(nodes, (k - 1) / 2);
      assert k - 1 == 2 * ((k - 1) / 2) || k - 1 == 2 * ((k - 1) / 2) + 1;
    }
  }
}
