/** The village network script: a tank feeding `num_clusters` cluster junctions
    by trunk pipes, each cluster feeding `houses_per_cluster` house junctions by
    branch pipes; the list of house pressure columns; the anomaly pass over the
    simulated flows and pressures; and the summary report lines. */
module Village {
  import opened Common
  import opened VillageNames

  const NumClusters := 10
  const HousesPerCluster := 5
  const HouseBaseDemand := 0.002
  const TrunkDiameter := 0.20
  const BranchDiameter := 0.10
  const BranchLength := 50.0
  const TankName := "Tank"
  const DailyPattern := "daily"
  const ClusterFlowRatio := 1.30
  const ClusterMinFlow := 0.0001
  const LowPressureThreshold := 10.0

  // ---------------------------------------------------------------- construction

  datatype Junction = Junction(name: string, baseDemand: real, pattern: Option<string>)
  datatype Pipe = Pipe(name: string, startNode: string, endNode: string, length: real, diameter: real)

  /** A step of the construction loops: house 0 of cluster `c` is the cluster junction itself. */
  datatype Slot = Slot(cluster: nat, house: nat)

  /** The junction added at a slot: the cluster with no demand, or a house with the base demand and the daily pattern. */
  function JunctionAt(s: Slot): Junction {
    if s.house == 0 then Junction(ClusterName(s.cluster), 0.0, None)
    else Junction(HouseName(s.cluster, s.house), HouseBaseDemand, Some(DailyPattern))
  }

  /** The pipe added at a slot: the trunk from the tank, of length `150 + 10c`, or the 50 m branch from the cluster. */
  function PipeAt(s: Slot): Pipe {
    if s.house == 0 then Pipe(TrunkPipeName(s.cluster), TankName, ClusterName(s.cluster), (150 + s.cluster * 10) as real, TrunkDiameter)
    else Pipe(BranchPipeName(s.cluster, s.house), ClusterName(s.cluster), HouseName(s.cluster, s.house), BranchLength, BranchDiameter)
  }

  /** The first `k` slots of cluster `c`. */
  function ClusterSlots(c: nat, k: nat): (ss: seq<Slot>)
    ensures |ss| == k && forall i :: 0 <= i < k ==> ss[i] == Slot(c, i)
  {
    seq(k, i requires 0 <= i < k => Slot(c, i))
  }

  /** The slots of clusters 1..n in loop order: cluster-major, the cluster before its houses. */
  function Slots(n: nat, housesPerCluster: nat): (ss: seq<Slot>)
    ensures |ss| == n * (housesPerCluster + 1)
  {
    if n == 0 then [] else Slots(n - 1, housesPerCluster) + ClusterSlots(n, housesPerCluster + 1)
  }

  /** Slots are exactly the clusters 1..n with houses 0..housesPerCluster. */
  lemma {:induction false} SlotsContent(n: nat, housesPerCluster: nat, s: Slot)
    ensures s in Slots(n, housesPerCluster) <==> 1 <= s.cluster <= n && s.house <= housesPerCluster
  {
    if n > 0 {
      SlotsContent(n - 1, housesPerCluster, s);
      if s.cluster == n && s.house <= housesPerCluster {
        assert ClusterSlots(n, housesPerCluster + 1)[s.house] == s;
      }
    }
  }

  predicate SlotBefore(s: Slot, t: Slot) {
    s.cluster < t.cluster || (s.cluster == t.cluster && s.house < t.house)
  }

  /** The slots come in strictly increasing (cluster, house) order. */
  lemma {:induction false} SlotsOrdered(n: nat, housesPerCluster: nat)
    ensures forall i, j :: 0 <= i < j < |Slots(n, housesPerCluster)| ==>
      SlotBefore(Slots(n, housesPerCluster)[i], Slots(n, housesPerCluster)[j])
  {
    if n > 0 {
      SlotsOrdered(n - 1, housesPerCluster);
      var front := Slots(n - 1, housesPerCluster);
      var ss := Slots(n, housesPerCluster);
      forall i, j | 0 <= i < j < |ss|
        ensures SlotBefore(ss[i], ss[j])
      {
        if j >= |front| && i < |front| {
          SlotsContent(n - 1, housesPerCluster, front[i]);
        }
      }
    }
  }

  /** Different slots give junctions and pipes with different names. */
  lemma SlotNamesInjective(s: Slot, t: Slot)
    requires s != t
    ensures JunctionAt(s).name != JunctionAt(t).name
    ensures PipeAt(s).name != PipeAt(t).name
  {
    if s.house == 0 && t.house == 0 {
      if ClusterName(s.cluster) == ClusterName(t.cluster) { ClusterNameInjective(s.cluster, t.cluster); }
      if TrunkPipeName(s.cluster) == TrunkPipeName(t.cluster) { TrunkPipeNameInjective(s.cluster, t.cluster); }
    } else if s.house != 0 && t.house != 0 {
      if HouseName(s.cluster, s.house) == HouseName(t.cluster, t.house) { HouseNameInjective(s.cluster, s.house, t.cluster, t.house); }
      if BranchPipeName(s.cluster, s.house) == BranchPipeName(t.cluster, t.house) { BranchPipeNameInjective(s.cluster, s.house, t.cluster, t.house); }
    } else if s.house == 0 {
      ClusterIsNotHouse(s.cluster, t.cluster, t.house);
      TrunkIsNotBranch(s.cluster, t.cluster, t.house);
    } else {
      ClusterIsNotHouse(t.cluster, s.cluster, s.house);
      TrunkIsNotBranch(t.cluster, s.cluster, s.house);
    }
  }

  /** The network model the script fills: its tanks, junctions and pipes in the order they are added. */
  class WaterNetwork {
    var tanks: seq<string>
    var junctions: seq<Junction>
    var pipes: seq<Pipe>

    constructor ()
      ensures tanks == [] && junctions == [] && pipes == []
    {
      tanks, junctions, pipes := [], [], [];
    }

    method AddTank(name: string)
      modifies this
      ensures tanks == old(tanks) + [name] && junctions == old(junctions) && pipes == old(pipes)
    {
      tanks := tanks + [name];
    }

    method AddJunction(j: Junction)
      modifies this
      ensures junctions == old(junctions) + [j] && tanks == old(tanks) && pipes == old(pipes)
    {
      junctions := junctions + [j];
    }

    method AddPipe(p: Pipe)
      modifies this
      ensures pipes == old(pipes) + [p] && tanks == old(tanks) && junctions == old(junctions)
    {
      pipes := pipes + [p];
    }
  }

  /** The network construction: the tank, then per cluster its junction and trunk pipe, then per house its
      junction and branch pipe. The i-th junction and the i-th pipe both belong to the i-th slot. */
  method BuildVillage(numClusters: nat, housesPerCluster: nat) returns (wn: WaterNetwork)
    ensures fresh(wn)
    ensures wn.tanks == [TankName]
    ensures |wn.junctions| == |wn.pipes| == |Slots(numClusters, housesPerCluster)|
    ensures forall i :: 0 <= i < |wn.junctions| ==>
      wn.junctions[i] == JunctionAt(Slots(numClusters, housesPerCluster)[i]) &&
      wn.pipes[i] == PipeAt(Slots(numClusters, housesPerCluster)[i])
  {
    wn := new WaterNetwork();
    wn.AddTank(TankName);
    ghost var added: seq<Slot> := [];
    for c := 1 to numClusters + 1
      invariant added == Slots(c - 1, housesPerCluster)
      invariant wn.tanks == [TankName]
      invariant |wn.junctions| == |wn.pipes| == |added|
      invariant forall i :: 0 <= i < |added| ==> wn.junctions[i] == JunctionAt(added[i]) && wn.pipes[i] == PipeAt(added[i])
    {
      ghost var before := added;
      wn.AddJunction(Junction(ClusterName(c), 0.0, None));
      wn.AddPipe(Pipe(TrunkPipeName(c), TankName, ClusterName(c), (150 + c * 10) as real, TrunkDiameter));
      added := added + [Slot(c, 0)];
      for h := 1 to housesPerCluster + 1
        invariant added == before + ClusterSlots(c, h)
        invariant wn.tanks == [TankName]
        invariant |wn.junctions| == |wn.pipes| == |added|
        invariant forall i :: 0 <= i < |added| ==> wn.junctions[i] == JunctionAt(added[i]) && wn.pipes[i] == PipeAt(added[i])
      {
        wn.AddJunction(Junction(HouseName(c, h), HouseBaseDemand, Some(DailyPattern)));
        wn.AddPipe(Pipe(BranchPipeName(c, h), ClusterName(c), HouseName(c, h), BranchLength, BranchDiameter));
        added := added + [Slot(c, h)];
        assert ClusterSlots(c, h + 1) == ClusterSlots(c, h) + [Slot(c, h)];
      }
    }
  }

  /** The junctions the construction adds, in order. */
  function VillageJunctions(numClusters: nat, housesPerCluster: nat): seq<Junction> {
    var ss := Slots(numClusters, housesPerCluster);
    seq(|ss|, i requires 0 <= i < |ss| => JunctionAt(ss[i]))
  }

  /** The pipes the construction adds, in order. */
  function VillagePipes(numClusters: nat, housesPerCluster: nat): seq<Pipe> {
    var ss := Slots(numClusters, housesPerCluster);
    seq(|ss|, i requires 0 <= i < |ss| => PipeAt(ss[i]))
  }

  /** Every junction and every pipe name is used once, so adding them never collides. */
  lemma VillageNamesDistinct(numClusters: nat, housesPerCluster: nat)
    ensures forall i, j :: 0 <= i < j < |VillageJunctions(numClusters, housesPerCluster)| ==>
      VillageJunctions(numClusters, housesPerCluster)[i].name != VillageJunctions(numClusters, housesPerCluster)[j].name
    ensures forall i, j :: 0 <= i < j < |VillagePipes(numClusters, housesPerCluster)| ==>
      VillagePipes(numClusters, housesPerCluster)[i].name != VillagePipes(numClusters, housesPerCluster)[j].name
  {
    var ss := Slots(numClusters, housesPerCluster);
    SlotsOrdered(numClusters, housesPerCluster);
    forall i, j | 0 <= i < j < |ss|
      ensures JunctionAt(ss[i]).name != JunctionAt(ss[j]).name && PipeAt(ss[i]).name != PipeAt(ss[j]).name
    {
      assert SlotBefore(ss[i], ss[j]);
      SlotNamesInjective(ss[i], ss[j]);
    }
  }

  /** House `C{c}H{h}` exists for every cluster 1..n and house 1..m, joined to `C{c}` by a 50 m pipe;
      cluster `C{c}` is joined to the tank by a pipe of length `150 + 10c`. */
  lemma VillageTopology(numClusters: nat, housesPerCluster: nat, c: nat, h: nat)
    requires 1 <= c <= numClusters && h <= housesPerCluster
    ensures h >= 1 ==>
      Junction(HouseName(c, h), HouseBaseDemand, Some(DailyPattern)) in VillageJunctions(numClusters, housesPerCluster) &&
      Pipe(BranchPipeName(c, h), ClusterName(c), HouseName(c, h), BranchLength, BranchDiameter) in VillagePipes(numClusters, housesPerCluster)
    ensures Pipe(TrunkPipeName(c), TankName, ClusterName(c), (150 + c * 10) as real, TrunkDiameter) in VillagePipes(numClusters, housesPerCluster)
  {
    var ss := Slots(numClusters, housesPerCluster);
    SlotsContent(numClusters, housesPerCluster, Slot(c, h));
    SlotsContent(numClusters, housesPerCluster, Slot(c, 0));
    var i :| 0 <= i < |ss| && ss[i] == Slot(c, h);
    var k :| 0 <= k < |ss| && ss[k] == Slot(c, 0);
    assert VillageJunctions(numClusters, housesPerCluster)[i] == JunctionAt(Slot(c, h));
    assert VillagePipes(numClusters, housesPerCluster)[i] == PipeAt(Slot(c, h));
    assert VillagePipes(numClusters, housesPerCluster)[k] == PipeAt(Slot(c, 0));
  }

  /** Nothing else is built: every junction is a cluster or one of its houses in range. */
  lemma VillageJunctionsOnly(numClusters: nat, housesPerCluster: nat, j: Junction)
    requires j in VillageJunctions(numClusters, housesPerCluster)
    ensures exists c: nat, h: nat :: 1 <= c <= numClusters && h <= housesPerCluster && j == JunctionAt(Slot(c, h))
  {
    var ss := Slots(numClusters, housesPerCluster);
    var i :| 0 <= i < |ss| && VillageJunctions(numClusters, housesPerCluster)[i] == j;
    SlotsContent(numClusters, housesPerCluster, ss[i]);
    assert j == JunctionAt(Slot(ss[i].cluster, ss[i].house));
  }

  /** With the configured 10 clusters of 5 houses: 60 junctions and 60 pipes. */
  lemma ConfiguredVillageSize()
    ensures |VillageJunctions(NumClusters, HousesPerCluster)| == 60
    ensures |VillagePipes(NumClusters, HousesPerCluster)| == 60
  {
  }

  // ---------------------------------------------------------------- house columns

  /** The house names of cluster `c` among its first `k` houses that are pressure columns, in house order. */
  function ClusterHouseCols(c: nat, k: nat, columns: set<string>): (cols: seq<string>)
    ensures |cols| <= k
    ensures forall i :: 0 <= i < |cols| ==> cols[i] in columns
  {
    if k == 0 then []
    else ClusterHouseCols(c, k - 1, columns) + (if HouseName(c, k) in columns then [HouseName(c, k)] else [])
  }

  /** `house_cols`: the house names of clusters 1..n, cluster-major then house, kept when they are pressure columns. */
  function HouseCols(n: nat, housesPerCluster: nat, columns: set<string>): (cols: seq<string>)
    ensures forall i :: 0 <= i < |cols| ==> cols[i] in columns
  {
    if n == 0 then []
    else HouseCols(n - 1, housesPerCluster, columns) + ClusterHouseCols(n, housesPerCluster, columns)
  }

  lemma {:induction false} ClusterHouseColsContent(c: nat, k: nat, columns: set<string>, x: string)
    ensures x in ClusterHouseCols(c, k, columns) <==> x in columns && exists h: nat :: 1 <= h <= k && x == HouseName(c, h)
  {
    if k > 0 {
      ClusterHouseColsContent(c, k - 1, columns, x);
    }
  }

  /** A name is a house column exactly when it is a pressure column naming a house of clusters 1..n. */
  lemma {:induction false} HouseColsContent(n: nat, housesPerCluster: nat, columns: set<string>, x: string)
    ensures x in HouseCols(n, housesPerCluster, columns) <==>
      x in columns && exists c: nat, h: nat :: 1 <= c <= n && 1 <= h <= housesPerCluster && x == HouseName(c, h)
  {
    if n > 0 {
      HouseColsContent(n - 1, housesPerCluster, columns, x);
      ClusterHouseColsContent(n, housesPerCluster, columns, x);
    }
  }

  lemma {:induction false} ClusterHouseColsAll(c: nat, k: nat, columns: set<string>)
    requires forall h: nat :: 1 <= h <= k ==> HouseName(c, h) in columns
    ensures ClusterHouseCols(c, k, columns) == seq(k, i requires 0 <= i < k => HouseName(c, i + 1))
  {
    if k > 0 {
      ClusterHouseColsAll(c, k - 1, columns);
    }
  }

  /** The place of house `h` of cluster `c` in the cluster-major order, when clusters have `m` houses. */
  function HouseIndex(c: nat, h: nat, housesPerCluster: nat): (i: nat)
    requires 1 <= c && 1 <= h <= housesPerCluster
    ensures (c - 1) * housesPerCluster <= i < c * housesPerCluster
  {
    MulMonotone(0, c - 1, housesPerCluster);
    (c - 1) * housesPerCluster + h - 1
  }

  lemma MulMonotone(a: nat, b: nat, m: nat)
    requires a <= b
    ensures a * m <= b * m
  {
  }

  /** When every house has a pressure column, `house_cols` has an entry for each of the `n * m` houses. */
  lemma {:induction false} HouseColsAll(n: nat, housesPerCluster: nat, columns: set<string>)
    requires forall c: nat, h: nat :: 1 <= c <= n && 1 <= h <= housesPerCluster ==> HouseName(c, h) in columns
    ensures |HouseCols(n, housesPerCluster, columns)| == n * housesPerCluster
  {
    if n > 0 {
      HouseColsAll(n - 1, housesPerCluster, columns);
      ClusterHouseColsAll(n, housesPerCluster, columns);
      var front := HouseCols(n - 1, housesPerCluster, columns);
      var block := ClusterHouseCols(n, housesPerCluster, columns);
      assert |block| == housesPerCluster;
      assert |front| == (n - 1) * housesPerCluster;
      assert (n - 1) * housesPerCluster + housesPerCluster == n * housesPerCluster;
      assert HouseCols(n, housesPerCluster, columns) == front + block;
    }
  }

  /** ... and lists them cluster-major: house `h` of cluster `c` sits at `(c - 1) * m + h - 1`. */
  lemma {:induction false} HouseColsAllAt(n: nat, housesPerCluster: nat, columns: set<string>, c: nat, h: nat)
    requires forall c: nat, h: nat :: 1 <= c <= n && 1 <= h <= housesPerCluster ==> HouseName(c, h) in columns
    requires 1 <= c <= n && 1 <= h <= housesPerCluster
    ensures HouseIndex(c, h, housesPerCluster) < |HouseCols(n, housesPerCluster, columns)|
    ensures HouseCols(n, housesPerCluster, columns)[HouseIndex(c, h, housesPerCluster)] == HouseName(c, h)
  {
    HouseColsAll(n - 1, housesPerCluster, columns);
    HouseColsAll(n, housesPerCluster, columns);
    ClusterHouseColsAll(n, housesPerCluster, columns);
    var front := HouseCols(n - 1, housesPerCluster, columns);
    var block := ClusterHouseCols(n, housesPerCluster, columns);
    assert HouseCols(n, housesPerCluster, columns) == front + block;
    if c < n {
      MulMonotone(c, n - 1, housesPerCluster);
      HouseColsAllAt(n - 1, housesPerCluster, columns, c, h);
    } else {
      assert HouseIndex(c, h, housesPerCluster) == |front| + (h - 1);
      assert block[h - 1] == HouseName(n, h);
    }
  }

  // ---------------------------------------------------------------- anomaly pass

  datatype AlertKind = HighClusterFlow | LowPressure

  /** One row of the alerts table: time, type, target and value. */
  datatype Alert = Alert(time: int, kind: AlertKind, target: string, value: real)

  function Max(a: real, b: real): real {
    if a >= b then a else b
  }

  /** `row.mean()`: the mean of the clusters' flows at one time. */
  function RowMean(row: seq<real>): real
    requires |row| > 0
  {
    Sum(row) / |row| as real
  }

  /** The flow a cluster must exceed: `max(min_flow, ratio * mean)` over the clusters' flows at that time. */
  function FlowLimit(row: seq<real>, ratio: real, minFlow: real): real
    requires |row| > 0
  {
    Max(minFlow, ratio * RowMean(row))
  }

  /** The flow alerts at time `t` among the first `k` clusters, in column order. */
  function FlowAlerts(t: int, clusterNames: seq<string>, row: seq<real>, ratio: real, minFlow: real, k: nat): (alerts: seq<Alert>)
    requires |clusterNames| == |row| && k <= |row|
    ensures |alerts| <= k
  {
    if k == 0 then []
    else
      FlowAlerts(t, clusterNames, row, ratio, minFlow, k - 1) +
      (if row[k - 1] > FlowLimit(row, ratio, minFlow) then [Alert(t, HighClusterFlow, clusterNames[k - 1], row[k - 1])] else [])
  }

  /** The low pressure alerts at time `t` among the first `k` house columns. */
  function PressureAlerts(t: int, houseCols: seq<string>, pressures: seq<real>, threshold: real, k: nat): (alerts: seq<Alert>)
    requires |houseCols| == |pressures| && k <= |pressures|
    ensures |alerts| <= k
  {
    if k == 0 then []
    else
      PressureAlerts(t, houseCols, pressures, threshold, k - 1) +
      (if pressures[k - 1] < threshold then [Alert(t, LowPressure, houseCols[k - 1], pressures[k - 1])] else [])
  }

  /** Every flow alert is stamped with its time, typed High Cluster Flow and carries a flow above the limit. */
  lemma {:induction false} FlowAlertsSound(t: int, clusterNames: seq<string>, row: seq<real>, ratio: real, minFlow: real, k: nat)
    requires |clusterNames| == |row| && k <= |row|
    ensures forall a :: a in FlowAlerts(t, clusterNames, row, ratio, minFlow, k) ==>
      a.time == t && a.kind == HighClusterFlow && a.value > FlowLimit(row, ratio, minFlow)
  {
    if k > 0 {
      FlowAlertsSound(t, clusterNames, row, ratio, minFlow, k - 1);
    }
  }

  /** Every pressure alert is stamped with its time, typed Low Pressure and carries a pressure below the threshold. */
  lemma {:induction false} PressureAlertsSound(t: int, houseCols: seq<string>, pressures: seq<real>, threshold: real, k: nat)
    requires |houseCols| == |pressures| && k <= |pressures|
    ensures forall a :: a in PressureAlerts(t, houseCols, pressures, threshold, k) ==>
      a.time == t && a.kind == LowPressure && a.value < threshold
  {
    if k > 0 {
      PressureAlertsSound(t, houseCols, pressures, threshold, k - 1);
    }
  }

  /** The simulation output the pass reads: per time, the trunk flow of each cluster and the pressure of each house column. */
  datatype Readings = Readings(times: seq<int>, clusterNames: seq<string>, flows: seq<seq<real>>, houseCols: seq<string>, pressures: seq<seq<real>>)

  predicate WellShaped(r: Readings) {
    |r.flows| == |r.times| && |r.pressures| == |r.times| &&
    (forall s :: 0 <= s < |r.times| ==> |r.flows[s]| == |r.clusterNames|) &&
    (forall s :: 0 <= s < |r.times| ==> |r.pressures[s]| == |r.houseCols|)
  }

  /** The flow alerts of time step `s`. */
  function StepFlowAlerts(r: Readings, ratio: real, minFlow: real, s: nat): seq<Alert>
    requires WellShaped(r) && s < |r.times|
  {
    FlowAlerts(r.times[s], r.clusterNames, r.flows[s], ratio, minFlow, |r.flows[s]|)
  }

  /** The pressure alerts of time step `s`: none without a threshold or without house columns. */
  function StepPressureAlerts(r: Readings, threshold: Option<real>, s: nat): seq<Alert>
    requires WellShaped(r) && s < |r.times|
  {
    if threshold.Some? && |r.houseCols| > 0
    then PressureAlerts(r.times[s], r.houseCols, r.pressures[s], threshold.value, |r.pressures[s]|)
    else []
  }

  /** The alerts of the first `n` time steps: per step, its flow alerts and then its pressure alerts. */
  function AlertsUpTo(r: Readings, threshold: Option<real>, ratio: real, minFlow: real, n: nat): (alerts: seq<Alert>)
    requires WellShaped(r) && n <= |r.times|
  {
    if n == 0 then []
    else AlertsUpTo(r, threshold, ratio, minFlow, n - 1) + (StepFlowAlerts(r, ratio, minFlow, n - 1) + StepPressureAlerts(r, threshold, n - 1))
  }

  /** One time's cluster check: each cluster in column order, flagged when above the limit. */
  method ClusterFlowCheck(t: int, clusterNames: seq<string>, row: seq<real>, ratio: real, minFlow: real) returns (alerts: seq<Alert>)
    requires |clusterNames| == |row|
    ensures alerts == FlowAlerts(t, clusterNames, row, ratio, minFlow, |row|)
  {
    alerts := [];
    if |row| == 0 {
      return;
    }
    var meanFlow := Sum(row) / |row| as real;
    var limit := Max(minFlow, ratio * meanFlow);
    for k := 0 to |row|
      invariant alerts == FlowAlerts(t, clusterNames, row, ratio, minFlow, k)
    {
      if row[k] > limit {
        alerts := alerts + [Alert(t, HighClusterFlow, clusterNames[k], row[k])];
      }
    }
  }

  /** One time's pressure check: each house column in order, flagged when below the threshold. */
  method LowPressureCheck(t: int, houseCols: seq<string>, pressures: seq<real>, threshold: real) returns (alerts: seq<Alert>)
    requires |houseCols| == |pressures|
    ensures alerts == PressureAlerts(t, houseCols, pressures, threshold, |pressures|)
  {
    alerts := [];
    for k := 0 to |pressures|
      invariant alerts == PressureAlerts(t, houseCols, pressures, threshold, k)
    {
      if pressures[k] < threshold {
        alerts := alerts + [Alert(t, LowPressure, houseCols[k], pressures[k])];
      }
    }
  }

  /** The anomaly pass: for each time, the cluster check, then the pressure check when a threshold is set and there are house columns. */
  method DetectAnomalies(r: Readings, threshold: Option<real>, ratio: real, minFlow: real) returns (alerts: seq<Alert>)
    requires WellShaped(r)
    ensures alerts == AlertsUpTo(r, threshold, ratio, minFlow, |r.times|)
  {
    alerts := [];
    for s := 0 to |r.times|
      invariant alerts == AlertsUpTo(r, threshold, ratio, minFlow, s)
    {
      var flowAlerts := ClusterFlowCheck(r.times[s], r.clusterNames, r.flows[s], ratio, minFlow);
      var pressureAlerts := [];
      if threshold.Some? && |r.houseCols| > 0 {
        pressureAlerts := LowPressureCheck(r.times[s], r.houseCols, r.pressures[s], threshold.value);
      }
      alerts := alerts + (flowAlerts + pressureAlerts);
    }
  }

  /** A cluster raises a flow alert exactly when its flow exceeds `max(min_flow, ratio * mean)`. */
  lemma {:induction false} FlowAlertIff(t: int, clusterNames: seq<string>, row: seq<real>, ratio: real, minFlow: real, k: nat, j: nat)
    requires |clusterNames| == |row| && j < k <= |row|
    ensures Alert(t, HighClusterFlow, clusterNames[j], row[j]) in FlowAlerts(t, clusterNames, row, ratio, minFlow, k)
      <==> row[j] > FlowLimit(row, ratio, minFlow)
  {
    FlowAlertsSound(t, clusterNames, row, ratio, minFlow, k);
    if j < k - 1 {
      FlowAlertIff(t, clusterNames, row, ratio, minFlow, k - 1, j);
    }
  }

  /** A house raises a low pressure alert exactly when its pressure is strictly below the threshold. */
  lemma {:induction false} PressureAlertIff(t: int, houseCols: seq<string>, pressures: seq<real>, threshold: real, k: nat, j: nat)
    requires |houseCols| == |pressures| && j < k <= |pressures|
    ensures Alert(t, LowPressure, houseCols[j], pressures[j]) in PressureAlerts(t, houseCols, pressures, threshold, k)
      <==> pressures[j] < threshold
  {
    PressureAlertsSound(t, houseCols, pressures, threshold, k);
    if j < k - 1 {
      PressureAlertIff(t, houseCols, pressures, threshold, k - 1, j);
    }
  }

  /** As many flow alerts as clusters only when every cluster is over the limit. */
  lemma {:induction false} FlowAlertsFull(t: int, clusterNames: seq<string>, row: seq<real>, ratio: real, minFlow: real, k: nat)
    requires |clusterNames| == |row| && k <= |row|
    requires |FlowAlerts(t, clusterNames, row, ratio, minFlow, k)| == k
    ensures forall j :: 0 <= j < k ==> row[j] > FlowLimit(row, ratio, minFlow)
  {
    if k > 0 {
      FlowAlertsFull(t, clusterNames, row, ratio, minFlow, k - 1);
    }
  }

  /** Every value above `m` makes the sum exceed `|s| * m`. */
  lemma {:induction false} SumAbove(s: seq<real>, m: real)
    requires |s| > 0 && forall i :: 0 <= i < |s| ==> s[i] > m
    ensures Sum(s) > |s| as real * m
  {
    if |s| > 1 {
      SumAbove(s[..|s| - 1], m);
    }
  }

  /** Some value of a non-empty row is at most its mean. */
  lemma SomeAtMostMean(row: seq<real>) returns (j: nat)
    requires |row| > 0
    ensures j < |row| && row[j] <= RowMean(row)
  {
    var n := |row| as real;
    var mean := RowMean(row);
    assert n * mean == Sum(row);
    if forall i :: 0 <= i < |row| ==> row[i] > mean {
      SumAbove(row, mean);
      assert false;
    }
    j :| 0 <= j < |row| && row[j] <= mean;
  }

  /** With `ratio >= 1` and `min_flow >= 0` the limit is never below the mean. */
  lemma LimitAtLeastMean(row: seq<real>, ratio: real, minFlow: real)
    requires |row| > 0 && ratio >= 1.0 && minFlow >= 0.0
    ensures FlowLimit(row, ratio, minFlow) >= RowMean(row)
  {
    var mean := RowMean(row);
    if mean >= 0.0 {
      assert ratio * mean - mean == (ratio - 1.0) * mean;
    }
  }

  /** With `ratio >= 1` and `min_flow >= 0`, at least one cluster is not flagged at a given time:
      not every flow can lie above the mean. */
  lemma NotEveryClusterFlagged(t: int, clusterNames: seq<string>, row: seq<real>, ratio: real, minFlow: real)
    requires |clusterNames| == |row| && |row| > 0 && ratio >= 1.0 && minFlow >= 0.0
    ensures |FlowAlerts(t, clusterNames, row, ratio, minFlow, |row|)| < |row|
  {
    if |FlowAlerts(t, clusterNames, row, ratio, minFlow, |row|)| == |row| {
      FlowAlertsFull(t, clusterNames, row, ratio, minFlow, |row|);
      var j := SomeAtMostMean(row);
      LimitAtLeastMean(row, ratio, minFlow);
      assert false;
    }
  }

  /** No threshold, or no house columns: every alert of a time step is a flow alert. */
  lemma NoPressureAlertsWithoutThreshold(r: Readings, threshold: Option<real>, ratio: real, minFlow: real, s: nat)
    requires WellShaped(r) && s < |r.times| && (threshold.None? || |r.houseCols| == 0)
    ensures forall a :: a in StepFlowAlerts(r, ratio, minFlow, s) + StepPressureAlerts(r, threshold, s) ==> a.kind == HighClusterFlow
  {
    FlowAlertsSound(r.times[s], r.clusterNames, r.flows[s], ratio, minFlow, |r.flows[s]|);
  }

  /** Alerts in time order, and within one time every flow alert before every pressure alert. */
  predicate TimeOrdered(alerts: seq<Alert>) {
    forall i, j :: 0 <= i < j < |alerts| ==>
      alerts[i].time <= alerts[j].time &&
      (alerts[i].time == alerts[j].time ==> !(alerts[i].kind == LowPressure && alerts[j].kind == HighClusterFlow))
  }

  predicate StrictlyIncreasing(times: seq<int>) {
    forall i, j :: 0 <= i < j < |times| ==> times[i] < times[j]
  }

  /** The alerts of step `s` all carry its time; its flow alerts are High Cluster Flow and its pressure alerts Low Pressure. */
  lemma StepAlertsSound(r: Readings, threshold: Option<real>, ratio: real, minFlow: real, s: nat)
    requires WellShaped(r) && s < |r.times|
    ensures forall a :: a in StepFlowAlerts(r, ratio, minFlow, s) ==> a.time == r.times[s] && a.kind == HighClusterFlow
    ensures forall a :: a in StepPressureAlerts(r, threshold, s) ==> a.time == r.times[s] && a.kind == LowPressure
  {
    FlowAlertsSound(r.times[s], r.clusterNames, r.flows[s], ratio, minFlow, |r.flows[s]|);
    if threshold.Some? && |r.houseCols| > 0 {
      PressureAlertsSound(r.times[s], r.houseCols, r.pressures[s], threshold.value, |r.pressures[s]|);
    }
  }

  /** With increasing times, no alert of the first `n` steps is later than step `n - 1`. */
  lemma {:induction false} AlertsNoLaterThan(r: Readings, threshold: Option<real>, ratio: real, minFlow: real, n: nat)
    requires WellShaped(r) && 0 < n <= |r.times| && StrictlyIncreasing(r.times)
    ensures forall i :: 0 <= i < |AlertsUpTo(r, threshold, ratio, minFlow, n)| ==>
      AlertsUpTo(r, threshold, ratio, minFlow, n)[i].time <= r.times[n - 1]
  {
    var front := AlertsUpTo(r, threshold, ratio, minFlow, n - 1);
    var step := StepFlowAlerts(r, ratio, minFlow, n - 1) + StepPressureAlerts(r, threshold, n - 1);
    if n > 1 {
      AlertsNoLaterThan(r, threshold, ratio, minFlow, n - 1);
    }
    StepAlertsSound(r, threshold, ratio, minFlow, n - 1);
    var all: seq<Alert> := front + step;
    forall i | 0 <= i < |all|
      ensures all[i].time <= r.times[n - 1]
    {
      if i < |front| {
        assert all[i] == front[i];
        assert front[i].time <= r.times[n - 2];
      } else {
        assert all[i] == step[i - |front|] && step[i - |front|] in step;
      }
    }
  }

  /** Within one step, every alert carries the step's time and flow alerts come before pressure alerts. */
  lemma StepOrdered(r: Readings, threshold: Option<real>, ratio: real, minFlow: real, s: nat)
    requires WellShaped(r) && s < |r.times|
    ensures TimeOrdered(StepFlowAlerts(r, ratio, minFlow, s) + StepPressureAlerts(r, threshold, s))
    ensures forall i :: 0 <= i < |StepFlowAlerts(r, ratio, minFlow, s) + StepPressureAlerts(r, threshold, s)| ==>
      (StepFlowAlerts(r, ratio, minFlow, s) + StepPressureAlerts(r, threshold, s))[i].time == r.times[s]
  {
    StepAlertsSound(r, threshold, ratio, minFlow, s);
    var flows := StepFlowAlerts(r, ratio, minFlow, s);
    var pressures := StepPressureAlerts(r, threshold, s);
    var step: seq<Alert> := flows + pressures;
    forall i | 0 <= i < |step|
      ensures step[i].time == r.times[s]
      ensures i < |flows| ==> step[i].kind == HighClusterFlow
      ensures i >= |flows| ==> step[i].kind == LowPressure
    {
      if i < |flows| {
        assert step[i] == flows[i] && flows[i] in flows;
      } else {
        assert step[i] == pressures[i - |flows|] && pressures[i - |flows|] in pressures;
      }
    }
  }

  /** Two time-ordered lists, the first entirely earlier than time `t` and the second entirely at `t`, stay ordered when joined. */
  lemma TimeOrderedAppend(front: seq<Alert>, step: seq<Alert>, t: int)
    requires TimeOrdered(front) && TimeOrdered(step)
    requires forall i :: 0 <= i < |front| ==> front[i].time < t
    requires forall j :: 0 <= j < |step| ==> step[j].time == t
    ensures TimeOrdered(front + step)
  {
    var all := front + step;
    forall i, j | 0 <= i < j < |all|
      ensures all[i].time <= all[j].time
      ensures all[i].time == all[j].time ==> !(all[i].kind == LowPressure && all[j].kind == HighClusterFlow)
    {
      if j < |front| {
        assert all[i] == front[i] && all[j] == front[j];
      } else if i < |front| {
        assert all[i] == front[i] && all[j] == step[j - |front|];
      } else {
        assert all[i] == step[i - |front|] && all[j] == step[j - |front|];
      }
    }
  }

  /** With strictly increasing times, the alert list is in time order with flows before pressures at each time. */
  lemma {:induction false} AlertsTimeOrdered(r: Readings, threshold: Option<real>, ratio: real, minFlow: real, n: nat)
    requires WellShaped(r) && n <= |r.times| && StrictlyIncreasing(r.times)
    ensures TimeOrdered(AlertsUpTo(r, threshold, ratio, minFlow, n))
  {
    if n > 0 {
      AlertsTimeOrdered(r, threshold, ratio, minFlow, n - 1);
      var front := AlertsUpTo(r, threshold, ratio, minFlow, n - 1);
      if n > 1 {
        AlertsNoLaterThan(r, threshold, ratio, minFlow, n - 1);
        assert r.times[n - 2] < r.times[n - 1];
      }
      StepOrdered(r, threshold, ratio, minFlow, n - 1);
      TimeOrderedAppend(front, StepFlowAlerts(r, ratio, minFlow, n - 1) + StepPressureAlerts(r, threshold, n - 1), r.times[n - 1]);
    }
  }

  function CountKind(alerts: seq<Alert>, kind: AlertKind): (n: nat)
    ensures n <= |alerts|
  {
    if alerts == [] then 0
    else CountKind(alerts[..|alerts| - 1], kind) + (if alerts[|alerts| - 1].kind == kind then 1 else 0)
  }

  /** Only two alert types exist, so their counts add up to the number of alerts. */
  lemma {:induction false} CountKindsPartition(alerts: seq<Alert>)
    ensures CountKind(alerts, HighClusterFlow) + CountKind(alerts, LowPressure) == |alerts|
  {
    if alerts != [] {
      CountKindsPartition(alerts[..|alerts| - 1]);
    }
  }

  // ---------------------------------------------------------------- summary report

  /** One line of the report; numbers are kept as values, their formatting is not modelled. */
  datatype ReportLine =
    | TitleLine
    | ClustersLine(clusters: nat)
    | HousesPerClusterLine(houses: nat)
    | TotalHousesLine(total: nat)
    | RatioLine(ratio: real, minFlow: real)
    | ThresholdLine(threshold: Option<real>)
    | NoAnomaliesLine
    | AnomalyCountLine(anomalies: nat, highFlow: nat, lowPressure: nat)
    | AlertLine(alert: Alert)
    | MoreLine(more: nat)

  const ReportHeadLimit := 10

  function ReportHeader(numClusters: nat, housesPerCluster: nat, ratio: real, minFlow: real, threshold: Option<real>): seq<ReportLine> {
    [TitleLine, ClustersLine(numClusters), HousesPerClusterLine(housesPerCluster), TotalHousesLine(numClusters * housesPerCluster),
     RatioLine(ratio, minFlow), ThresholdLine(threshold)]
  }

  /** One report line per alert, in order. */
  function AlertLines(alerts: seq<Alert>): (lines: seq<ReportLine>)
    ensures |lines| == |alerts| && forall i :: 0 <= i < |alerts| ==> lines[i] == AlertLine(alerts[i])
  {
    seq(|alerts|, i requires 0 <= i < |alerts| => AlertLine(alerts[i]))
  }

  /** The report lines: the header, then "0 (no alerts)", or the counts, the first ten alerts and a
      "... and N-10 more" line only when there are more than ten. */
  function ReportLines(numClusters: nat, housesPerCluster: nat, ratio: real, minFlow: real, threshold: Option<real>, alerts: seq<Alert>): (lines: seq<ReportLine>)
    ensures 7 <= |lines| <= 6 + 1 + ReportHeadLimit + 1
    ensures lines[..6] == ReportHeader(numClusters, housesPerCluster, ratio, minFlow, threshold)
  {
    ReportHeader(numClusters, housesPerCluster, ratio, minFlow, threshold) +
    if alerts == [] then [NoAnomaliesLine]
    else
      var shown := if |alerts| < ReportHeadLimit then |alerts| else ReportHeadLimit;
      [AnomalyCountLine(|alerts|, CountKind(alerts, HighClusterFlow), CountKind(alerts, LowPressure))] +
      AlertLines(alerts[..shown]) +
      (if |alerts| > ReportHeadLimit then [MoreLine(|alerts| - ReportHeadLimit)] else [])
  }

  /** The report starts with the six header lines. Without alerts it ends with the no-alerts line. With alerts it
      has the counts line, whose two counts add up to the total, then the first min(N, 10) alerts in order, and
      "... and N-10 more" last exactly when N > 10. */
  lemma ReportShape(numClusters: nat, housesPerCluster: nat, ratio: real, minFlow: real, threshold: Option<real>, alerts: seq<Alert>)
    ensures var lines := ReportLines(numClusters, housesPerCluster, ratio, minFlow, threshold, alerts);
      |lines| >= 7 && lines[..6] == ReportHeader(numClusters, housesPerCluster, ratio, minFlow, threshold) &&
      (alerts == [] ==> lines[6..] == [NoAnomaliesLine])
    ensures alerts != [] ==>
      var lines := ReportLines(numClusters, housesPerCluster, ratio, minFlow, threshold, alerts);
      var shown := if |alerts| < ReportHeadLimit then |alerts| else ReportHeadLimit;
      lines[6] == AnomalyCountLine(|alerts|, CountKind(alerts, HighClusterFlow), CountKind(alerts, LowPressure)) &&
      lines[6].highFlow + lines[6].lowPressure == |alerts| &&
      |lines| == 7 + shown + (if |alerts| > ReportHeadLimit then 1 else 0) &&
      (forall i :: 0 <= i < shown ==> lines[7 + i] == AlertLine(alerts[i])) &&
      (lines[|lines| - 1].MoreLine? <==> |alerts| > ReportHeadLimit) &&
      (|alerts| > ReportHeadLimit ==> lines[|lines| - 1] == MoreLine(|alerts| - ReportHeadLimit))
  {
    var lines := ReportLines(numClusters, housesPerCluster, ratio, minFlow, threshold, alerts);
    var header := ReportHeader(numClusters, housesPerCluster, ratio, minFlow, threshold);
    if alerts != [] {
      CountKindsPartition(alerts);
      var shown := if |alerts| < ReportHeadLimit then |alerts| else ReportHeadLimit;
      var body := AlertLines(alerts[..shown]);
      var tail := if |alerts| > ReportHeadLimit then [MoreLine(|alerts| - ReportHeadLimit)] else [];
      assert lines == header + [AnomalyCountLine(|alerts|, CountKind(alerts, HighClusterFlow), CountKind(alerts, LowPressure))] + body + tail;
      forall i | 0 <= i < shown
        ensures lines[7 + i] == AlertLine(alerts[i])
      {
        assert lines[7 + i] == body[i];
      }
      if |alerts| <= ReportHeadLimit {
        assert lines[|lines| - 1] == body[shown - 1];
      }
    }
  }

  /** The report is built by successive appends. */
  method SummaryReport(numClusters: nat, housesPerCluster: nat, ratio: real, minFlow: real, threshold: Option<real>, alerts: seq<Alert>)
    returns (lines: seq<ReportLine>)
    ensures lines == ReportLines(numClusters, housesPerCluster, ratio, minFlow, threshold, alerts)
  {
    lines := [];
    lines := lines + [TitleLine];
    lines := lines + [ClustersLine(numClusters)];
    lines := lines + [HousesPerClusterLine(housesPerCluster)];
    lines := lines + [TotalHousesLine(numClusters * housesPerCluster)];
    lines := lines + [RatioLine(ratio, minFlow)];
    lines := lines + [ThresholdLine(threshold)];
    ghost var header := ReportHeader(numClusters, housesPerCluster, ratio, minFlow, threshold);
    assert lines == header;
    if alerts == [] {
      lines := lines + [NoAnomaliesLine];
    } else {
      lines := lines + [AnomalyCountLine(|alerts|, CountKind(alerts, HighClusterFlow), CountKind(alerts, LowPressure))];
      var front := lines;
      var shown := if |alerts| < ReportHeadLimit then |alerts| else ReportHeadLimit;
      for i := 0 to shown
        invariant lines == front + AlertLines(alerts[..i])
      {
        assert alerts[..i + 1] == alerts[..i] + [alerts[i]];
        lines := lines + [AlertLine(alerts[i])];
      }
      assert lines == front + AlertLines(alerts[..shown]);
      if |alerts| > ReportHeadLimit {
        lines := lines + [MoreLine(|alerts| - ReportHeadLimit)];
      }
    }
  }
}
