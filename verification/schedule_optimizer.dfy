/** The allocation table: one row per allocation, numbered from 1, marked
    under-supplied below 100 litres, with the total underneath. */
module Schedule {
  import opened Common
  import Villager

  const UnderSupplyLimit := 100.0

  datatype AllocationRow = AllocationRow(houseNumber: nat, allocation: real, underSupplied: bool)

  /** The table rows and the total (`reduce` with start value 0). */
  datatype AllocationTable = AllocationTable(rows: seq<AllocationRow>, total: real)

  function RowsOf(allocations: seq<real>): (rows: seq<AllocationRow>)
    ensures |rows| == |allocations|
    ensures forall idx :: 0 <= idx < |rows| ==>
      rows[idx].houseNumber == idx + 1 && rows[idx].allocation == allocations[idx] &&
      (rows[idx].underSupplied <==> allocations[idx] < UnderSupplyLimit)
  {
    seq(|allocations|, idx requires 0 <= idx < |allocations| =>
      AllocationRow(idx + 1, allocations[idx], allocations[idx] < UnderSupplyLimit))
  }

  /** The component: nothing without a schedule or allocations, else the rows and the total. */
  function ScheduleTable(schedule: Option<ScheduleData>): (table: Option<AllocationTable>)
    ensures table.None? <==> schedule.None? || schedule.value.allocations.None?
    ensures table.Some? ==> table.value.rows == RowsOf(schedule.value.allocations.value)
    ensures table.Some? ==> table.value.total == Sum(schedule.value.allocations.value)
  {
    if schedule.None? || schedule.value.allocations.None? then None
    else
      var allocations := schedule.value.allocations.value;
      Some(AllocationTable(RowsOf(allocations), Sum(allocations)))
  }

  /** The total lies between the row count times the smallest and times the largest allocation. */
  lemma TotalWithin(allocations: seq<real>, lo: real, hi: real)
    requires forall i :: 0 <= i < |allocations| ==> lo <= allocations[i] <= hi
    ensures var table := ScheduleTable(Some(ScheduleData(Some(allocations)))).value;
      |table.rows| as real * lo <= table.total <= |table.rows| as real * hi
  {
    SumBounds(allocations, lo, hi);
  }

  /** The villager demo schedule: 50 rows and a displayed total between 4000 and 9000 litres. */
  lemma DemoScheduleTable(draws: seq<real>)
    requires |draws| == Villager.VillagerDrawCount && AllDraws(draws)
    ensures var table := ScheduleTable(Villager.DemoState(draws).schedule);
      table.Some? && |table.value.rows| == 50 &&
      4000.0 <= table.value.total <= 9000.0 &&
      4000.0 <= ToFixed(table.value.total, 2) <= 9000.0
  {
    var allocations := Villager.MockFrameOf(draws).schedule.allocations.value;
    SumBounds(allocations, 80.0, 180.0);
    ToFixedWithin(Sum(allocations), 2, 400000, 900000);
  }
}
