/** Aggregating explicitly mapped buys by strategy stage. */
module PositionManagement {
  import opened Basics
  import opened FillReplay

  const MAX_MAPPED_FILLS := 32

  datatype Source = Source(fillId: string, revision: int)

  datatype StageFill = StageFill(stage: int, timeMs: int, price: real, units: real, sources: seq<Source>)

  datatype MappingError = IncompleteMapping | StaleRevisions | UnknownStage | NotContiguous | StageMismatch

  predicate IsLiveBuy(r: Revision) {
    !r.fact.voided && r.fact.action.Buy?
  }

  function LiveBuys(fills: seq<Entry>): seq<Revision> {
    if fills == [] then []
    else LiveBuys(fills[..|fills| - 1]) + (if IsLiveBuy(fills[|fills| - 1].row) then [fills[|fills| - 1].row] else [])
  }

  function Ids(rows: seq<Revision>): set<string> {
    set r | r in rows :: r.fillId
  }

  function Revisions(rows: seq<Revision>): map<string, int> {
    if rows == [] then map[] else Revisions(rows[..|rows| - 1])[rows[|rows| - 1].fillId := rows[|rows| - 1].revision]
  }

  // ---- one stage ----

  /** The rows mapped to a stage, in their order. */
  function RowsOf(rows: seq<Revision>, labels: seq<int>, stage: int): seq<Revision>
    requires |rows| == |labels|
  {
    if rows == [] then []
    else
      RowsOf(rows[..|rows| - 1], labels[..|rows| - 1], stage)
      + (if labels[|rows| - 1] == stage then [rows[|rows| - 1]] else [])
  }

  function Quantity(rows: seq<Revision>): real {
    if rows == [] then 0.0 else Quantity(rows[..|rows| - 1]) + rows[|rows| - 1].fact.quantity
  }

  function Cost(rows: seq<Revision>): real {
    if rows == [] then 0.0
    else Cost(rows[..|rows| - 1]) + rows[|rows| - 1].fact.quantity * rows[|rows| - 1].fact.price
  }

  function SourcesOf(rows: seq<Revision>): seq<Source> {
    if rows == [] then []
    else SourcesOf(rows[..|rows| - 1]) + [Source(rows[|rows| - 1].fillId, rows[|rows| - 1].revision)]
  }

  function Aggregate(rows: seq<Revision>, stage: int): StageFill
    requires rows != []
  {
    var units := Quantity(rows);
    StageFill(stage, rows[|rows| - 1].fact.timeMs, if units == 0.0 then 0.0 else Cost(rows) / units, units, SourcesOf(rows))
  }

  function Largest(labels: seq<int>): int
    requires labels != []
  {
    if |labels| == 1 then labels[0]
    else
      var m := Largest(labels[..|labels| - 1]);
      if m >= labels[|labels| - 1] then m else labels[|labels| - 1]
  }

  predicate InOrder(labels: seq<int>) {
    forall i, j :: 0 <= i < j < |labels| ==> labels[i] <= labels[j]
  }

  /** Stages advance from one without a gap. */
  predicate Contiguous(labels: seq<int>)
    requires labels != []
  {
    && InOrder(labels)
    && (forall x :: x in labels ==> 1 <= x <= Largest(labels))
    && (forall k :: 1 <= k <= Largest(labels) ==> k in labels)
  }

  /** The stages 1..k, one aggregate each. */
  function Stages(rows: seq<Revision>, labels: seq<int>, k: int): seq<StageFill>
    requires |rows| == |labels| && forall s :: 1 <= s <= k ==> s in labels
    decreases k
  {
    if k < 1 then []
    else
      StageHasRows(rows, labels, k);
      Stages(rows, labels, k - 1) + [Aggregate(RowsOf(rows, labels, k), k)]
  }

  lemma {:induction false} StageHasRows(rows: seq<Revision>, labels: seq<int>, stage: int)
    requires |rows| == |labels| && stage in labels
    ensures RowsOf(rows, labels, stage) != []
  {
    var n := |rows| - 1;
    if labels[n] != stage {
      assert labels == labels[..n] + [labels[n]];
      StageHasRows(rows[..n], labels[..n], stage);
    }
  }

  function LabelsOf(rows: seq<Revision>, stages: map<string, Option<int>>): Option<seq<int>> {
    if rows == [] then Some([])
    else
      var r := rows[|rows| - 1];
      match LabelsOf(rows[..|rows| - 1], stages)
      case None => None
      case Some(labels) =>
        if r.fillId in stages && stages[r.fillId].Some? then Some(labels + [stages[r.fillId].value]) else None
  }

  lemma {:induction false} LabelsFit(rows: seq<Revision>, stages: map<string, Option<int>>)
    ensures LabelsOf(rows, stages).Some? ==> |LabelsOf(rows, stages).value| == |rows|
  {
    if rows != [] { LabelsFit(rows[..|rows| - 1], stages); }
  }

  function ProjectRuleFills(fills: seq<Entry>, stages: map<string, Option<int>>, revisions: map<string, int>, current: Option<int>)
    : Result<seq<StageFill>, MappingError>
  {
    var buys := LiveBuys(fills);
    LabelsFit(buys, stages);
    if stages.Keys != Ids(buys) then Err(IncompleteMapping)
    else if revisions != Revisions(buys) then Err(StaleRevisions)
    else if buys == [] || LabelsOf(buys, stages).None? then Err(UnknownStage)
    else
      var labels := LabelsOf(buys, stages).value;
      if !Contiguous(labels) then Err(NotContiguous)
      else if current != Some(Largest(labels)) then Err(StageMismatch)
      else Ok(Stages(buys, labels, Largest(labels)))
  }

  /** The aggregation as its loop builds it, stage by stage. */
  method ProjectStages(rows: seq<Revision>, labels: seq<int>) returns (projected: seq<StageFill>)
    requires rows != [] && |rows| == |labels| && Contiguous(labels)
    ensures projected == Stages(rows, labels, Largest(labels))
  {
    projected := [];
    var last := Largest(labels);
    assert labels[0] in labels;
    for stage := 1 to last + 1
      invariant projected == Stages(rows, labels, stage - 1)
    {
      StageHasRows(rows, labels, stage);
      projected := projected + [Aggregate(RowsOf(rows, labels, stage), stage)];
    }
  }

  // ---- nothing is lost, nothing counted twice ----

  function UpTo(rows: seq<Revision>, labels: seq<int>, k: int): seq<Revision>
    requires |rows| == |labels|
  {
    if rows == [] then []
    else UpTo(rows[..|rows| - 1], labels[..|rows| - 1], k) + (if labels[|rows| - 1] <= k then [rows[|rows| - 1]] else [])
  }

  lemma {:induction false} NoneOf(rows: seq<Revision>, labels: seq<int>, stage: int)
    requires |rows| == |labels| && forall i :: 0 <= i < |labels| ==> labels[i] != stage
    ensures RowsOf(rows, labels, stage) == []
  {
    if rows != [] { NoneOf(rows[..|rows| - 1], labels[..|rows| - 1], stage); }
  }

  lemma {:induction false} StageFollows(rows: seq<Revision>, labels: seq<int>, k: int)
    requires |rows| == |labels| && InOrder(labels)
    ensures UpTo(rows, labels, k) == UpTo(rows, labels, k - 1) + RowsOf(rows, labels, k)
  {
    if rows != [] {
      var n := |rows| - 1;
      StageFollows(rows[..n], labels[..n], k);
      if labels[n] < k { NoneOf(rows[..n], labels[..n], k); }
    }
  }

  lemma {:induction false} AllUpTo(rows: seq<Revision>, labels: seq<int>, k: int)
    requires |rows| == |labels| && forall i :: 0 <= i < |labels| ==> labels[i] <= k
    ensures UpTo(rows, labels, k) == rows
  {
    if rows != [] { AllUpTo(rows[..|rows| - 1], labels[..|rows| - 1], k); }
  }

  lemma {:induction false} NoneUpTo(rows: seq<Revision>, labels: seq<int>, k: int)
    requires |rows| == |labels| && forall i :: 0 <= i < |labels| ==> labels[i] > k
    ensures UpTo(rows, labels, k) == []
  {
    if rows != [] { NoneUpTo(rows[..|rows| - 1], labels[..|rows| - 1], k); }
  }

  function AllSources(stages: seq<StageFill>): seq<Source> {
    if stages == [] then [] else AllSources(stages[..|stages| - 1]) + stages[|stages| - 1].sources
  }

  function TotalUnits(stages: seq<StageFill>): real {
    if stages == [] then 0.0 else TotalUnits(stages[..|stages| - 1]) + stages[|stages| - 1].units
  }

  function Worth(price: real, units: real): real { price * units }

  function TotalCost(stages: seq<StageFill>): real {
    if stages == [] then 0.0
    else TotalCost(stages[..|stages| - 1]) + Worth(stages[|stages| - 1].price, stages[|stages| - 1].units)
  }

  lemma {:induction false} SumsConcat(a: seq<Revision>, b: seq<Revision>)
    ensures Quantity(a + b) == Quantity(a) + Quantity(b) && Cost(a + b) == Cost(a) + Cost(b)
    ensures SourcesOf(a + b) == SourcesOf(a) + SourcesOf(b)
  {
    if b == [] {
      assert a + b == a;
    } else {
      var n := |b| - 1;
      SumsConcat(a, b[..n]);
      assert (a + b)[..|a + b| - 1] == a + b[..n];
    }
  }

  lemma {:induction false} QuantityPositive(rows: seq<Revision>)
    requires rows != [] && forall r :: r in rows ==> r.fact.quantity > 0.0
    ensures Quantity(rows) > 0.0
  {
    assert rows[|rows| - 1] in rows;
    if |rows| > 1 { QuantityPositive(rows[..|rows| - 1]); }
  }

  lemma {:induction false} RowsAreRows(rows: seq<Revision>, labels: seq<int>, stage: int)
    requires |rows| == |labels|
    ensures forall r :: r in RowsOf(rows, labels, stage) ==> r in rows
  {
    if rows != [] { RowsAreRows(rows[..|rows| - 1], labels[..|rows| - 1], stage); }
  }

  lemma AggregateConserves(rows: seq<Revision>, stage: int)
    requires rows != [] && forall r :: r in rows ==> r.fact.quantity > 0.0
    ensures var a := Aggregate(rows, stage); a.units == Quantity(rows) && Worth(a.price, a.units) == Cost(rows) && a.sources == SourcesOf(rows)
  {
    QuantityPositive(rows);
    QuotientTimes(Cost(rows), Quantity(rows));
  }

  lemma QuotientTimes(a: real, b: real)
    requires b != 0.0
    ensures Worth(a / b, b) == a
  {
  }

  lemma TotalsAppend(stages: seq<StageFill>, a: StageFill)
    ensures AllSources(stages + [a]) == AllSources(stages) + a.sources
    ensures TotalUnits(stages + [a]) == TotalUnits(stages) + a.units
    ensures TotalCost(stages + [a]) == TotalCost(stages) + Worth(a.price, a.units)
  {
    assert (stages + [a])[..|stages|] == stages;
  }

  /** The stages hold exactly these rows. */
  predicate Hold(stages: seq<StageFill>, rows: seq<Revision>) {
    AllSources(stages) == SourcesOf(rows) && TotalUnits(stages) == Quantity(rows) && TotalCost(stages) == Cost(rows)
  }

  lemma HoldMore(stages: seq<StageFill>, part: seq<Revision>, rows: seq<Revision>, stage: int)
    requires Hold(stages, part) && rows != [] && forall r :: r in rows ==> r.fact.quantity > 0.0
    ensures Hold(stages + [Aggregate(rows, stage)], part + rows)
  {
    AggregateConserves(rows, stage);
    TotalsAppend(stages, Aggregate(rows, stage));
    SumsConcat(part, rows);
  }

  /** The first k stages together hold exactly the rows up to stage k. */
  lemma {:induction false} StagesConserve(rows: seq<Revision>, labels: seq<int>, k: int)
    requires |rows| == |labels| && InOrder(labels) && 0 <= k && (forall s :: 1 <= s <= k ==> s in labels)
    requires (forall x :: x in labels ==> x >= 1) && (forall r :: r in rows ==> r.fact.quantity > 0.0)
    ensures Hold(Stages(rows, labels, k), UpTo(rows, labels, k))
    decreases k
  {
    if k == 0 {
      forall i | 0 <= i < |labels| ensures labels[i] > 0 { assert labels[i] in labels; }
      NoneUpTo(rows, labels, 0);
    } else {
      StagesConserve(rows, labels, k - 1);
      StageFollows(rows, labels, k);
      StageHasRows(rows, labels, k);
      RowsAreRows(rows, labels, k);
      HoldMore(Stages(rows, labels, k - 1), UpTo(rows, labels, k - 1), RowsOf(rows, labels, k), k);
    }
  }

  lemma {:induction false} LargestBounds(labels: seq<int>, i: nat)
    requires i < |labels|
    ensures labels[i] <= Largest(labels)
    decreases |labels|
  {
    if i < |labels| - 1 { LargestBounds(labels[..|labels| - 1], i); }
  }

  /** A projection by stage partitions the live buys in their order and conserves their units and cost. */
  lemma ProjectionPartitions(fills: seq<Entry>, stages: map<string, Option<int>>, revisions: map<string, int>, current: Option<int>)
    requires Positive(fills) && ProjectRuleFills(fills, stages, revisions, current).Ok?
    ensures Hold(ProjectRuleFills(fills, stages, revisions, current).value, LiveBuys(fills))
  {
    var buys := LiveBuys(fills);
    LabelsFit(buys, stages);
    var labels := LabelsOf(buys, stages).value;
    var k := Largest(labels);
    BuysArePositive(fills);
    assert labels[0] in labels;
    forall i | 0 <= i < |labels| ensures labels[i] <= k { LargestBounds(labels, i); }
    StagesConserve(buys, labels, k);
    AllUpTo(buys, labels, k);
  }

  lemma {:induction false} BuysArePositive(fills: seq<Entry>)
    requires Positive(fills)
    ensures forall r :: r in LiveBuys(fills) ==> r.fact.quantity > 0.0
  {
    if fills != [] {
      assert fills[|fills| - 1] in fills;
      BuysArePositive(fills[..|fills| - 1]);
    }
  }

  // ---- against the ledger's own totals ----

  predicate BuysOnly(fills: seq<Entry>) {
    forall e :: e in fills ==> e.row.fact.voided || e.row.fact.action.Buy?
  }

  /** The recorded quantity and average are these rows' units and cost. */
  predicate Totals(t: Tally, rows: seq<Revision>) {
    t.quantity == Quantity(rows) && Worth(t.average, t.quantity) == Cost(rows) && t.quantity >= 0.0
  }

  lemma BuyAdds(t: Tally, rows: seq<Revision>, row: Revision)
    requires Totals(t, rows) && IsLiveBuy(row) && row.fact.quantity > 0.0 && Play(t, row).Ok?
    ensures Totals(Play(t, row).value, rows + [row])
  {
    assert (rows + [row])[..|rows|] == rows;
    var f := row.fact;
    QuotientTimes(t.average * t.quantity + f.price * f.quantity, t.quantity + f.quantity);
    assert f.price * f.quantity == f.quantity * f.price;
  }

  /** For a position that only bought, the recorded quantity and average are the buys' units and cost. */
  lemma {:induction false} ReplayOfBuys(fills: seq<Entry>)
    requires Positive(fills) && BuysOnly(fills) && Replay(fills).Ok?
    ensures Totals(Replay(fills).value, LiveBuys(fills))
  {
    if fills != [] {
      var init, last := fills[..|fills| - 1], fills[|fills| - 1];
      assert last in fills;
      ReplayOfBuys(init);
      if last.row.fact.voided {
        assert LiveBuys(fills) == LiveBuys(init);
      } else {
        BuyAdds(Replay(init).value, LiveBuys(init), last.row);
      }
    }
  }

  /** The stages of a position that only bought add up to its recorded quantity and its average entry price. */
  lemma StagesMatchLedger(history: seq<Revision>, stages: map<string, Option<int>>, revisions: map<string, int>, current: Option<int>)
    requires Project(history).Ok? && forall r :: r in history ==> r.fact.quantity > 0.0
    requires var p := Project(history).value; BuysOnly(p.fills) && ProjectRuleFills(p.fills, stages, revisions, current).Ok?
    ensures var p := Project(history).value;
      var projected := ProjectRuleFills(p.fills, stages, revisions, current).value;
      TotalUnits(projected) == p.tally.quantity && TotalCost(projected) == Worth(p.tally.average, p.tally.quantity)
  {
    var p := Project(history).value;
    ProjectedPositive(history);
    ProjectionPartitions(p.fills, stages, revisions, current);
    ReplayOfBuys(p.fills);
  }

  lemma ProjectedPositive(history: seq<Revision>)
    requires Project(history).Ok? && forall r :: r in history ==> r.fact.quantity > 0.0
    ensures Positive(Project(history).value.fills)
  {
    LatestAreRevisions(history);
    SortConserves(Latest(history));
    var fills := Project(history).value.fills;
    forall e | e in fills ensures e.row.fact.quantity > 0.0 {
      assert e in multiset(fills);
      assert e in Latest(history);
    }
  }
}
