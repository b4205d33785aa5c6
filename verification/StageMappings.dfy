/** When a mapping of buys to strategy stages can be confirmed, said by the fills it maps. */
module StageMappings {
  import opened Basics
  import opened FillReplay
  import opened FillOrder
  import opened PositionManagement

  predicate IsBuy(e: Entry) {
    !e.row.fact.voided && e.row.fact.action.Buy?
  }

  function BuyIds(fills: seq<Entry>): set<string> {
    set e | e in fills && IsBuy(e) :: e.row.fillId
  }

  /** The stage a fill is mapped to, zero when it is not known. */
  function StageOf(stages: map<string, Option<int>>, e: Entry): int {
    if e.row.fillId in stages && stages[e.row.fillId].Some? then stages[e.row.fillId].value else 0
  }

  predicate NeverFalls(fills: seq<Entry>, stages: map<string, Option<int>>) {
    forall i, j :: 0 <= i < j < |fills| && IsBuy(fills[i]) && IsBuy(fills[j]) ==> StageOf(stages, fills[i]) <= StageOf(stages, fills[j])
  }

  predicate IsReached(fills: seq<Entry>, stages: map<string, Option<int>>, stage: int) {
    exists e :: e in fills && IsBuy(e) && StageOf(stages, e) == stage
  }

  /** In the order of execution the stages of the buys never fall, and they are exactly those from one to the last. */
  predicate Advances(fills: seq<Entry>, stages: map<string, Option<int>>, last: int) {
    && NeverFalls(fills, stages)
    && (forall e :: e in fills && IsBuy(e) ==> 1 <= StageOf(stages, e) <= last)
    && (forall k :: 1 <= k <= last ==> IsReached(fills, stages, k))
  }

  // ---- the buys of a timeline ----

  lemma {:induction false} BuysMean(fills: seq<Entry>)
    ensures forall r :: r in LiveBuys(fills) <==> exists e :: e in fills && IsBuy(e) && e.row == r
    ensures Ids(LiveBuys(fills)) == BuyIds(fills)
  {
    if fills != [] {
      var init, last := fills[..|fills| - 1], fills[|fills| - 1];
      assert fills == init + [last];
      BuysMean(init);
      forall r ensures r in LiveBuys(fills) <==> exists e :: e in fills && IsBuy(e) && e.row == r {
        if r == last.row && IsBuy(last) { assert last in fills; }
        if r in LiveBuys(init) {
          var e :| e in init && IsBuy(e) && e.row == r;
          assert e in fills;
        }
      }
      SameIds(fills);
    }
  }

  lemma SameIds(fills: seq<Entry>)
    requires forall r :: r in LiveBuys(fills) <==> exists e :: e in fills && IsBuy(e) && e.row == r
    ensures Ids(LiveBuys(fills)) == BuyIds(fills)
  {
    forall e | e in fills && IsBuy(e) ensures e.row.fillId in Ids(LiveBuys(fills)) { assert e.row in LiveBuys(fills); }
    forall r | r in LiveBuys(fills) ensures r.fillId in BuyIds(fills) { }
  }

  lemma {:induction false} BuysCount(fills: seq<Entry>)
    requires DistinctFills(fills)
    ensures |LiveBuys(fills)| == |BuyIds(fills)|
  {
    if fills != [] {
      BuysCount(fills[..|fills| - 1]);
      OneMoreBuy(fills[..|fills| - 1], fills[|fills| - 1]);
      assert fills == fills[..|fills| - 1] + [fills[|fills| - 1]];
      hide DistinctFills, BuyIds;
    }
  }

  lemma OneMoreBuy(init: seq<Entry>, last: Entry)
    requires DistinctFills(init + [last])
    ensures |BuyIds(init + [last])| == |BuyIds(init)| + if IsBuy(last) then 1 else 0
  {
    var all := init + [last];
    forall e | e in init ensures e.row.fillId != last.row.fillId {
      var i :| 0 <= i < |init| && init[i] == e;
      assert all[i] == e && all[|init|] == last;
    }
    assert BuyIds(all) == if IsBuy(last) then BuyIds(init) + {last.row.fillId} else BuyIds(init);
  }

  // ---- their labels ----

  predicate KnowsAll(rows: seq<Revision>, stages: map<string, Option<int>>) {
    forall r :: r in rows ==> r.fillId in stages && stages[r.fillId].Some?
  }

  lemma {:induction false} LabelsMean(rows: seq<Revision>, stages: map<string, Option<int>>)
    requires KnowsAll(rows, stages)
    ensures var labels := LabelsOf(rows, stages);
      labels.Some? && |labels.value| == |rows| && forall i :: 0 <= i < |rows| ==> labels.value[i] == stages[rows[i].fillId].value
  {
    if rows != [] {
      var init, last := rows[..|rows| - 1], rows[|rows| - 1];
      assert rows == init + [last];
      LabelsMean(init, stages);
    }
  }

  /** Contiguous labels up to the last are those that never fall and are exactly the stages from one. */
  lemma ContiguousMeans(labels: seq<int>, last: int)
    requires labels != []
    ensures Contiguous(labels) && Largest(labels) == last <==>
      InOrder(labels) && (forall x :: x in labels ==> 1 <= x <= last) && (forall k :: 1 <= k <= last ==> k in labels)
  {
    LargestIs(labels);
    assert labels[0] in labels;
    if (forall x :: x in labels ==> 1 <= x <= last) && (forall k :: 1 <= k <= last ==> k in labels) { assert last in labels; }
  }

  lemma {:induction false} LargestIs(labels: seq<int>)
    requires labels != []
    ensures Largest(labels) in labels && forall x :: x in labels ==> x <= Largest(labels)
  {
    if |labels| > 1 {
      assert labels == labels[..|labels| - 1] + [labels[|labels| - 1]];
      LargestIs(labels[..|labels| - 1]);
    }
  }

  lemma {:induction false} OrderMeans(fills: seq<Entry>, stages: map<string, Option<int>>)
    requires KnowsAll(LiveBuys(fills), stages)
    ensures LabelsOf(LiveBuys(fills), stages).Some? && (InOrder(LabelsOf(LiveBuys(fills), stages).value) <==> NeverFalls(fills, stages))
  {
    LabelsMean(LiveBuys(fills), stages);
    if fills != [] {
      var init, last := fills[..|fills| - 1], fills[|fills| - 1];
      assert fills == init + [last];
      assert KnowsAll(LiveBuys(init), stages);
      OrderMeans(init, stages);
      BuysMean(init);
      NeverFallsGrows(init, last, stages);
      hide NeverFalls, InOrder, KnowsAll;
      if !IsBuy(last) {
        assert LiveBuys(fills) == LiveBuys(init);
      } else {
        LabelsMean(LiveBuys(init), stages);
        assert LiveBuys(fills)[..|LiveBuys(fills)| - 1] == LiveBuys(init);
        InOrderGrows(LiveBuys(init), LabelsOf(LiveBuys(init), stages).value, init, StageOf(stages, last), stages);
      }
    }
  }

  lemma NeverFallsGrows(init: seq<Entry>, last: Entry, stages: map<string, Option<int>>)
    ensures NeverFalls(init + [last], stages) <==>
      NeverFalls(init, stages) && (IsBuy(last) ==> forall e :: e in init && IsBuy(e) ==> StageOf(stages, e) <= StageOf(stages, last))
  {
    var all := init + [last];
    if NeverFalls(all, stages) {
      forall i, j | 0 <= i < j < |init| && IsBuy(init[i]) && IsBuy(init[j]) ensures StageOf(stages, init[i]) <= StageOf(stages, init[j]) {
        assert all[i] == init[i] && all[j] == init[j];
      }
      forall e | IsBuy(last) && e in init && IsBuy(e) ensures StageOf(stages, e) <= StageOf(stages, last) {
        var i :| 0 <= i < |init| && init[i] == e;
        assert all[i] == e && all[|init|] == last;
      }
    }
  }

  lemma InOrderGrows(buys: seq<Revision>, labels: seq<int>, init: seq<Entry>, next: int, stages: map<string, Option<int>>)
    requires |labels| == |buys| && KnowsAll(buys, stages) && forall i :: 0 <= i < |buys| ==> labels[i] == stages[buys[i].fillId].value
    requires forall r :: r in buys <==> exists e :: e in init && IsBuy(e) && e.row == r
    ensures InOrder(labels + [next]) <==> InOrder(labels) && forall e :: e in init && IsBuy(e) ==> StageOf(stages, e) <= next
  {
    var all := labels + [next];
    if InOrder(all) {
      forall i, j | 0 <= i < j < |labels| ensures labels[i] <= labels[j] { assert all[i] <= all[j]; }
      forall e | e in init && IsBuy(e) ensures StageOf(stages, e) <= next {
        assert e.row in buys;
        var i :| 0 <= i < |buys| && buys[i] == e.row;
        assert all[i] <= all[|labels|];
      }
    }
    if forall e :: e in init && IsBuy(e) ==> StageOf(stages, e) <= next {
      forall i | 0 <= i < |labels| ensures labels[i] <= next { assert buys[i] in buys; }
    }
  }

  lemma ReachesMeans(fills: seq<Entry>, stages: map<string, Option<int>>, last: int)
    requires KnowsAll(LiveBuys(fills), stages)
    ensures var labels := LabelsOf(LiveBuys(fills), stages);
      && labels.Some?
      && (forall k :: k in labels.value <==> IsReached(fills, stages, k))
  {
    var buys := LiveBuys(fills);
    LabelsMean(buys, stages);
    BuysMean(fills);
    var labels := LabelsOf(buys, stages).value;
    forall k ensures k in labels <==> IsReached(fills, stages, k) {
      if k in labels {
        var i :| 0 <= i < |labels| && labels[i] == k;
        assert buys[i] in buys;
      }
      if e :| e in fills && IsBuy(e) && StageOf(stages, e) == k {
        assert e.row in buys;
        var i :| 0 <= i < |buys| && buys[i] == e.row;
        assert labels[i] == k;
      }
    }
  }

  lemma AdvancesMeans(fills: seq<Entry>, stages: map<string, Option<int>>, last: int)
    requires KnowsAll(LiveBuys(fills), stages) && LiveBuys(fills) != []
    ensures var labels := LabelsOf(LiveBuys(fills), stages);
      && labels.Some? && labels.value != []
      && (Contiguous(labels.value) && Largest(labels.value) == last <==> Advances(fills, stages, last))
  {
    hide LiveBuys, LabelsOf, Contiguous, Largest, InOrder, NeverFalls, KnowsAll, StageOf, IsBuy;
    LabelsMean(LiveBuys(fills), stages);
    OrderMeans(fills, stages);
    ReachesMeans(fills, stages, last);
    var labels := LabelsOf(LiveBuys(fills), stages).value;
    ContiguousMeans(labels, last);
    forall e | e in fills && IsBuy(e) ensures StageOf(stages, e) in labels { assert IsReached(fills, stages, StageOf(stages, e)); }
    forall x | x in labels ensures IsReached(fills, stages, x) { }
  }

  /** A complete mapping projects exactly when the stages advance along the timeline to the confirmed one. */
  lemma ProjectsMeans(fills: seq<Entry>, stages: map<string, Option<int>>, last: int)
    requires LiveBuys(fills) != [] && stages.Keys == BuyIds(fills) && forall y :: y in stages ==> stages[y].Some?
    ensures ProjectRuleFills(fills, stages, Revisions(LiveBuys(fills)), Some(last)).Ok? <==> Advances(fills, stages, last)
  {
    BuysMean(fills);
    forall r | r in LiveBuys(fills) ensures r.fillId in stages && stages[r.fillId].Some? { assert r.fillId in Ids(LiveBuys(fills)); }
    hide LiveBuys, LabelsOf, Contiguous, Largest, Advances, Stages, Ids, BuyIds, Revisions;
    AdvancesMeans(fills, stages, last);
  }
}
