/** Replaying the latest revisions of a position's fills by execution time.

  Quantities and prices are exact; products and quotients enter only the average.
 */
module FillReplay {
  import opened Basics

  datatype Action = Buy | Sell

  datatype Fact = Fact(
    action: Action,
    quantity: real,
    price: real,
    timeMs: int,
    stage: Option<int>,
    stopPrice: Option<real>,
    note: string,
    voided: bool)

  /** One revision of one fill, numbered in the order of submission. */
  datatype Revision = Revision(fillId: string, revision: int, sequence: int, fact: Fact)

  /** The latest revision of a fill and the sequence of its first. */
  datatype Entry = Entry(first: int, row: Revision)

  datatype ReplayError = SoldOut | Oversold

  datatype Tally = Tally(quantity: real, average: real, last: Option<Revision>)

  const EMPTY_TALLY := Tally(0.0, 0.0, None)

  // ---- the latest revisions, by time ----

  function Put(entries: seq<Entry>, row: Revision): seq<Entry> {
    if entries == [] then [Entry(row.sequence, row)]
    else if entries[0].row.fillId == row.fillId then [Entry(entries[0].first, row)] + entries[1..]
    else [entries[0]] + Put(entries[1..], row)
  }

  function Latest(history: seq<Revision>): seq<Entry> {
    if history == [] then [] else Put(Latest(history[..|history| - 1]), history[|history| - 1])
  }

  predicate Precedes(a: Entry, b: Entry) {
    a.row.fact.timeMs < b.row.fact.timeMs || (a.row.fact.timeMs == b.row.fact.timeMs && a.first < b.first)
  }

  function Insert(sorted: seq<Entry>, e: Entry): (r: seq<Entry>)
    ensures |r| == |sorted| + 1
  {
    if sorted == [] || !Precedes(e, sorted[|sorted| - 1]) then sorted + [e]
    else Insert(sorted[..|sorted| - 1], e) + [sorted[|sorted| - 1]]
  }

  function SortFills(entries: seq<Entry>): (r: seq<Entry>)
    ensures |r| == |entries|
  {
    if entries == [] then [] else Insert(SortFills(entries[..|entries| - 1]), entries[|entries| - 1])
  }

  // ---- the replay ----

  /** The average entry price after another buy. */
  function Average(average: real, quantity: real, price: real, units: real): real {
    if quantity + units == 0.0 then 0.0 else (average * quantity + price * units) / (quantity + units)
  }

  function Play(t: Tally, row: Revision): Result<Tally, ReplayError> {
    var f := row.fact;
    if f.voided then Ok(t)
    else if f.action.Buy? then
      if t.last.Some? && t.quantity == 0.0 then Err(SoldOut)
      else Ok(Tally(t.quantity + f.quantity, Average(t.average, t.quantity, f.price, f.quantity), Some(row)))
    else if f.quantity > t.quantity then Err(Oversold)
    else Ok(t.(quantity := t.quantity - f.quantity, last := Some(row)))
  }

  function Replay(fills: seq<Entry>): Result<Tally, ReplayError> {
    if fills == [] then Ok(EMPTY_TALLY)
    else
      var t :- Replay(fills[..|fills| - 1]);
      Play(t, fills[|fills| - 1].row)
  }

  datatype Projection = Projection(fills: seq<Entry>, tally: Tally)

  function Project(history: seq<Revision>): Result<Projection, ReplayError> {
    var fills := SortFills(Latest(history));
    var t :- Replay(fills);
    Ok(Projection(fills, t))
  }

  /** The projection as its loop runs over the sorted fills. */
  method ProjectInOrder(history: seq<Revision>) returns (r: Result<Projection, ReplayError>)
    ensures r == Project(history)
  {
    var fills := SortFills(Latest(history));
    var quantity, average := 0.0, 0.0;
    var last: Option<Revision> := None;
    for i := 0 to |fills|
      invariant Replay(fills[..i]) == Ok(Tally(quantity, average, last))
    {
      assert fills[..i + 1][..i] == fills[..i];
      var row := fills[i].row;
      if !row.fact.voided {
        var units, price := row.fact.quantity, row.fact.price;
        if row.fact.action.Buy? {
          if last.Some? && quantity == 0.0 {
            ReplayFails(fills, i + 1);
            return Err(SoldOut);
          }
          average := Average(average, quantity, price, units);
          quantity := quantity + units;
        } else {
          if units > quantity {
            ReplayFails(fills, i + 1);
            return Err(Oversold);
          }
          quantity := quantity - units;
        }
        last := Some(row);
      }
    }
    assert fills[..|fills|] == fills;
    return Ok(Projection(fills, Tally(quantity, average, last)));
  }

  lemma {:induction false} ReplayFails(fills: seq<Entry>, k: nat)
    requires k <= |fills| && Replay(fills[..k]).Err?
    ensures Replay(fills) == Replay(fills[..k])
    decreases |fills|
  {
    if k < |fills| {
      assert fills[..|fills| - 1][..k] == fills[..k];
      ReplayFails(fills[..|fills| - 1], k);
    } else {
      assert fills[..k] == fills;
    }
  }

  // ---- what a replay conserves ----

  function Signed(f: Fact): real {
    if f.voided then 0.0 else if f.action.Buy? then f.quantity else -f.quantity
  }

  /** Live buys less live sells. */
  function Net(fills: seq<Entry>): real {
    if fills == [] then 0.0 else Net(fills[..|fills| - 1]) + Signed(fills[|fills| - 1].row.fact)
  }

  predicate Positive(fills: seq<Entry>) {
    forall e :: e in fills ==> e.row.fact.quantity > 0.0
  }

  lemma {:induction false} ReplayConserves(fills: seq<Entry>)
    requires Replay(fills).Ok? && Positive(fills)
    ensures Replay(fills).value.quantity == Net(fills) >= 0.0
  {
    if fills != [] {
      assert fills[|fills| - 1] in fills;
      ReplayConserves(fills[..|fills| - 1]);
    }
  }

  lemma NetAppend(fills: seq<Entry>, e: Entry)
    ensures Net(fills + [e]) == Net(fills) + Signed(e.row.fact)
  {
    assert (fills + [e])[..|fills|] == fills;
  }

  lemma {:induction false} InsertConserves(sorted: seq<Entry>, e: Entry)
    ensures Net(Insert(sorted, e)) == Net(sorted) + Signed(e.row.fact)
    ensures multiset(Insert(sorted, e)) == multiset(sorted) + multiset{e}
  {
    if sorted == [] || !Precedes(e, sorted[|sorted| - 1]) {
      NetAppend(sorted, e);
    } else {
      var init, last := sorted[..|sorted| - 1], sorted[|sorted| - 1];
      InsertConserves(init, e);
      NetAppend(Insert(init, e), last);
      assert sorted == init + [last];
    }
  }

  lemma {:induction false} SortConserves(entries: seq<Entry>)
    ensures Net(SortFills(entries)) == Net(entries) && multiset(SortFills(entries)) == multiset(entries)
  {
    hide Insert;
    if entries != [] {
      SortConserves(entries[..|entries| - 1]);
      InsertConserves(SortFills(entries[..|entries| - 1]), entries[|entries| - 1]);
      assert entries == entries[..|entries| - 1] + [entries[|entries| - 1]];
    }
  }

  lemma {:induction false} PutKeepsMembers(entries: seq<Entry>, row: Revision)
    ensures forall e :: e in Put(entries, row) ==> e.row == row || exists d :: d in entries && d.row == e.row
  {
    if entries != [] && entries[0].row.fillId != row.fillId { PutKeepsMembers(entries[1..], row); }
  }

  lemma {:induction false} LatestAreRevisions(history: seq<Revision>)
    ensures forall e :: e in Latest(history) ==> e.row in history
  {
    if history != [] {
      LatestAreRevisions(history[..|history| - 1]);
      PutKeepsMembers(Latest(history[..|history| - 1]), history[|history| - 1]);
    }
  }

  /** A projected quantity is the live buys less the live sells, and never negative. */
  lemma ProjectionConserves(history: seq<Revision>)
    requires Project(history).Ok? && forall r :: r in history ==> r.fact.quantity > 0.0
    ensures Project(history).value.tally.quantity == Net(Latest(history)) >= 0.0
  {
    LatestAreRevisions(history);
    SortConserves(Latest(history));
    var fills := SortFills(Latest(history));
    forall e | e in fills ensures e.row.fact.quantity > 0.0 { assert e in multiset(fills); assert e in Latest(history); }
    ReplayConserves(fills);
  }

  // ---- only the order of the sequences matters ----

  predicate AlikeRow(a: Revision, b: Revision) {
    a.fillId == b.fillId && a.revision == b.revision && a.fact == b.fact
  }

  predicate Alike(a: seq<Entry>, b: seq<Entry>) {
    |a| == |b| && forall i :: 0 <= i < |a| ==> AlikeRow(a[i].row, b[i].row)
  }

  predicate AlikeHistory(a: seq<Revision>, b: seq<Revision>) {
    |a| == |b| && forall i :: 0 <= i < |a| ==> AlikeRow(a[i], b[i])
  }

  predicate Ascending(history: seq<Revision>) {
    forall i, j :: 0 <= i < j < |history| ==> history[i].sequence < history[j].sequence
  }

  predicate FirstsAscend(entries: seq<Entry>) {
    forall i, j :: 0 <= i < j < |entries| ==> entries[i].first < entries[j].first
  }

  predicate FirstsBelow(entries: seq<Entry>, bound: int) {
    forall e :: e in entries ==> e.first < bound
  }

  lemma {:induction false} PutAlike(a: seq<Entry>, b: seq<Entry>, x: Revision, y: Revision)
    requires Alike(a, b) && AlikeRow(x, y)
    ensures Alike(Put(a, x), Put(b, y))
  {
    if a != [] && a[0].row.fillId != x.fillId { PutAlike(a[1..], b[1..], x, y); }
  }

  predicate FirstsAbove(entries: seq<Entry>, bound: int) {
    forall e :: e in entries ==> bound < e.first
  }

  lemma {:induction false} PutStaysAbove(entries: seq<Entry>, row: Revision, bound: int)
    requires FirstsAbove(entries, bound) && bound < row.sequence
    ensures FirstsAbove(Put(entries, row), bound)
  {
    if entries != [] {
      assert entries[0] in entries;
      if entries[0].row.fillId != row.fillId { PutStaysAbove(entries[1..], row, bound); }
    }
  }

  lemma {:induction false} PutStaysBelow(entries: seq<Entry>, row: Revision, bound: int)
    requires FirstsBelow(entries, bound) && row.sequence < bound
    ensures FirstsBelow(Put(entries, row), bound)
  {
    if entries != [] {
      assert entries[0] in entries;
      if entries[0].row.fillId != row.fillId { PutStaysBelow(entries[1..], row, bound); }
    }
  }

  lemma {:induction false} PutAscends(entries: seq<Entry>, row: Revision)
    requires FirstsAscend(entries) && FirstsBelow(entries, row.sequence)
    ensures FirstsAscend(Put(entries, row))
  {
    if entries != [] && entries[0].row.fillId != row.fillId {
      var rest := entries[1..];
      assert entries[0] in entries;
      forall i | 0 <= i < |rest| ensures entries[0].first < rest[i].first { }
      PutAscends(rest, row);
      PutStaysAbove(rest, row, entries[0].first);
      ConsAscends(entries[0], Put(rest, row));
    }
  }

  lemma ConsAscends(e: Entry, rest: seq<Entry>)
    requires FirstsAscend(rest) && FirstsAbove(rest, e.first)
    ensures FirstsAscend([e] + rest)
  {
    forall i | 0 <= i < |rest| ensures e.first < rest[i].first { assert rest[i] in rest; }
  }

  lemma {:induction false} LatestAscends(history: seq<Revision>, bound: int)
    requires Ascending(history) && (history != [] ==> history[|history| - 1].sequence < bound)
    ensures FirstsAscend(Latest(history)) && FirstsBelow(Latest(history), bound)
  {
    if history != [] {
      var init, last := history[..|history| - 1], history[|history| - 1];
      LatestAscends(init, last.sequence);
      PutAscends(Latest(init), last);
      PutStaysBelow(Latest(init), last, bound);
    }
  }

  lemma {:induction false} LatestAlike(a: seq<Revision>, b: seq<Revision>)
    requires AlikeHistory(a, b)
    ensures Alike(Latest(a), Latest(b))
  {
    if a != [] {
      LatestAlike(a[..|a| - 1], b[..|b| - 1]);
      PutAlike(Latest(a[..|a| - 1]), Latest(b[..|b| - 1]), a[|a| - 1], b[|b| - 1]);
    }
  }

  lemma {:induction false} InsertAlike(a: seq<Entry>, b: seq<Entry>, x: Entry, y: Entry)
    requires Alike(a, b) && AlikeRow(x.row, y.row) && FirstsBelow(a, x.first) && FirstsBelow(b, y.first)
    ensures Alike(Insert(a, x), Insert(b, y))
  {
    if a == [] {
      AlikeAppend(a, b, x, y);
    } else {
      assert a[|a| - 1] in a && b[|b| - 1] in b;
      assert Precedes(x, a[|a| - 1]) == Precedes(y, b[|b| - 1]);
      hide Precedes;
      if !Precedes(x, a[|a| - 1]) {
        AlikeAppend(a, b, x, y);
      } else {
        var s, t := a[..|a| - 1], b[..|b| - 1];
        InsertAlike(s, t, x, y);
        AlikeAppend(Insert(s, x), Insert(t, y), a[|a| - 1], b[|b| - 1]);
      }
    }
  }

  lemma AlikeAppend(a: seq<Entry>, b: seq<Entry>, x: Entry, y: Entry)
    requires Alike(a, b) && AlikeRow(x.row, y.row)
    ensures Alike(a + [x], b + [y])
  {
  }

  lemma {:induction false} SortAlike(a: seq<Entry>, b: seq<Entry>)
    requires Alike(a, b) && FirstsAscend(a) && FirstsAscend(b)
    ensures Alike(SortFills(a), SortFills(b))
  {
    if a != [] {
      var n := |a| - 1;
      SortAlike(a[..n], b[..n]);
      SortedBelow(a[..n], a[n].first);
      SortedBelow(b[..n], b[n].first);
      InsertAlike(SortFills(a[..n]), SortFills(b[..n]), a[n], b[n]);
    }
  }

  lemma SortedBelow(entries: seq<Entry>, bound: int)
    requires forall i :: 0 <= i < |entries| ==> entries[i].first < bound
    ensures FirstsBelow(SortFills(entries), bound)
  {
    SortConserves(entries);
    forall e | e in SortFills(entries) ensures e.first < bound {
      assert e in multiset(SortFills(entries));
      assert e in entries;
    }
  }

  /** The same tally, but for the sequence of the last row. */
  predicate SameTally(a: Result<Tally, ReplayError>, b: Result<Tally, ReplayError>) {
    match (a, b)
    case (Ok(s), Ok(t)) => s.quantity == t.quantity && s.average == t.average && s.last.Some? == t.last.Some?
    case (Err(e), Err(f)) => e == f
    case _ => false
  }

  lemma {:induction false} ReplayAlike(a: seq<Entry>, b: seq<Entry>)
    requires Alike(a, b)
    ensures SameTally(Replay(a), Replay(b))
  {
    if a != [] { ReplayAlike(a[..|a| - 1], b[..|b| - 1]); }
  }

  /** Renumbering a history, as long as the order of its sequences stays, changes no decision of the replay:
      what the check before an insert accepts with a predicted number, the replay after it accepts with
      the number the table assigned. */
  lemma RenumberingDecidesAlike(a: seq<Revision>, b: seq<Revision>)
    requires AlikeHistory(a, b) && Ascending(a) && Ascending(b)
    ensures Project(a).Ok? <==> Project(b).Ok?
    ensures Project(a).Ok? ==>
      && Alike(Project(a).value.fills, Project(b).value.fills)
      && Project(a).value.tally.quantity == Project(b).value.tally.quantity
      && Project(a).value.tally.average == Project(b).value.tally.average
  {
    LatestAlike(a, b);
    LatestAscends(a, if a == [] then 0 else a[|a| - 1].sequence + 1);
    LatestAscends(b, if b == [] then 0 else b[|b| - 1].sequence + 1);
    SortAlike(Latest(a), Latest(b));
    ReplayAlike(SortFills(Latest(a)), SortFills(Latest(b)));
  }
}
