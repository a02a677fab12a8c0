/**
 The operations table and the operational event log. Each statement is one transaction.
 The ghost fields remember everything that was ever saved.
 */
module Storage {
  import opened Basics

  const RETAINED := 100

  datatype Status = Queued | Running | Succeeded | Failed

  datatype Row = Row(
    id: string,
    kind: string,
    device: Option<string>,
    status: Status,
    created: int,
    updated: int,
    error: Option<string>)

  predicate Pending(r: Row) {
    r.status == Queued || r.status == Running
  }

  // ---------- Statements on a table kept in order of creation ----------

  function Overwritten(old_: Row, row: Row): Row {
    old_.(status := row.status, updated := row.updated, error := row.error)
  }

  /** Inserts a row at its place, or updates the one with its identifier. */
  function Upserted(s: seq<Row>, row: Row): seq<Row> {
    if |s| == 0 then [row]
    else
      var front, last := s[..|s| - 1], s[|s| - 1];
      if last.id == row.id then front + [Overwritten(last, row)]
      else if last.created < row.created then s + [row]
      else Upserted(front, row) + [last]
  }

  function Without(s: seq<Row>, ids: set<string>): seq<Row> {
    if |s| == 0 then []
    else
      var front, last := s[..|s| - 1], s[|s| - 1];
      if last.id in ids then Without(front, ids) else Without(front, ids) + [last]
  }

  function Ids(s: seq<Row>): set<string> {
    set i | 0 <= i < |s| :: s[i].id
  }

  function TerminalIds(s: seq<Row>): set<string> {
    set i | 0 <= i < |s| && !Pending(s[i]) :: s[i].id
  }

  /** Deletes the terminal rows that are not among the newest. */
  function Pruned(s: seq<Row>): seq<Row> {
    Without(s, TerminalIds(s) - Ids(LastN(s, RETAINED)))
  }

  function Interrupted(row: Row, now: int): Row {
    if Pending(row) then row.(status := Failed, error := Some("interrupted"), updated := now) else row
  }

  function AllInterrupted(s: seq<Row>, now: int): seq<Row> {
    seq(|s|, i requires 0 <= i < |s| => Interrupted(s[i], now))
  }

  function Reversed<T>(s: seq<T>): (r: seq<T>)
    ensures |r| == |s|
    ensures forall i :: 0 <= i < |s| ==> r[i] == s[|s| - 1 - i]
  {
    seq(|s|, i requires 0 <= i < |s| => s[|s| - 1 - i])
  }

  // ---------- Order and identity ----------

  ghost predicate Ordered(s: seq<Row>) {
    forall i, j :: 0 <= i < j < |s| ==> s[i].created < s[j].created && s[i].id != s[j].id
  }

  /** An identifier fixes everything that an update leaves alone, and two share no creation time. */
  ghost predicate Consistent(s: seq<Row>, row: Row) {
    forall i :: 0 <= i < |s| ==>
      && (s[i].id == row.id ==> s[i].kind == row.kind && s[i].device == row.device && s[i].created == row.created)
      && (s[i].created == row.created ==> s[i].id == row.id)
  }

  /** Dropped rows are terminal and older than the newest. */
  ghost predicate DropsFit(all: seq<Row>, dropped: set<string>) {
    && (forall i :: 0 <= i < |all| && all[i].id in dropped ==> !Pending(all[i]))
    && Ids(LastN(all, RETAINED)) !! dropped
  }

  class OperationStore {
    var rows: seq<Row>
    var events: seq<string>
    ghost var all: seq<Row>
    ghost var dropped: set<string>
    ghost var appended: seq<string>

    ghost predicate Valid()
      reads this
    {
      && Ordered(all)
      && rows == Without(all, dropped)
      && DropsFit(all, dropped)
      && events == LastN(appended, RETAINED)
    }

    constructor ()
      ensures Valid() && all == [] && appended == []
    {
      rows, events, all, dropped, appended := [], [], [], {}, [];
    }

    method SaveOperation(row: Row)
      requires Valid() && Consistent(all, row)
      modifies `rows, `all, `dropped
      ensures Valid()
      ensures all == Upserted(old(all), row)
      ensures forall i :: 0 <= i < |rows| - 100 ==> rows[i].status == Queued || rows[i].status == Running
    {
      ghost var kept := dropped - {row.id};
      hide Ordered, DropsFit, Consistent, Ids, TerminalIds, Upserted;
      UpsertCommutes(all, row, dropped);
      UpsertStaysOrdered(all, row);
      UpsertKeepsDrops(all, row, dropped);
      all := Upserted(all, row);
      rows := Upserted(rows, row);
      PruneKeepsDrops(all, kept);
      PrunedRest(all, kept);
      dropped := kept + (TerminalIds(rows) - Ids(LastN(rows, RETAINED)));
      rows := Pruned(rows);
    }

    /** The newest operations of the table are the newest ever saved. */
    method Operations() returns (newest: seq<Row>)
      requires Valid()
      ensures newest == Reversed(LastN(all, 100))
    {
      NewestAreKept(all, dropped, RETAINED);
      newest := Reversed(LastN(rows, RETAINED));
    }

    /** A pending operation is found however many came after it. */
    method Operation(id: string) returns (found: Option<Row>)
      requires Valid()
      ensures found.Some? ==> found.value in all && found.value.id == id
      ensures found.None? ==> forall r :: r in all && r.id == id ==> r.status == Succeeded || r.status == Failed
    {
      WithoutHas(all, dropped);
      for i := 0 to |rows|
        invariant forall j :: 0 <= j < i ==> rows[j].id != id
      {
        if rows[i].id == id {
          return Some(rows[i]);
        }
      }
      found := None;
    }

    method InterruptOperations(now: int)
      requires Valid()
      modifies `rows, `all
      ensures Valid()
      ensures |all| == |old(all)|
      ensures forall i :: 0 <= i < |all| ==>
                          var row := old(all)[i];
                          all[i] == if row.status == Queued || row.status == Running
                                    then row.(status := Failed, updated := now, error := Some("interrupted")) else row
    {
      InterruptCommutes(all, dropped, now);
      InterruptKeepsDrops(all, dropped, now);
      all := AllInterrupted(all, now);
      rows := AllInterrupted(rows, now);
    }

    method AppendEvent(payload: string)
      requires Valid()
      modifies `events, `appended
      ensures Valid()
      ensures appended == old(appended) + [payload]
    {
      LastNAppend(appended, payload, RETAINED);
      events := events + [payload];
      if |events| > RETAINED {
        events := events[|events| - RETAINED..];
      }
      appended := appended + [payload];
    }

    method RecentEvents() returns (recent: seq<string>)
      requires Valid()
      ensures recent == LastN(appended, RETAINED)
    {
      recent := events;
    }
  }

  // ---------- Removing rows ----------

  lemma {:induction false} WithoutHas(s: seq<Row>, ids: set<string>)
    ensures forall r :: r in Without(s, ids) <==> r in s && r.id !in ids
    decreases |s|
  {
    if |s| > 0 {
      WithoutHas(s[..|s| - 1], ids);
      assert s == s[..|s| - 1] + [s[|s| - 1]];
    }
  }

  lemma {:induction false} WithoutTwice(s: seq<Row>, a: set<string>, b: set<string>)
    ensures Without(Without(s, a), b) == Without(s, a + b)
    decreases |s|
  {
    if |s| > 0 {
      WithoutTwice(s[..|s| - 1], a, b);
    }
  }

  lemma {:induction false} WithoutStaysOrdered(s: seq<Row>, ids: set<string>)
    requires Ordered(s)
    ensures Ordered(Without(s, ids))
    decreases |s|
  {
    if |s| > 0 {
      var front := s[..|s| - 1];
      WithoutStaysOrdered(front, ids);
      WithoutHas(front, ids);
      var w := Without(front, ids);
      forall i | 0 <= i < |w| ensures w[i] in front {}
    }
  }

  /** Where nothing among the newest is removed, the newest stay. */
  lemma {:induction false} NewestAreKept(s: seq<Row>, ids: set<string>, n: nat)
    requires Ids(LastN(s, n)) !! ids
    ensures LastN(Without(s, ids), n) == LastN(s, n)
    decreases |s|
  {
    if |s| > 0 && n > 0 {
      var front, last := s[..|s| - 1], s[|s| - 1];
      var tail := LastN(s, n);
      assert tail[|tail| - 1] == last && last.id in Ids(tail);
      assert LastN(s, n) == LastN(front, n - 1) + [last];
      var before := LastN(front, n - 1);
      forall i | 0 <= i < |before| ensures before[i].id in Ids(tail) {
        assert tail[i] == before[i];
      }
      NewestAreKept(front, ids, n - 1);
    }
  }

  // ---------- Saving a row ----------

  /** A save replaces the row of its identifier, or adds one, and leaves all others alone. */
  lemma {:induction false} UpsertHas(s: seq<Row>, row: Row)
    requires Ordered(s) && Consistent(s, row)
    ensures forall r :: r in Upserted(s, row) <==> (r in s && r.id != row.id) || r == row
    decreases |s|
  {
    if |s| > 0 {
      var front, last := s[..|s| - 1], s[|s| - 1];
      assert s == front + [last];
      if last.id == row.id {
        assert Overwritten(last, row) == row;
      } else {
        UpsertHas(front, row);
      }
    }
  }

  // What a save does to a history with a last row, case by case.

  /** A row with the identifier of the last one takes its place. */
  lemma UpsertReplaces(front: seq<Row>, last: Row, row: Row)
    requires last.id == row.id && Overwritten(last, row) == row
    ensures Upserted(front + [last], row) == front + [row]
  {
    assert (front + [last])[..|front|] == front;
  }

  lemma UpsertPastNewer(s: seq<Row>, last: Row, row: Row)
    requires last.id != row.id && last.created >= row.created
    ensures Upserted(s + [last], row) == Upserted(s, row) + [last]
  {
    assert (s + [last])[..|s|] == s;
  }

  lemma UpsertNewer(s: seq<Row>, last: Row, row: Row)
    requires last.id != row.id && last.created < row.created
    ensures Upserted(s + [last], row) == s + [last] + [row]
  {
    assert (s + [last])[..|s|] == s;
  }

  lemma StillOrdered(front: seq<Row>, last: Row, row: Row)
    requires Ordered(front + [last]) && Ordered(Upserted(front, row))
    requires last.id != row.id && last.created > row.created
    requires forall r :: r in Upserted(front, row) ==> r in front || r == row
    ensures Ordered(Upserted(front, row) + [last])
  {
    hide Upserted;
    var u := Upserted(front, row);
    forall i | 0 <= i < |u| ensures u[i].created < last.created && u[i].id != last.id {
      assert u[i] in u;
      if u[i] in front {
        var j :| 0 <= j < |front| && front[j] == u[i];
        assert (front + [last])[j] == front[j] && (front + [last])[|front|] == last;
      }
    }
  }

  lemma OrderedReplaced(front: seq<Row>, last: Row, row: Row)
    requires Ordered(front + [last]) && last.id == row.id && last.created == row.created
    ensures Ordered(front + [row])
  {
    var s := front + [last];
    forall i | 0 <= i < |front| ensures front[i].created < row.created && front[i].id != row.id {
      assert s[i] == front[i] && s[|front|] == last;
    }
    OrderedFront(front, last);
  }

  lemma OrderedFront(front: seq<Row>, last: Row)
    requires Ordered(front + [last])
    ensures Ordered(front)
  {
    var s := front + [last];
    forall i, j | 0 <= i < j < |front| ensures front[i].created < front[j].created && front[i].id != front[j].id {
      assert s[i] == front[i] && s[j] == front[j];
    }
  }

  lemma OrderedPushed(front: seq<Row>, last: Row, row: Row)
    requires Ordered(front + [last]) && last.created < row.created
    requires forall i :: 0 <= i < |front| ==> front[i].id != row.id
    requires last.id != row.id
    ensures Ordered(front + [last] + [row])
  {
    var s := front + [last];
    forall i | 0 <= i < |s| ensures s[i].created < row.created && s[i].id != row.id {
      assert s[|front|] == last;
    }
  }

  lemma {:induction false} UpsertStaysOrdered(s: seq<Row>, row: Row)
    requires Ordered(s) && Consistent(s, row)
    ensures Ordered(Upserted(s, row))
    decreases |s|
  {
    if |s| > 0 {
      var front, last := s[..|s| - 1], s[|s| - 1];
      assert s == front + [last];
      OrderedFront(front, last);
      UpsertStaysOrdered(front, row);
      if last.id == row.id {
        UpsertReplaces(front, last, row);
        OrderedReplaced(front, last, row);
      } else if last.created < row.created {
        NoOtherRow(s, row);
        UpsertNewer(front, last, row);
        OrderedPushed(front, last, row);
      } else {
        hide Upserted, Ordered;
        UpsertHas(front, row);
        UpsertPastNewer(front, last, row);
        StillOrdered(front, last, row);
      }
    }
  }

  /** A row created after the last one of an ordered history is not in it. */
  lemma NoOtherRow(s: seq<Row>, row: Row)
    requires Ordered(s) && Consistent(s, row) && |s| > 0 && s[|s| - 1].created < row.created
    ensures forall i :: 0 <= i < |s| ==> s[i].created < row.created && s[i].id != row.id
  {
  }

  /** The last row of a history is the one saved. */
  lemma UpsertLast(front: seq<Row>, last: Row, row: Row, ids: set<string>)
    requires forall i :: 0 <= i < |front| ==> front[i].created < row.created && front[i].id != row.id
    requires last.id == row.id && Overwritten(last, row) == row
    ensures Upserted(Without(front + [last], ids), row) == Without(Upserted(front + [last], row), ids - {row.id})
  {
    hide Upserted, Without, Overwritten;
    UpsertReplaces(front, last, row);
    SameWithout(front, row.id, ids);
    WithoutPushed(front, row, ids - {row.id});
    WithoutPushed(front, last, ids);
    if last.id in ids {
      RowIsLatest(front, row, ids);
      assert Without(front, ids) + [] == Without(front, ids);
    } else {
      UpsertReplaces(Without(front, ids), last, row);
    }
  }

  lemma WithoutPushed(s: seq<Row>, x: Row, ids: set<string>)
    ensures Without(s + [x], ids) == Without(s, ids) + if x.id in ids then [] else [x]
  {
    assert (s + [x])[..|s|] == s;
  }

  /** A row newer than the whole history is new. */
  lemma UpsertNew(s: seq<Row>, row: Row, ids: set<string>)
    requires forall i :: 0 <= i < |s| ==> s[i].created < row.created && s[i].id != row.id
    ensures Upserted(Without(s, ids), row) == Without(s + [row], ids - {row.id})
  {
    RowIsLatest(s, row, ids);
    SameWithout(s, row.id, ids);
    WithoutPushed(s, row, ids - {row.id});
  }

  /** Saving into the table is saving into the full history and then removing what was dropped. */
  lemma {:induction false} UpsertCommutes(s: seq<Row>, row: Row, ids: set<string>)
    requires Ordered(s) && Consistent(s, row)
    ensures Upserted(Without(s, ids), row) == Without(Upserted(s, row), ids - {row.id})
    decreases |s|
  {
    if |s| > 0 {
      var front, last := s[..|s| - 1], s[|s| - 1];
      assert s == front + [last];
      UpsertCommutes(front, row, ids);
      if last.id == row.id {
        UpsertLast(front, last, row, ids);
      } else if last.created < row.created {
        UpsertNew(s, row, ids);
      } else {
        hide Ordered, Consistent;
        WithoutPushed(front, last, ids);
        UpsertPastNewer(Without(front, ids), last, row);
        WithoutPushed(Upserted(front, row), last, ids - {row.id});
      }
    }
  }

  /** A row newer than all others is appended. */
  lemma RowIsLatest(s: seq<Row>, row: Row, ids: set<string>)
    requires forall i :: 0 <= i < |s| ==> s[i].created < row.created && s[i].id != row.id
    ensures Upserted(Without(s, ids), row) == Without(s, ids) + [row]
  {
    WithoutHas(s, ids);
    var w := Without(s, ids);
    if |w| > 0 {
      assert w[|w| - 1] in s;
    }
  }

  lemma {:induction false} SameWithout(s: seq<Row>, id: string, ids: set<string>)
    requires forall i :: 0 <= i < |s| ==> s[i].id != id
    ensures Without(s, ids - {id}) == Without(s, ids)
    decreases |s|
  {
    if |s| > 0 {
      SameWithout(s[..|s| - 1], id, ids);
    }
  }

  lemma NewestPushed(s: seq<Row>, x: Row, n: nat)
    requires n > 0
    ensures LastN(s + [x], n) == LastN(s, n - 1) + [x]
    ensures forall r :: r in LastN(s, n - 1) ==> r in LastN(s, n)
  {
    var less, more := LastN(s, n - 1), LastN(s, n);
    forall r | r in less ensures r in more {
      var i :| 0 <= i < |less| && less[i] == r;
      assert more[i + |more| - |less|] == r;
    }
  }

  /** All rows of a list come from another one, but for the one saved. */
  ghost predicate FromBefore(after: seq<Row>, before: seq<Row>, row: Row) {
    forall r :: r in after ==> r in before || r == row
  }

  lemma NewestStep(front: seq<Row>, last: Row, row: Row, n: nat)
    requires n > 0 && (last.id == row.id ==> Overwritten(last, row) == row)
    requires FromBefore(LastN(Upserted(front, row), n - 1), LastN(front, n - 1), row)
    ensures FromBefore(LastN(Upserted(front + [last], row), n), LastN(front + [last], n), row)
  {
    hide Upserted, LastN, Overwritten;
    NewestPushed(front, last, n);
    if last.id == row.id {
      UpsertReplaces(front, last, row);
      NewestPushed(front, row, n);
    } else if last.created < row.created {
      UpsertNewer(front, last, row);
      NewestPushed(front + [last], row, n);
    } else {
      UpsertPastNewer(front, last, row);
      NewestPushed(Upserted(front, row), last, n);
    }
  }

  /** Saving a row makes no other row newer than it was. */
  lemma {:induction false} NewestAfterUpsert(s: seq<Row>, row: Row, n: nat)
    requires Consistent(s, row)
    ensures FromBefore(LastN(Upserted(s, row), n), LastN(s, n), row)
    decreases |s|
  {
    if |s| > 0 && n > 0 {
      var front, last := s[..|s| - 1], s[|s| - 1];
      assert s == front + [last];
      NewestAfterUpsert(front, row, n - 1);
      NewestStep(front, last, row, n);
    }
  }

  lemma UpsertKeepsDrops(all: seq<Row>, row: Row, dropped: set<string>)
    requires Ordered(all) && Consistent(all, row) && DropsFit(all, dropped)
    ensures DropsFit(Upserted(all, row), dropped - {row.id})
  {
    UpsertHas(all, row);
    NewestAfterUpsert(all, row, RETAINED);
    var u := Upserted(all, row);
    forall i | 0 <= i < |u| && u[i].id in dropped - {row.id} ensures !Pending(u[i]) {
      assert u[i] in all;
    }
    var newest := LastN(u, RETAINED);
    forall i | 0 <= i < |newest| ensures newest[i].id !in dropped - {row.id} {
      assert newest[i] in newest;
      assert newest[i] == row || newest[i].id in Ids(LastN(all, RETAINED));
    }
  }

  // ---------- Deleting ----------

  lemma PruneKeepsDrops(all: seq<Row>, kept: set<string>)
    requires Ordered(all) && DropsFit(all, kept)
    ensures var rows := Without(all, kept);
            var dropped := kept + (TerminalIds(rows) - Ids(LastN(rows, RETAINED)));
            Pruned(rows) == Without(all, dropped) && DropsFit(all, dropped)
  {
    var rows := Without(all, kept);
    var gone := TerminalIds(rows) - Ids(LastN(rows, RETAINED));
    WithoutTwice(all, kept, gone);
    NewestAreKept(all, kept, RETAINED);
    WithoutHas(all, kept);
    forall i | 0 <= i < |all| && all[i].id in gone ensures !Pending(all[i]) {
      var k :| 0 <= k < |rows| && !Pending(rows[k]) && rows[k].id == all[i].id;
      assert rows[k] in all;
    }
  }

  /** What is left beyond the newest is pending. */
  lemma PrunedRest(all: seq<Row>, kept: set<string>)
    requires Ordered(all)
    ensures var left := Pruned(Without(all, kept));
            forall i :: 0 <= i < |left| - RETAINED ==> Pending(left[i])
  {
    var rows := Without(all, kept);
    WithoutStaysOrdered(all, kept);
    var gone := TerminalIds(rows) - Ids(LastN(rows, RETAINED));
    var left := Pruned(rows);
    WithoutStaysOrdered(rows, gone);
    NewestAreKept(rows, gone, RETAINED);
    WithoutHas(rows, gone);
    forall i | 0 <= i < |left| - RETAINED ensures Pending(left[i]) {
      assert left[i] in rows && left[i].id !in gone;
      var newest := LastN(left, RETAINED);
      assert left[i].id !in Ids(newest);
    }
  }

  // ---------- Interrupting ----------

  lemma {:induction false} InterruptCommutes(s: seq<Row>, ids: set<string>, now: int)
    ensures AllInterrupted(Without(s, ids), now) == Without(AllInterrupted(s, now), ids)
    decreases |s|
  {
    if |s| > 0 {
      InterruptCommutes(s[..|s| - 1], ids, now);
      assert AllInterrupted(s, now)[..|s| - 1] == AllInterrupted(s[..|s| - 1], now);
    }
  }

  lemma InterruptKeepsDrops(all: seq<Row>, dropped: set<string>, now: int)
    requires Ordered(all) && DropsFit(all, dropped)
    ensures Ordered(AllInterrupted(all, now)) && DropsFit(AllInterrupted(all, now), dropped)
  {
    var before, after := LastN(all, RETAINED), LastN(AllInterrupted(all, now), RETAINED);
    assert |before| == |after| && forall i :: 0 <= i < |before| ==> after[i].id == before[i].id;
    forall i | 0 <= i < |after| ensures after[i].id !in dropped {
      assert before[i].id in Ids(before);
    }
  }
}
