/**
 * Keyset pages of the desktop chat journal.
 *
 * The journal is the scoped query result, newest row first. Rows are addressed by id only, so a page
 * can be continued although newer rows have meanwhile been inserted before its cursor.
 */
module ChatPaging {
  import opened Prelude

  datatype Row = Row(id: string, reported: bool)
  datatype Page = Page(rows: seq<Row>, next: Option<string>, more: bool)
  datatype Error = BadLimit | BadCursor

  predicate UniqueIds(c: seq<Row>) { forall i, j | 0 <= i < j < |c| :: c[i].id != c[j].id }

  function Min(a: int, b: int): int { if a < b then a else b }

  function ScanBudget(limit: nat): nat { Min(1000, if limit * 4 < 100 then 100 else limit * 4) }

  // ---------------------------------------------------------------- reference: one row at a time

  function Visible(c: seq<Row>): seq<Row> {
    if c == [] then [] else (if c[0].reported then [] else [c[0]]) + Visible(c[1..])
  }

  /** How many rows are examined until enough visible ones are found, the budget is spent, or none is left. */
  function Scan(c: seq<Row>, want: nat, budget: nat): (n: nat)
    ensures n <= |c| && n <= budget
    decreases |c|
  {
    if c == [] || want == 0 || budget == 0 then 0
    else 1 + Scan(c[1..], if c[0].reported then want else want - 1, budget - 1)
  }

  predicate Holds(c: seq<Row>, id: string) { exists i | 0 <= i < |c| :: c[i].id == id }

  /** The rows after the row with that id; empty if there is no such row. */
  function AfterRow(c: seq<Row>, id: string): seq<Row> {
    if c == [] then [] else if c[0].id == id then c[1..] else AfterRow(c[1..], id)
  }

  function After(c: seq<Row>, cursor: Option<string>): seq<Row> {
    match cursor case None => c case Some(id) => AfterRow(c, id)
  }

  /** The page that starts with the first row of `rest`. */
  function PageOf(rest: seq<Row>, limit: nat): Page {
    var n := Scan(rest, limit, ScanBudget(limit));
    Page(Visible(rest[..n]), if n == 0 then None else Some(rest[n - 1].id),
         |Visible(rest[..n])| == limit || n == ScanBudget(limit))
  }

  // ---------------------------------------------------------------- facts about the reference

  lemma {:induction false} VisibleConcat(a: seq<Row>, b: seq<Row>)
    ensures Visible(a + b) == Visible(a) + Visible(b)
    decreases |a|
  {
    if a == [] {
      assert a + b == b;
    } else {
      assert (a + b)[1..] == a[1..] + b;
      VisibleConcat(a[1..], b);
    }
  }

  lemma VisibleSplit(c: seq<Row>, n: nat)
    requires n <= |c|
    ensures Visible(c) == Visible(c[..n]) + Visible(c[n..])
  {
    assert c == c[..n] + c[n..];
    VisibleConcat(c[..n], c[n..]);
  }

  lemma VisibleSnoc(c: seq<Row>, n: nat)
    requires n < |c|
    ensures Visible(c[..n + 1]) == Visible(c[..n]) + if c[n].reported then [] else [c[n]]
  {
    assert c[..n + 1] == c[..n] + [c[n]];
    VisibleConcat(c[..n], [c[n]]);
    assert [c[n]][1..] == [];
  }

  /** The stopping row is the only one at which some bound is reached for the first time. */
  lemma {:induction false} ScanIs(c: seq<Row>, want: nat, budget: nat, n: nat)
    requires n <= |c| && n <= budget && |Visible(c[..n])| <= want
    requires n == |c| || n == budget || |Visible(c[..n])| == want
    requires n > 0 ==> |Visible(c[..n - 1])| < want
    ensures Scan(c, want, budget) == n
    decreases n
  {
    if n > 0 {
      assert c[..n][1..] == c[1..][..n - 1] && c[..n][0] == c[0];
      if n > 1 {
        assert c[..n - 1][1..] == c[1..][..n - 2] && c[..n - 1][0] == c[0];
      }
      ScanIs(c[1..], if c[0].reported then want else want - 1, budget - 1, n - 1);
    }
  }

  lemma {:induction false} ScanStops(c: seq<Row>, want: nat, budget: nat)
    ensures var n := Scan(c, want, budget);
            |Visible(c[..n])| <= want && (n < |c| ==> |Visible(c[..n])| == want || n == budget)
            && (c != [] && want > 0 && budget > 0 ==> n > 0)
    decreases |c|
  {
    if c != [] && want > 0 && budget > 0 {
      var n := Scan(c, want, budget);
      assert c[..n][1..] == c[1..][..n - 1] && c[..n][0] == c[0];
      ScanStops(c[1..], if c[0].reported then want else want - 1, budget - 1);
    }
  }

  /**
   * A page examines at most its budget and returns at most its limit; "more" means the cursor advanced, "no more"
   * that the tail was examined.
   */
  lemma PageIsBoundedAndAdvances(rest: seq<Row>, limit: nat)
    requires 1 <= limit <= 100
    ensures var p := PageOf(rest, limit); var n := Scan(rest, limit, ScanBudget(limit));
            n <= ScanBudget(limit) <= 400 && |p.rows| <= limit
            && (p.more ==> n > 0 && p.next == Some(rest[n - 1].id))
            && (!p.more ==> n == |rest| && p.rows == Visible(rest))
  {
    ScanStops(rest, limit, ScanBudget(limit));
    var n := Scan(rest, limit, ScanBudget(limit));
    if n == |rest| {
      assert rest[..n] == rest;
    }
  }

  /** The scan budget: four pages, but at least a hundred rows and at most a thousand. */
  lemma ScanBudgetIs(limit: nat)
    ensures ScanBudget(limit) <= 1000 && (limit <= 25 ==> ScanBudget(limit) == 100)
    ensures 25 <= limit <= 250 ==> ScanBudget(limit) == 4 * limit
    ensures 250 <= limit ==> ScanBudget(limit) == 1000
  {
  }

  /**
   * A page that says there is more is full, or has examined its whole budget of min(1000, max(100, 4 * limit)) rows.
   */
  lemma MoreMeansFullOrSpent(rest: seq<Row>, limit: nat)
    requires 1 <= limit <= 100
    ensures var n := Scan(rest, limit, ScanBudget(limit));
            PageOf(rest, limit).more <==> |PageOf(rest, limit).rows| == limit || n == if limit <= 25 then 100
                                                                                        else 4 * limit
  {
    ScanBudgetIs(limit);
  }

  /** Continuing after the n-th row of a continuation is the continuation from there: ids are positions. */
  lemma {:induction false} AfterRowAt(c: seq<Row>, i: nat)
    requires UniqueIds(c) && i < |c|
    ensures AfterRow(c, c[i].id) == c[i + 1..]
    decreases i
  {
    if i > 0 {
      assert c[0].id != c[i].id;
      AfterRowAt(c[1..], i - 1);
      assert c[1..][i..] == c[i + 1..];
    }
  }

  lemma {:induction false} AfterIsSuffix(c: seq<Row>, cursor: Option<string>) returns (k: nat)
    ensures k <= |c| && After(c, cursor) == c[k..]
    decreases |c|
  {
    if cursor.None? {
      k := 0;
    } else if c == [] {
      k := 0;
    } else if c[0].id == cursor.value {
      k := 1;
    } else {
      var j := AfterIsSuffix(c[1..], cursor);
      k := j + 1;
    }
  }

  lemma AfterNext(c: seq<Row>, cursor: Option<string>, n: nat)
    requires UniqueIds(c) && 0 < n <= |After(c, cursor)|
    ensures AfterRow(c, After(c, cursor)[n - 1].id) == After(c, cursor)[n..]
  {
    var k := AfterIsSuffix(c, cursor);
    AfterRowAt(c, k + n - 1);
  }

  // ---------------------------------------------------------------- the page query

  /** One batched query: `limit` rows after the cursor row. */
  function Query(c: seq<Row>, cursor: Option<string>, limit: nat): seq<Row> {
    var rest := After(c, cursor); rest[..Min(limit, |rest|)]
  }

  /** After `scanned` rows of the continuation: what was collected, and where the cursor stands. */
  ghost predicate Progress(c: seq<Row>, cursor: Option<string>, scanned: nat, limit: nat, messages: seq<Row>,
                           last: Option<string>) {
    var rest := After(c, cursor);
    scanned <= |rest| && messages == Visible(rest[..scanned]) && |messages| <= limit
    && (scanned > 0 ==> |Visible(rest[..scanned - 1])| < limit)
    && After(c, last) == rest[scanned..] && last == if scanned == 0 then cursor else Some(rest[scanned - 1].id)
  }

  lemma ProgressByOne(c: seq<Row>, cursor: Option<string>, scanned: nat, limit: nat, messages: seq<Row>,
                      last: Option<string>, row: Row)
    requires UniqueIds(c) && Progress(c, cursor, scanned, limit, messages, last) && |messages| < limit
    requires scanned < |After(c, cursor)| && row == After(c, cursor)[scanned]
    ensures row.reported ==> Progress(c, cursor, scanned + 1, limit, messages, Some(row.id))
    ensures !row.reported ==> Progress(c, cursor, scanned + 1, limit, messages + [row], Some(row.id))
  {
    VisibleSnoc(After(c, cursor), scanned);
    AfterNext(c, cursor, scanned + 1);
  }

  lemma BatchIsSlice(c: seq<Row>, cursor: Option<string>, scanned: nat, limit: nat, messages: seq<Row>,
                     last: Option<string>, batch: nat)
    requires Progress(c, cursor, scanned, limit, messages, last)
    ensures var rest := After(c, cursor); scanned <= |rest| && |Query(c, last, batch)| == Min(batch, |rest| - scanned)
    ensures Query(c, last, batch) == After(c, cursor)[scanned..scanned + |Query(c, last, batch)|]
  {
  }

  /** Walks one batch, stopping at the row that fills the page. */
  method WalkBatch(c: seq<Row>, ghost cursor: Option<string>, ghost rest: seq<Row>, limit: nat, documents: seq<Row>,
                   scanned: nat, messages: seq<Row>, last: Option<string>)
    returns (scanned': nat, messages': seq<Row>, last': Option<string>, reached: bool)
    requires UniqueIds(c) && rest == After(c, cursor) && Progress(c, cursor, scanned, limit, messages, last)
             && |messages| < limit
    requires scanned + |documents| <= |rest| && documents == rest[scanned..scanned + |documents|]
    ensures Progress(c, cursor, scanned', limit, messages', last')
    ensures scanned <= scanned' <= scanned + |documents| && (documents != [] ==> scanned < scanned')
    ensures reached <==> |messages'| == limit
    ensures !reached ==> scanned' == scanned + |documents|
  {
    scanned', messages', last', reached := scanned, messages, last, false;
    for i := 0 to |documents|
      invariant Progress(c, cursor, scanned', limit, messages', last')
      invariant scanned' == scanned + i && |messages'| < limit && !reached
    {
      ProgressByOne(c, cursor, scanned', limit, messages', last', documents[i]);
      scanned' := scanned' + 1;
      last' := Some(documents[i].id);
      if !documents[i].reported {
        messages' := messages' + [documents[i]];
        if |messages'| == limit {
          reached := true;
          break;
        }
      }
    }
  }

  lemma NoRowAfterTheCursorIsTheCursor(c: seq<Row>, cursor: Option<string>, i: nat)
    requires UniqueIds(c) && i < |After(c, cursor)|
    ensures Some(After(c, cursor)[i].id) != cursor
  {
    if cursor.Some? && Holds(c, cursor.value) {
      var k :| 0 <= k < |c| && c[k].id == cursor.value;
      AfterRowAt(c, k);
    } else if cursor.Some? {
      NothingAfterAbsent(c, cursor.value);
    }
  }

  lemma {:induction false} NothingAfterAbsent(c: seq<Row>, id: string)
    requires !Holds(c, id)
    ensures AfterRow(c, id) == []
    decreases |c|
  {
    if c != [] {
      assert c[0].id != id;
      assert forall i | 0 <= i < |c[1..]| :: c[1..][i] == c[i + 1];
      NothingAfterAbsent(c[1..], id);
    }
  }

  lemma StoppedIsThePage(c: seq<Row>, cursor: Option<string>, scanned: nat, limit: nat, messages: seq<Row>,
                         last: Option<string>)
    requires UniqueIds(c) && Progress(c, cursor, scanned, limit, messages, last) && limit >= 1
             && scanned <= ScanBudget(limit)
    requires scanned == ScanBudget(limit) || |messages| == limit || scanned == |After(c, cursor)|
    ensures PageOf(After(c, cursor), limit) ==
            Page(messages, if last == cursor && messages == [] then None else last,
                 |messages| == limit || scanned == ScanBudget(limit))
  {
    ScanIs(After(c, cursor), limit, ScanBudget(limit), scanned);
    if scanned > 0 {
      NoRowAfterTheCursorIsTheCursor(c, cursor, scanned - 1);
    }
  }

  method GetMessagesReconcilePage(c: seq<Row>, limit: int, cursor: Option<string>) returns (r: Result<Page, Error>)
    requires UniqueIds(c)
    ensures r == if limit < 1 || limit > 100 then Err(BadLimit)
                 else if cursor.Some? && !Holds(c, cursor.value) then Err(BadCursor)
                 else Ok(PageOf(After(c, cursor), limit))
  {
    if limit < 1 || limit > 100 {
      return Err(BadLimit);
    }
    if cursor.Some? && !Holds(c, cursor.value) {
      return Err(BadCursor);
    }
    var budget, scanned := ScanBudget(limit), 0;
    var messages: seq<Row> := [];
    var last, more := cursor, false;
    while scanned < budget && |messages| < limit
      invariant Progress(c, cursor, scanned, limit, messages, last) && scanned <= budget
      invariant |messages| == limit ==> more
      decreases budget - scanned
    {
      var batch := Min(100, budget - scanned);
      var documents := Query(c, last, batch);
      BatchIsSlice(c, cursor, scanned, limit, messages, last, batch);
      if documents == [] {
        more := false;
        break;
      }
      var reached;
      scanned, messages, last, reached :=
        WalkBatch(c, cursor, After(c, cursor), limit, documents, scanned, messages, last);
      if reached {
        more := true;
        break;
      }
      if |documents| < batch {
        more := false;
        break;
      }
      more := true;
    }
    StoppedIsThePage(c, cursor, scanned, limit, messages, last);
    if scanned >= budget && |messages| < limit {
      more := true;
    }
    return Ok(Page(messages, if last == cursor && messages == [] then None else last, more));
  }

  // ---------------------------------------------------------------- replaying the journal

  /** Calls against successive journals, each continuing at the previous cursor, until a page says there is no more. */
  function Replay(journals: seq<seq<Row>>, cursor: Option<string>, limit: nat): Page
    decreases |journals|
  {
    if journals == [] then Page([], cursor, true)
    else
      var p := PageOf(After(journals[0], cursor), limit);
      if !p.more then p
      else var q := Replay(journals[1..], p.next, limit); Page(p.rows + q.rows, q.next, q.more)
  }

  /** Between calls the rows past the cursor stay as they are; anything may happen before it. */
  predicate KeptPastCursor(journals: seq<seq<Row>>, cursor: Option<string>, limit: nat)
    decreases |journals|
  {
    |journals| > 0 && UniqueIds(journals[0])
    && (|journals| > 1 ==>
          var next := PageOf(After(journals[0], cursor), limit).next;
          After(journals[1], next) == After(journals[0], next) && KeptPastCursor(journals[1..], next, limit))
  }

  /** Inserting rows before the cursor row keeps everything past it. */
  lemma InsertionAheadKeepsPastCursor(a: seq<Row>, a': seq<Row>, row: Row, b: seq<Row>)
    requires UniqueIds(a + [row] + b) && UniqueIds(a' + [row] + b)
    ensures After(a' + [row] + b, Some(row.id)) == After(a + [row] + b, Some(row.id)) == b
  {
    AfterRowAt(a + [row] + b, |a|);
    AfterRowAt(a' + [row] + b, |a'|);
  }

  lemma PageThenRest(c: seq<Row>, cursor: Option<string>, limit: nat)
    requires UniqueIds(c) && 1 <= limit <= 100 && PageOf(After(c, cursor), limit).more
    ensures var p := PageOf(After(c, cursor), limit);
            Visible(After(c, cursor)) == p.rows + Visible(After(c, p.next)) && |After(c, p.next)| < |After(c, cursor)|
  {
    var rest := After(c, cursor);
    PageIsBoundedAndAdvances(rest, limit);
    var n := Scan(rest, limit, ScanBudget(limit));
    AfterNext(c, cursor, n);
    VisibleSplit(rest, n);
  }

  /**
   * At every point of a replay, the rows returned so far followed by the visible rows past the cursor are all visible
   * rows, in order.
   */
  lemma {:induction false} ReplayLosesAndRepeatsNothing(journals: seq<seq<Row>>, cursor: Option<string>, limit: nat)
    requires 1 <= limit <= 100 && KeptPastCursor(journals, cursor, limit)
    ensures var q := Replay(journals, cursor, limit); var end := journals[|journals| - 1];
            Visible(After(journals[0], cursor)) == q.rows + if q.more then Visible(After(end, q.next)) else []
    decreases |journals|
  {
    var c := journals[0];
    var p := PageOf(After(c, cursor), limit);
    if !p.more {
      PageIsBoundedAndAdvances(After(c, cursor), limit);
    } else {
      PageThenRest(c, cursor, limit);
      if |journals| > 1 {
        ReplayLosesAndRepeatsNothing(journals[1..], p.next, limit);
      } else {
        assert Replay(journals[1..], p.next, limit) == Page([], p.next, true);
      }
    }
  }

  lemma {:induction false} ReplayEnds(journals: seq<seq<Row>>, cursor: Option<string>, limit: nat)
    requires 1 <= limit <= 100 && KeptPastCursor(journals, cursor, limit) && |journals| > |After(journals[0], cursor)|
    ensures !Replay(journals, cursor, limit).more
    decreases |journals|
  {
    var c := journals[0];
    var p := PageOf(After(c, cursor), limit);
    if p.more {
      PageThenRest(c, cursor, limit);
      ReplayEnds(journals[1..], p.next, limit);
    }
  }

  /** Replaying until there is no more returns exactly the visible rows of the journal as it stood at the first call. */
  lemma ReplayReturnsEveryVisibleRowOnce(journals: seq<seq<Row>>, limit: nat)
    requires 1 <= limit <= 100 && KeptPastCursor(journals, None, limit) && |journals| > |journals[0]|
    ensures var q := Replay(journals, None, limit); !q.more && q.rows == Visible(journals[0]) && UniqueIds(q.rows)
  {
    ReplayEnds(journals, None, limit);
    ReplayLosesAndRepeatsNothing(journals, None, limit);
    VisibleKeepsUnique(journals[0]);
  }

  lemma {:induction false} VisibleFrom(c: seq<Row>, i: nat) returns (k: nat)
    requires i < |Visible(c)|
    ensures k < |c| && c[k] == Visible(c)[i] && !c[k].reported
    decreases |c|
  {
    if !c[0].reported && i == 0 {
      k := 0;
    } else {
      k := VisibleFrom(c[1..], if c[0].reported then i else i - 1);
      k := k + 1;
    }
  }

  lemma {:induction false} VisibleKeepsUnique(c: seq<Row>)
    requires UniqueIds(c)
    ensures UniqueIds(Visible(c))
    decreases |c|
  {
    if c != [] {
      VisibleKeepsUnique(c[1..]);
      forall i | 0 <= i < |Visible(c[1..])|
        ensures Visible(c[1..])[i].id != c[0].id
      {
        var k := VisibleFrom(c[1..], i);
        assert c[1..][k] == c[k + 1];
      }
    }
  }
}
