/**
 * The bounded recovery sweeps and the cursor that several pods share.
 *
 * A sweep walks an ordered collection page by page. The model fixes the collection: row i is
 * identified by its position, and keep[i] is the per-row eligibility verdict of the sweep.
 */
module RecoverySweep {
  import opened Prelude

  function PageSize(limit: int): (size: nat)
    ensures 1 <= size <= 100
  {
    if limit < 1 then 1 else if limit > 100 then 100 else limit
  }

  /** First row after the persisted cursor; a vanished cursor row wraps to the top. */
  function Start(keep: seq<bool>, resume: Option<nat>): (at: nat)
    ensures at <= |keep|
  {
    if resume.Some? && resume.value < |keep| then resume.value + 1 else 0
  }

  // ---------------------------------------------------------------- reference: one row at a time

  /** Where a sweep that ignores paging stops: enough rows kept, budget spent, or no row left. */
  function ScanEnd(keep: seq<bool>, at: nat, want: int, budget: int): (end: nat)
    requires at <= |keep|
    ensures at <= end <= |keep|
    decreases |keep| - at
  {
    if at == |keep| || want <= 0 || budget <= 0 then at
    else ScanEnd(keep, at + 1, if keep[at] then want - 1 else want, budget - 1)
  }

  /** The eligible rows of [from, upTo), in order. */
  function Picks(keep: seq<bool>, from: nat, upTo: nat): seq<nat>
    requires from <= upTo <= |keep|
  {
    if from == upTo then []
    else Picks(keep, from, upTo - 1) + (if keep[upTo - 1] then [upTo - 1] else [])
  }

  /** First row of the page, counted from start, that holds row i. */
  function PageOf(start: nat, i: nat, size: nat): (p: nat)
    requires start <= i && size >= 1
    ensures start <= p <= i < p + size
    decreases i - start
  {
    if i < start + size then start else PageOf(start + size, i, size)
  }

  /** What a sweep that examined [start, end) reports as `exhausted`. */
  predicate ReportsExhausted(keep: seq<bool>, start: nat, end: nat, limit: int, maxScan: int)
    requires start <= end <= |keep|
  {
    if limit <= 0 || maxScan <= 0 then false
    else if end == start then true
    else
      var shortPage := |keep| - PageOf(start, end - 1, PageSize(limit)) < PageSize(limit);
      if |Picks(keep, start, end)| >= limit then shortPage
      else end == |keep| && (shortPage || end - start < maxScan)
  }

  function NextCursor(keep: seq<bool>, start: nat, end: nat, limit: int, maxScan: int): Option<nat>
    requires start <= end <= |keep|
  {
    if ReportsExhausted(keep, start, end, limit, maxScan) || end == start then None else Some(end - 1)
  }

  lemma {:induction false} PageOfShifted(start: nat, i: nat, size: nat, page: nat)
    requires size >= 1 && start <= page && PageOf(start, page, size) == page && page <= i < page + size
    ensures PageOf(start, i, size) == page
    decreases i - start
  {
    if page >= start + size {
      PageOfShifted(start + size, i, size, page);
    }
  }

  lemma {:induction false} NextPageAligned(start: nat, page: nat, size: nat)
    requires size >= 1 && start <= page && PageOf(start, page, size) == page
    ensures PageOf(start, page + size, size) == page + size
    decreases page - start
  {
    if page >= start + size {
      NextPageAligned(start + size, page, size);
    }
  }

  lemma {:induction false} ScanEndStays(keep: seq<bool>, at: nat, want: int, budget: int)
    requires at <= |keep|
    ensures var end := ScanEnd(keep, at, want, budget);
      && (budget >= 0 ==> end - at <= budget)
      && (want >= 0 ==> |Picks(keep, at, end)| <= want)
      && (end < |keep| && want > 0 && budget > 0 ==> |Picks(keep, at, end)| == want || end - at == budget)
      && (want > 0 && budget > 0 && at < |keep| ==> end > at)
    decreases |keep| - at
  {
    if at < |keep| && want > 0 && budget > 0 {
      var want' := if keep[at] then want - 1 else want;
      var end := ScanEnd(keep, at + 1, want', budget - 1);
      assert ScanEnd(keep, at, want, budget) == end;
      ScanEndStays(keep, at + 1, want', budget - 1);
      PicksFromFront(keep, at, end);
      assert |Picks(keep, at, end)| == want - want' + |Picks(keep, at + 1, end)|;
    }
  }

  /** The stopping row is the only one at which some bound is reached for the first time. */
  lemma {:induction false} ScanEndIs(keep: seq<bool>, at: nat, want: int, budget: int, end: nat)
    requires at <= end <= |keep|
    requires |Picks(keep, at, end)| >= want || end - at >= budget || end == |keep|
    requires end > at ==> |Picks(keep, at, end - 1)| < want && end - 1 - at < budget
    ensures ScanEnd(keep, at, want, budget) == end
    decreases end - at
  {
    if end > at {
      PicksFromFront(keep, at, end);
      if end - 1 > at {
        PicksFromFront(keep, at, end - 1);
      }
      ScanEndIs(keep, at + 1, if keep[at] then want - 1 else want, budget - 1, end);
    }
  }

  lemma {:induction false} PicksFromFront(keep: seq<bool>, from: nat, upTo: nat)
    requires from < upTo <= |keep|
    ensures Picks(keep, from, upTo) == (if keep[from] then [from] else []) + Picks(keep, from + 1, upTo)
    decreases upTo
  {
    if from + 1 < upTo {
      PicksFromFront(keep, from, upTo - 1);
    }
  }

  lemma {:induction false} PicksExactly(keep: seq<bool>, from: nat, upTo: nat, row: nat)
    requires from <= upTo <= |keep|
    ensures row in Picks(keep, from, upTo) <==> from <= row < upTo && keep[row]
  {
    if from < upTo {
      PicksExactly(keep, from, upTo - 1, row);
    }
  }

  // ---------------------------------------------------------------- the paged loop

  /** The inner loop over one page: rows cursor .. cursor + page, stopping at the limit or the budget. */
  method ScanPage(keep: seq<bool>, ghost start: nat, cursor: nat, page: nat, limit: int, maxScan: int,
                  before: seq<nat>, scannedBefore: nat)
    returns (collected: seq<nat>, scanned: nat, seen: nat)
    requires start <= cursor && 0 < page && cursor + page <= |keep|
    requires before == Picks(keep, start, cursor) && |before| < limit && scannedBefore == cursor - start < maxScan
    ensures cursor < seen <= cursor + page && collected == Picks(keep, start, seen)
    ensures |Picks(keep, start, seen - 1)| < limit && seen - 1 - start < maxScan
    ensures if scanned > maxScan then seen - start == maxScan && |collected| < limit && seen < cursor + page
            else scanned == seen - start && (|collected| >= limit || seen == cursor + page)
  {
    collected, scanned, seen := before, scannedBefore, cursor;
    while seen < cursor + page
      invariant cursor <= seen <= cursor + page && scanned == seen - start <= maxScan
      invariant collected == Picks(keep, start, seen) && |collected| < limit
      invariant seen > cursor ==> |Picks(keep, start, seen - 1)| < limit && seen - 1 - start < maxScan
    {
      scanned := scanned + 1;
      if scanned > maxScan {
        break;
      }
      seen := seen + 1;
      if keep[seen - 1] {
        collected := collected + [seen - 1];
        if |collected| >= limit {
          break;
        }
      }
    }
  }

  /** How the paged loop can stop after examining [start, seen). */
  ghost predicate Stopped(keep: seq<bool>, start: nat, seen: nat, limit: int, maxScan: int, exhausted: bool)
    requires start <= seen <= |keep|
  {
    var picked := |Picks(keep, start, seen)|;
    var size := PageSize(limit);
    && (exhausted ==> limit > 0 && maxScan > 0)
    && (seen > start ==> |Picks(keep, start, seen - 1)| < limit && seen - 1 - start < maxScan)
    && (picked >= limit || seen - start >= maxScan || seen == |keep|)
    && if exhausted then
         if seen == start then seen == |keep|
         else if |keep| - PageOf(start, seen - 1, size) < size then picked >= limit || seen == |keep|
         else picked < limit && seen == |keep| && seen - start < maxScan
       else if seen == start then limit <= 0 || maxScan <= 0
       else || (picked < limit && seen < |keep|)
            || ((picked >= limit || seen - start >= maxScan) && |keep| - PageOf(start, seen - 1, size) >= size)
  }

  lemma StoppedVerdict(keep: seq<bool>, start: nat, seen: nat, limit: int, maxScan: int, exhausted: bool)
    requires start <= seen <= |keep| && Stopped(keep, start, seen, limit, maxScan, exhausted)
    ensures seen == ScanEnd(keep, start, limit, maxScan)
    ensures exhausted == ReportsExhausted(keep, start, seen, limit, maxScan)
  {
    ScanEndIs(keep, start, limit, maxScan, seen);
  }

  /** The outer loop: fetch pages after the cursor until the limit, the budget or the tail. */
  method SweepPages(keep: seq<bool>, start: nat, limit: int, maxScan: int)
    returns (collected: seq<nat>, seen: nat, exhausted: bool)
    requires start <= |keep|
    ensures start <= seen <= |keep| && collected == Picks(keep, start, seen)
    ensures Stopped(keep, start, seen, limit, maxScan, exhausted)
  {
    var pageSize := PageSize(limit);
    collected, exhausted, seen := [], false, start;  // every row of [start, seen) has been examined
    var scanned, cursor := 0, start;
    while |collected| < limit && scanned < maxScan
      invariant start <= seen <= cursor <= |keep| && scanned == seen - start
      invariant collected == Picks(keep, start, seen)
      invariant |collected| < limit ==> seen == cursor && PageOf(start, cursor, pageSize) == cursor
      invariant seen > start ==> |Picks(keep, start, seen - 1)| < limit && seen - 1 - start < maxScan
      invariant seen > start ==> PageOf(start, seen - 1, pageSize) + pageSize <= |keep|
      decreases |keep| - cursor
    {
      var page := if |keep| - cursor < pageSize then |keep| - cursor else pageSize;
      if page == 0 {
        exhausted := true;
        return;
      }
      collected, scanned, seen := ScanPage(keep, start, cursor, page, limit, maxScan, collected, scanned);
      PageOfShifted(start, seen - 1, pageSize, cursor);
      if scanned > maxScan {
        return;
      }
      if page < pageSize {
        exhausted := true;
        return;
      }
      NextPageAligned(start, cursor, pageSize);
      cursor := cursor + page;
    }
  }

  /** Whole pages fetched through a cursor compute exactly the row-at-a-time reference. */
  method Sweep(keep: seq<bool>, limit: int, maxScan: int, resume: Option<nat>)
    returns (collected: seq<nat>, next: Option<nat>, exhausted: bool)
    ensures var start := Start(keep, resume);
      var end := ScanEnd(keep, start, limit, maxScan);
      && collected == Picks(keep, start, end)
      && exhausted == ReportsExhausted(keep, start, end, limit, maxScan)
      && next == NextCursor(keep, start, end, limit, maxScan)
  {
    var start, seen := Start(keep, resume), 0;
    collected, seen, exhausted := SweepPages(keep, start, limit, maxScan);
    StoppedVerdict(keep, start, seen, limit, maxScan, exhausted);
    next := if exhausted || seen == start then None else Some(seen - 1);
  }

  // ---------------------------------------------------------------- what one sweep promises

  lemma SweepIsBounded(keep: seq<bool>, start: nat, limit: nat, maxScan: nat)
    requires start <= |keep|
    ensures var end := ScanEnd(keep, start, limit, maxScan);
      end - start <= maxScan && |Picks(keep, start, end)| <= limit
  {
    ScanEndStays(keep, start, limit, maxScan);
  }

  /** A sweep that found fewer rows than asked for says `exhausted` only after examining the tail. */
  lemma ExhaustedBelowLimitReachedTheTail(keep: seq<bool>, start: nat, limit: int, maxScan: int)
    requires start <= |keep|
    ensures var end := ScanEnd(keep, start, limit, maxScan);
      ReportsExhausted(keep, start, end, limit, maxScan) && |Picks(keep, start, end)| < limit ==> end == |keep|
  {
    ScanEndStays(keep, start, limit, maxScan);
  }

  /** Row r is the one that fills the limit within the budget; it lies in a short last page and is not the last row. */
  predicate FillsInShortPage(keep: seq<bool>, start: nat, limit: int, maxScan: int, r: nat) {
    start <= r && r + 1 < |keep| && keep[r] && |Picks(keep, start, r)| == limit - 1 && r - start < maxScan
    && |keep| - PageOf(start, r, PageSize(limit)) < PageSize(limit)
  }

  /** Before the last examined row no bound had been reached. */
  lemma {:induction false} ScanEndIsFirst(keep: seq<bool>, at: nat, want: int, budget: int)
    requires at <= |keep|
    ensures var end := ScanEnd(keep, at, want, budget);
            end > at ==> |Picks(keep, at, end - 1)| < want && end - 1 - at < budget
    decreases |keep| - at
  {
    var end := ScanEnd(keep, at, want, budget);
    if end > at + 1 {
      var want' := if keep[at] then want - 1 else want;
      assert ScanEnd(keep, at + 1, want', budget - 1) == end;
      ScanEndIsFirst(keep, at + 1, want', budget - 1);
      PicksFromFront(keep, at, end - 1);
    }
  }

  /**
   * `exhausted` hides unexamined rows exactly when some row fills the limit inside a short last page with rows behind
   * it.
   */
  lemma ExhaustedHidesRowsExactlyWhen(keep: seq<bool>, start: nat, limit: int, maxScan: int)
    requires start <= |keep|
    ensures var end := ScanEnd(keep, start, limit, maxScan);
            ReportsExhausted(keep, start, end, limit, maxScan) && end < |keep|
            <==> exists r: nat :: FillsInShortPage(keep, start, limit, maxScan, r)
  {
    var end := ScanEnd(keep, start, limit, maxScan);
    ScanEndStays(keep, start, limit, maxScan);
    ScanEndIsFirst(keep, start, limit, maxScan);
    if ReportsExhausted(keep, start, end, limit, maxScan) && end < |keep| {
      assert FillsInShortPage(keep, start, limit, maxScan, end - 1);
    }
    forall r: nat | FillsInShortPage(keep, start, limit, maxScan, r)
      ensures end == r + 1 && ReportsExhausted(keep, start, end, limit, maxScan)
    {
      ScanEndIs(keep, start, limit, maxScan, r + 1);
    }
  }

  /** Witness: five rows, limit three; the fifth row is skipped and the cursor wraps to the top. */
  lemma ExhaustedCanHideARow()
    ensures var keep := [true, true, false, true, true];
      && ScanEnd(keep, 0, 3, 2000) == 4
      && ReportsExhausted(keep, 0, 4, 3, 2000)
      && NextCursor(keep, 0, 4, 3, 2000) == None
  {
    var keep := [true, true, false, true, true];
    assert Picks(keep, 0, 1) == [0];
    assert Picks(keep, 0, 2) == [0, 1];
    assert Picks(keep, 0, 3) == [0, 1];
    assert Picks(keep, 0, 4) == [0, 1, 3];
    ScanEndIs(keep, 0, 3, 2000, 4);
    assert PageOf(3, 3, 3) == 3;
    assert PageOf(0, 3, 3) == 3;
  }

  /** The cursor is sent back to the top without `exhausted` exactly when a bound is not positive. */
  lemma RewindsSilentlyExactlyWhen(keep: seq<bool>, start: nat, limit: int, maxScan: int)
    requires start <= |keep|
    ensures var end := ScanEnd(keep, start, limit, maxScan);
      NextCursor(keep, start, end, limit, maxScan) == None && !ReportsExhausted(keep, start, end, limit, maxScan)
      <==> limit <= 0 || maxScan <= 0
  {
    ScanEndStays(keep, start, limit, maxScan);
  }

  // ---------------------------------------------------------------- many pods, one cursor

  type PodId = nat

  datatype Pod =
    | Idle
    | HasRead(resume: Option<nat>, generation: nat)
    | HasSwept(generation: nat, window: Window)

  /** One sweep: where it started and the bounds it ran with. */
  datatype Window = Window(from: nat, limit: int, maxScan: int)

  function EndOf(keep: seq<bool>, w: Window): nat {
    if w.from <= |keep| then ScanEnd(keep, w.from, w.limit, w.maxScan) else w.from
  }

  function CursorAfter(keep: seq<bool>, w: Window): Option<nat> {
    if w.from <= |keep| then NextCursor(keep, w.from, EndOf(keep, w), w.limit, w.maxScan) else None
  }

  datatype World = World(
    resume: Option<nat>, generation: nat,   // the persisted document; absent reads as (None, 0)
    pods: map<PodId, Pod>,
    committed: seq<Window>)                 // windows of the successful advances, oldest first

  const INIT := World(None, 0, map[], [])

  datatype Action =
    | ReadCursor(p: PodId)
    | ReadFails(p: PodId)                   // the pod sweeps from the top with generation 0
    | RunSweep(p: PodId, limit: int, maxScan: int)
    | Advance(p: PodId)

  function PodOf(w: World, p: PodId): Pod {
    if p in w.pods then w.pods[p] else Idle
  }

  function Act(keep: seq<bool>, w: World, a: Action): World {
    match a
    case ReadCursor(p) => w.(pods := w.pods[p := HasRead(w.resume, w.generation)])
    case ReadFails(p) => w.(pods := w.pods[p := HasRead(None, 0)])
    case RunSweep(p, limit, maxScan) => (
      match PodOf(w, p)
      case HasRead(resume, g) => w.(pods := w.pods[p := HasSwept(g, Window(Start(keep, resume), limit, maxScan))])
      case _ => w)
    case Advance(p) => (
      match PodOf(w, p)
      case HasSwept(g, window) =>
        if g == w.generation then
          World(CursorAfter(keep, window), w.generation + 1, w.pods[p := Idle], w.committed + [window])
        else w.(pods := w.pods[p := Idle])
      case _ => w)
  }

  function Run(keep: seq<bool>, w: World, actions: seq<Action>): World
    decreases |actions|
  {
    if actions == [] then w else Run(keep, Act(keep, w, actions[0]), actions[1..])
  }

  /** Where the next window has to start. */
  function Frontier(keep: seq<bool>, committed: seq<Window>): nat {
    if committed == [] then 0 else Start(keep, CursorAfter(keep, committed[|committed| - 1]))
  }

  ghost predicate Tiled(keep: seq<bool>, committed: seq<Window>) {
    && (committed != [] ==> committed[0].from == 0)
    && (forall i :: 0 <= i < |committed| ==> committed[i].from <= |keep|)
    && forall i, j :: 0 <= i < |committed| - 1 && j == i + 1 ==>
         committed[j].from == Start(keep, CursorAfter(keep, committed[i]))
  }

  /** A pod still holding the current generation holds the current cursor. */
  ghost predicate FreshPod(keep: seq<bool>, w: World, pod: Pod) {
    match pod
    case Idle => true
    case HasRead(resume, g) => g <= w.generation && (g == w.generation ==> resume == w.resume)
    case HasSwept(g, window) => g <= w.generation && (g == w.generation ==> window.from == Start(keep, w.resume))
  }

  ghost predicate Inv(keep: seq<bool>, w: World) {
    && (forall p :: p in w.pods ==> FreshPod(keep, w, w.pods[p]))
    && |w.committed| == w.generation
    && (w.generation == 0 ==> w.resume == None)
    && Start(keep, w.resume) == Frontier(keep, w.committed)
    && Tiled(keep, w.committed)
  }

  lemma AdvanceKeepsInv(keep: seq<bool>, w: World, p: PodId)
    requires Inv(keep, w)
    ensures Inv(keep, Act(keep, w, Advance(p)))
  {
  }

  lemma ActKeepsInv(keep: seq<bool>, w: World, a: Action)
    requires Inv(keep, w)
    ensures Inv(keep, Act(keep, w, a))
  {
    if a.Advance? {
      AdvanceKeepsInv(keep, w, a.p);
    }
  }

  lemma {:induction false} RunKeepsInv(keep: seq<bool>, w: World, actions: seq<Action>)
    requires Inv(keep, w)
    ensures Inv(keep, Run(keep, w, actions))
    decreases |actions|
  {
    if actions != [] {
      ActKeepsInv(keep, w, actions[0]);
      RunKeepsInv(keep, Act(keep, w, actions[0]), actions[1..]);
    }
  }

  predicate Proper(w: Window) {
    w.limit > 0 && w.maxScan > 0
  }

  /** The next window starts exactly where this one stopped, or at the top after it wrapped. */
  lemma WindowsMeet(keep: seq<bool>, w: Window)
    requires w.from <= |keep|
    ensures w.from <= EndOf(keep, w) <= |keep|
    ensures CursorAfter(keep, w).Some? ==> Start(keep, CursorAfter(keep, w)) == EndOf(keep, w) > w.from
    ensures CursorAfter(keep, w).None? && Proper(w)
            ==> ReportsExhausted(keep, w.from, EndOf(keep, w), w.limit, w.maxScan)
  {
    ScanEndStays(keep, w.from, w.limit, w.maxScan);
  }

  lemma TilesMeet(keep: seq<bool>, c: seq<Window>, i: nat)
    requires Tiled(keep, c) && i + 1 < |c|
    ensures c[i].from <= EndOf(keep, c[i]) <= |keep|
    ensures CursorAfter(keep, c[i]).Some? ==> c[i + 1].from == EndOf(keep, c[i]) > c[i].from
    ensures CursorAfter(keep, c[i]).None? ==> c[i + 1].from == 0
  {
    WindowsMeet(keep, c[i]);
  }

  /**
   * Whatever the pods do and in whatever order, the windows of the successful advances tile the rows:
   * each starts where the previous one stopped (or at the top after a wrap), none goes back, and the
   * generation counts them.
   */
  lemma AdvancesTileTheRows(keep: seq<bool>, actions: seq<Action>, i: nat)
    requires var w := Run(keep, INIT, actions); i + 1 < |w.committed|
    ensures var w := Run(keep, INIT, actions);
      var a, b := w.committed[i], w.committed[i + 1];
      && |w.committed| == w.generation && w.committed[0].from == 0
      && a.from <= EndOf(keep, a) <= |keep|
      && (CursorAfter(keep, a).Some? ==> b.from == EndOf(keep, a) > a.from)
      && (CursorAfter(keep, a).None? ==> b.from == 0)
  {
    RunKeepsInv(keep, INIT, actions);
    var w := Run(keep, INIT, actions);
    TilesMeet(keep, w.committed, i);
  }

  /** Lap: consecutive windows, the first at the top and only the last one wrapping. */
  ghost predicate Lap(keep: seq<bool>, ws: seq<Window>) {
    && ws != [] && ws[0].from == 0
    && (forall i :: 0 <= i < |ws| ==> ws[i].from <= |keep|)
    && forall i :: 0 <= i < |ws| - 1 ==> CursorAfter(keep, ws[i]).Some? && ws[i + 1].from == EndOf(keep, ws[i])
  }

  lemma TilesBetweenWrapsFormALap(keep: seq<bool>, c: seq<Window>, i: nat, j: nat)
    requires Tiled(keep, c) && i <= j < |c|
    requires i == 0 || CursorAfter(keep, c[i - 1]).None?
    requires forall m :: i <= m < j ==> CursorAfter(keep, c[m]).Some?
    ensures Lap(keep, c[i..j + 1])
  {
    if i > 0 {
      TilesMeet(keep, c, i - 1);
    }
    var ws := c[i..j + 1];
    forall m | 0 <= m < |ws| - 1 ensures CursorAfter(keep, ws[m]).Some? && ws[m + 1].from == EndOf(keep, ws[m]) {
      TilesMeet(keep, c, i + m);
    }
  }

  /** In any run, the advances from one wrap to the next form a lap. */
  lemma AdvancesBetweenWrapsFormALap(keep: seq<bool>, actions: seq<Action>, i: nat, j: nat)
    requires var c := Run(keep, INIT, actions).committed;
      && i <= j < |c|
      && (i == 0 || CursorAfter(keep, c[i - 1]).None?)
      && forall m :: i <= m < j ==> CursorAfter(keep, c[m]).Some?
    ensures Lap(keep, Run(keep, INIT, actions).committed[i..j + 1])
  {
    RunKeepsInv(keep, INIT, actions);
    TilesBetweenWrapsFormALap(keep, Run(keep, INIT, actions).committed, i, j);
  }

  lemma {:induction false} LapCovers(keep: seq<bool>, ws: seq<Window>, row: nat) returns (m: nat)
    requires Lap(keep, ws) && row < EndOf(keep, ws[|ws| - 1])
    ensures m < |ws| && ws[m].from <= row < EndOf(keep, ws[m])
  {
    var last := |ws| - 1;
    WindowsMeet(keep, ws[last]);
    if row >= ws[last].from {
      m := last;
    } else {
      var front := ws[..last];
      assert ws[last - 1 + 1].from == EndOf(keep, ws[last - 1]);
      m := LapCovers(keep, front, row);
    }
  }

  /**
   * A full lap whose last window ended below its limit examines every row, and collects every
   * eligible row: repeated bounded sweeps cannot starve a later row behind an ineligible prefix.
   */
  lemma FullLapCollectsEveryEligibleRow(keep: seq<bool>, ws: seq<Window>, row: nat) returns (m: nat)
    requires Lap(keep, ws) && row < |keep| && keep[row]
    requires var last := ws[|ws| - 1];
      Proper(last) && CursorAfter(keep, last).None? && |Picks(keep, last.from, EndOf(keep, last))| < last.limit
    ensures m < |ws| && ws[m].from <= EndOf(keep, ws[m]) && row in Picks(keep, ws[m].from, EndOf(keep, ws[m]))
  {
    var last := ws[|ws| - 1];
    WindowsMeet(keep, last);
    ExhaustedBelowLimitReachedTheTail(keep, last.from, last.limit, last.maxScan);
    m := LapCovers(keep, ws, row);
    PicksExactly(keep, ws[m].from, EndOf(keep, ws[m]), row);
  }

  // ---------------------------------------------------------------- the cursor document

  // ---------------------------------------------------------------- sweeps make progress

  /**
   * An advance by a pod that still holds the current generation commits its window and moves the cursor; any other
   * moves nothing.
   */
  lemma OnlyTheHolderAdvances(keep: seq<bool>, w: World, p: PodId, g: nat, window: Window)
    requires PodOf(w, p) == HasSwept(g, window)
    ensures var w' := Act(keep, w, Advance(p));
            if g == w.generation
            then w'.committed == w.committed + [window] && w'.generation == w.generation + 1
            && w'.resume == CursorAfter(keep, window)
            else w'.committed == w.committed && w'.generation == w.generation && w'.resume == w.resume
  {
  }

  function PassOf(p: PodId, limit: int, maxScan: int): seq<Action> {
    [ReadCursor(p), RunSweep(p, limit, maxScan), Advance(p)]
  }

  /** A pod that is not interfered with commits the window that starts at the persisted cursor. */
  lemma UndisturbedPassCommits(keep: seq<bool>, w: World, p: PodId, limit: int, maxScan: int)
    ensures var w' := Run(keep, w, PassOf(p, limit, maxScan));
            var window := Window(Start(keep, w.resume), limit, maxScan);
            w'.committed == w.committed + [window] && w'.generation == w.generation + 1
            && w'.resume == CursorAfter(keep, window)
  {
    var a, b, c := ReadCursor(p), RunSweep(p, limit, maxScan), Advance(p);
    var w1 := Act(keep, w, a);
    var w2 := Act(keep, w1, b);
    assert PassOf(p, limit, maxScan)[1..] == [b, c] && [b, c][1..] == [c] && [c][1..] == [];
    assert Run(keep, w2, [c]) == Run(keep, Act(keep, w2, c), []);
    assert Run(keep, w, PassOf(p, limit, maxScan)) == Run(keep, w1, [b, c]) == Run(keep, w2, [c]);
    OnlyTheHolderAdvances(keep, w2, p, w.generation, Window(Start(keep, w.resume), limit, maxScan));
  }

  function Passes(p: PodId, limit: int, maxScan: int, n: nat): seq<Action> {
    if n == 0 then [] else PassOf(p, limit, maxScan) + Passes(p, limit, maxScan, n - 1)
  }

  lemma {:induction false} RunConcat(keep: seq<bool>, w: World, a: seq<Action>, b: seq<Action>)
    ensures Run(keep, w, a + b) == Run(keep, Run(keep, w, a), b)
    decreases |a|
  {
    if a == [] {
      assert a + b == b;
    } else {
      assert (a + b)[0] == a[0] && (a + b)[1..] == a[1..] + b;
      RunConcat(keep, Act(keep, w, a[0]), a[1..], b);
    }
  }

  /**
   * Passes with positive bounds cannot stall: the lap ends, with the cursor back at the top, after at most one pass
   * per row left.
   */
  lemma {:induction false} EveryLapEnds(keep: seq<bool>, w: World, p: PodId, limit: int, maxScan: int) returns (n: nat)
    requires limit > 0 && maxScan > 0
    ensures 1 <= n <= |keep| - Start(keep, w.resume) + 1
    ensures Run(keep, w, Passes(p, limit, maxScan, n)).resume == None
    decreases |keep| - Start(keep, w.resume)
  {
    var window, w' := Window(Start(keep, w.resume), limit, maxScan), Run(keep, w, PassOf(p, limit, maxScan));
    UndisturbedPassCommits(keep, w, p, limit, maxScan);
    WindowsMeet(keep, window);
    if w'.resume == None {
      n := 1;
      assert Passes(p, limit, maxScan, 0) == [];
      assert Passes(p, limit, maxScan, 1) == PassOf(p, limit, maxScan);
    } else {
      var m := EveryLapEnds(keep, w', p, limit, maxScan);
      n := m + 1;
      RunConcat(keep, w, PassOf(p, limit, maxScan), Passes(p, limit, maxScan, m));
    }
  }

  class SweepCursor {
    var resumeAfterPath: Option<nat>
    var generation: nat

    constructor ()
      ensures resumeAfterPath == None && generation == 0
    {
      resumeAfterPath, generation := None, 0;
    }

    /** Compare-and-swap on the generation; a stale writer changes nothing. */
    method AdvanceTo(expectedGeneration: nat, next: Option<nat>) returns (won: bool)
      modifies this
      ensures won <==> old(generation) == expectedGeneration
      ensures won ==> resumeAfterPath == next && generation == old(generation) + 1
      ensures !won ==> resumeAfterPath == old(resumeAfterPath) && generation == old(generation)
    {
      if generation != expectedGeneration {
        return false;
      }
      resumeAfterPath := next;
      generation := generation + 1;
      return true;
    }

    /** One reconciliation pass of one pod, run without interference. */
    method Pass(keep: seq<bool>, limit: int, maxScan: int) returns (collected: seq<nat>)
      modifies this
      ensures var start := Start(keep, old(resumeAfterPath));
        var end := ScanEnd(keep, start, limit, maxScan);
        && collected == Picks(keep, start, end)
        && resumeAfterPath == NextCursor(keep, start, end, limit, maxScan)
      ensures generation == old(generation) + 1
    {
      var next, exhausted;
      collected, next, exhausted := Sweep(keep, limit, maxScan, resumeAfterPath);
      var _ := AdvanceTo(generation, if exhausted then None else next);
    }
  }
}
