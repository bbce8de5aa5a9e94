/** Concrete runs: where the claims about intents stop holding, and that the hand-out bound is reached. */
module ChatFirstWitnesses {
  import opened Prelude
  import opened ChatFirstIntents
  import opened ChatFirstDelivery

  function Repeat(op: Op, n: nat): seq<Op> { if n == 0 then [] else [op] + Repeat(op, n - 1) }

  lemma {:induction false} RunConcat(s: State, a: seq<Op>, b: seq<Op>, id: IntentId)
    ensures Run(s, a + b) == Run(Run(s, a), b)
    ensures HandOuts(s, a + b, id) == HandOuts(s, a, id) + HandOuts(Run(s, a), b, id)
    decreases |a|
  {
    if a == [] {
      assert a + b == b;
    } else {
      assert (a + b)[0] == a[0] && (a + b)[1..] == a[1..] + b;
      RunConcat(Step(s, a[0]), a[1..], b, id);
    }
  }

  lemma RunOne(s: State, op: Op, id: IntentId)
    ensures Run(s, [op]) == Step(s, op) && HandOuts(s, [op], id) == if HandsOut(s, op, id) then 1 else 0
  {
    assert [op][1..] == [];
    assert Run(Step(s, op), []) == Step(s, op);
  }

  function Fetch(id: IntentId): Op { DoFetch(id, id.generation, false, 0) }

  /** Below the budget every fetch hands the live intent out and is counted. */
  lemma {:induction false} FetchesHandOut(s: State, id: IntentId, n: nat)
    requires At(s, id).active.Some? && Live(At(s, id).active.value) && Attempts(At(s, id)).fetches + n < FETCH_BUDGET
    ensures var s' := Run(s, Repeat(Fetch(id), n)); var a := Attempts(At(s, id));
            s'.generation == s.generation && HandOuts(s, Repeat(Fetch(id), n), id) == n
            && At(s', id).active == At(s, id).active && At(s', id).dead == At(s, id).dead
            && Attempts(At(s', id)).fetches == a.fetches + n && Attempts(At(s', id)).requeues == a.requeues
            && Attempts(At(s', id)).lastRejected == a.lastRejected
    decreases n
  {
    if n > 0 {
      var op, rest := Fetch(id), Repeat(Fetch(id), n - 1);
      assert Repeat(op, n)[1..] == rest;
      HereRow(s, op, id);
      FetchesHandOut(Step(s, op), id, n - 1);
    }
  }

  /** One more fetch buries the intent as transient, stamped with the fetch time. */
  lemma LastFetchBuries(s: State, id: IntentId)
    requires At(s, id).active.Some? && Live(At(s, id).active.value)
    requires Attempts(At(s, id)).fetches == FETCH_BUDGET - 1 && Attempts(At(s, id)).requeues == 0
    ensures var r := At(Step(s, Fetch(id)), id);
            Step(s, Fetch(id)).generation == s.generation && r.active.None? && r.dead.Some?
            && r.dead.value.intent.reason == Some(Unacknowledged)
            && r.attempt == Some(Attempts(At(s, id)).(fetches := FETCH_BUDGET, lastFetched := Some(0)))
            && !HandsOut(s, Fetch(id), id)
  {
    HereRow(s, Fetch(id), id);
  }

  predicate BuriedAtZero(r: Row) {
    r.active.None? && r.dead.Some? && r.dead.value.intent.reason == Some(Unacknowledged) && r.attempt.Some?
    && r.attempt.value.requeues == 0 && r.attempt.value.lastRejected.None? && r.attempt.value.lastFetched == Some(0)
  }

  predicate Untouched(s: State, id: IntentId) {
    s.generation == 0 && At(s, id).active.Some? && Live(At(s, id).active.value) && At(s, id).dead.None?
    && At(s, id).attempt.None?
  }

  lemma TwentyFetchesBury(s: State, id: IntentId)
    requires Untouched(s, id)
    ensures var ops := Repeat(Fetch(id), 19) + [Fetch(id)];
            Run(s, ops).generation == 0 && BuriedAtZero(At(Run(s, ops), id)) && HandOuts(s, ops, id) == 19
  {
    FetchesHandOut(s, id, 19);
    var s' := Run(s, Repeat(Fetch(id), 19));
    LastFetchBuries(s', id);
    RunConcat(s, Repeat(Fetch(id), 19), [Fetch(id)], id);
    RunOne(s', Fetch(id), id);
  }

  // ---------------------------------------------------------------- the bound is reached

  function BusyLife(id: IntentId): seq<Op> {
    [DoCreate(0, DailyOpener, id.continuity, None, [], true, 0)] + (Repeat(Fetch(id), 19) + [Fetch(id)])
    + [DoRequeue(id, 0, REPAIR_AGE)] + Repeat(Fetch(id), 19)
  }

  lemma BoundIsReached(id: IntentId)
    requires id.generation == 0 && id.key == Of(DailyOpener)
    ensures HandOuts(EMPTY, BusyLife(id), id) == 38
  {
    var create, requeue := DoCreate(0, DailyOpener, id.continuity, None, [], true, 0), DoRequeue(id, 0, REPAIR_AGE);
    var fetches := Repeat(Fetch(id), 19) + [Fetch(id)];
    RunOne(EMPTY, create, id);
    HereRow(EMPTY, create, id);
    var s1 := Step(EMPTY, create);
    TwentyFetchesBury(s1, id);
    var s2 := Run(s1, fetches);
    RunConcat(EMPTY, [create], fetches, id);
    RequeueRevives(s2, id);
    var s3 := Step(s2, requeue);
    RunOne(s2, requeue, id);
    RunConcat(EMPTY, [create] + fetches, [requeue], id);
    FetchesHandOut(s3, id, 19);
    RunConcat(EMPTY, [create] + fetches + [requeue], Repeat(Fetch(id), 19), id);
  }

  lemma RequeueRevives(s: State, id: IntentId)
    requires BuriedAtZero(At(s, id)) && id.generation == 0
    ensures var op := DoRequeue(id, 0, REPAIR_AGE); var r := At(Step(s, op), id);
            r.active.Some? && r.active.value.state == Ready && Attempts(r).fetches == 0 && !HandsOut(s, op, id)
  {
    HereRow(s, DoRequeue(id, 0, REPAIR_AGE), id);
  }

  // ---------------------------------------------------------------- the cold start is not protected

  function ColdStart(k: string): Op { DoColdStart(0, ColdStartRich, k, None, [], 0) }

  /** Dead-lettered, started again, acknowledged: the intent is delivered while its dead letter waits. */
  function SecondColdStart(k: string): seq<Op> {
    var id := IntentId(0, ColdStartKey, k);
    [ColdStart(k)] + (Repeat(Fetch(id), 19) + [Fetch(id)]) + [ColdStart(k)] + [DoAck(id, 0, "receipt", 0)]
  }

  /** For a cold start both claims fail: it is in both collections, and the repair then reopens what was delivered. */
  lemma ColdStartCanBeReopenedAfterDelivery(k: string)
    ensures var id := IntentId(0, ColdStartKey, k); var s := Run(EMPTY, SecondColdStart(k));
            var s' := Step(s, DoRequeue(id, 0, REPAIR_AGE));
            !Exclusive(At(s, id)) && IsDelivered(At(s, id)) && !IsDelivered(At(s', id)) && At(s', id).active.Some?
  {
    var id := IntentId(0, ColdStartKey, k);
    var fetches, ack := Repeat(Fetch(id), 19) + [Fetch(id)], DoAck(id, 0, "receipt", 0);
    RunOne(EMPTY, ColdStart(k), id);
    HereRow(EMPTY, ColdStart(k), id);
    var s1 := Step(EMPTY, ColdStart(k));
    TwentyFetchesBury(s1, id);
    RunConcat(EMPTY, [ColdStart(k)], fetches, id);
    var s2 := Run(s1, fetches);
    HereRow(s2, ColdStart(k), id);
    RunOne(s2, ColdStart(k), id);
    RunConcat(EMPTY, [ColdStart(k)] + fetches, [ColdStart(k)], id);
    var s3 := Step(s2, ColdStart(k));
    HereRow(s3, ack, id);
    RunOne(s3, ack, id);
    RunConcat(EMPTY, [ColdStart(k)] + fetches + [ColdStart(k)], [ack], id);
    var s4 := Step(s3, ack);
    HereRow(s4, DoRequeue(id, 0, REPAIR_AGE), id);
  }

  // ---------------------------------------------------------------- a cold start can be fetched for ever

  /** Start the intent again over its dead letter and fetch it, n times over. */
  function RestartAndFetch(k: string, n: nat): seq<Op> {
    if n == 0 then [] else [ColdStart(k), Fetch(IntentId(0, ColdStartKey, k))] + RestartAndFetch(k, n - 1)
  }

  /** Dead-lettered with all its fetches used up. */
  predicate SpentAndBuried(s: State, id: IntentId) {
    s.generation == 0 && At(s, id).active.None? && At(s, id).dead.Some? && Attempts(At(s, id)).fetches >= FETCH_BUDGET
  }

  /** One round: a live intent beyond its budget, one charged fetch, and the same situation again. */
  lemma OneRound(s: State, k: string)
    requires SpentAndBuried(s, IntentId(0, ColdStartKey, k))
    ensures var id := IntentId(0, ColdStartKey, k); var s1 := Step(s, ColdStart(k)); var s2 := Step(s1, Fetch(id));
            CreatesOverDeadLetter(s, ColdStart(k), id) && !InBudget(At(s1, id)) && SpentAndBuried(s2, id)
            && !Charges(s, ColdStart(k), id) && Charges(s1, Fetch(id), id)
  {
    var id := IntentId(0, ColdStartKey, k);
    HereRow(s, ColdStart(k), id);
    HereRow(Step(s, ColdStart(k)), Fetch(id), id);
  }

  lemma {:induction false} RoundsAreCharged(s: State, k: string, n: nat)
    requires SpentAndBuried(s, IntentId(0, ColdStartKey, k))
    ensures ChargeCount(s, RestartAndFetch(k, n), IntentId(0, ColdStartKey, k)) == n
    decreases n
  {
    if n > 0 {
      var id := IntentId(0, ColdStartKey, k);
      var ops, s1 := RestartAndFetch(k, n), Step(s, ColdStart(k));
      OneRound(s, k);
      RoundsAreCharged(Step(s1, Fetch(id)), k, n - 1);
      assert ops[1..] == [Fetch(id)] + RestartAndFetch(k, n - 1);
      assert ops[1..][1..] == RestartAndFetch(k, n - 1);
      assert ChargeCount(s1, ops[1..], id) == 1 + ChargeCount(Step(s1, Fetch(id)), ops[1..][1..], id);
    }
  }

  lemma {:induction false} ChargesOfConcat(s: State, a: seq<Op>, b: seq<Op>, id: IntentId)
    ensures ChargeCount(s, a + b, id) == ChargeCount(s, a, id) + ChargeCount(Run(s, a), b, id)
    decreases |a|
  {
    if a == [] {
      assert a + b == b;
    } else {
      assert (a + b)[0] == a[0] && (a + b)[1..] == a[1..] + b;
      ChargesOfConcat(Step(s, a[0]), a[1..], b, id);
    }
  }

  lemma FirstColdStartIsBuried(k: string)
    ensures var id := IntentId(0, ColdStartKey, k);
            SpentAndBuried(Run(EMPTY, [ColdStart(k)] + (Repeat(Fetch(id), 19) + [Fetch(id)])), id)
  {
    var id := IntentId(0, ColdStartKey, k);
    var s := Step(EMPTY, ColdStart(k));
    RunOne(EMPTY, ColdStart(k), id);
    HereRow(EMPTY, ColdStart(k), id);
    FetchesHandOut(s, id, 19);
    var s' := Run(s, Repeat(Fetch(id), 19));
    LastFetchBuries(s', id);
    RunConcat(s, Repeat(Fetch(id), 19), [Fetch(id)], id);
    RunOne(s', Fetch(id), id);
    RunConcat(EMPTY, [ColdStart(k)], Repeat(Fetch(id), 19) + [Fetch(id)], id);
  }

  /**
   * No bound holds for a cold start created over its dead letter: for every n some run charges it more than n times.
   */
  lemma ColdStartIsChargedWithoutBound(k: string, n: nat)
    ensures var id := IntentId(0, ColdStartKey, k); var first := [ColdStart(k)] + (Repeat(Fetch(id), 19) + [Fetch(id)]);
            ChargeCount(EMPTY, first + RestartAndFetch(k, n + 1), id) > n
            && !InBudget(At(Step(Run(EMPTY, first), ColdStart(k)), id))
  {
    var id := IntentId(0, ColdStartKey, k);
    var first := [ColdStart(k)] + (Repeat(Fetch(id), 19) + [Fetch(id)]);
    FirstColdStartIsBuried(k);
    RoundsAreCharged(Run(EMPTY, first), k, n + 1);
    ChargesOfConcat(EMPTY, first, RestartAndFetch(k, n + 1), id);
    OneRound(Run(EMPTY, first), k);
  }

  // ---------------------------------------------------------------- nor is a re-raise made by create_intent

  function Reject(id: IntentId): Op { DoReject(id, id.generation, "invalid_intent", 0) }

  function RaisedTwice(k: string): seq<Op> {
    var id := IntentId(0, Of(DeferralReraise), k);
    [DoCreate(0, DeferralReraise, k, None, [], true, 0), Reject(id), Reject(id), Reject(id),
     DoRecordDeferral(0, k, "subject", "question", 0), DoRelease(DeferralId(0, k), 0, 0)]
  }

  lemma RunCons(s: State, op: Op, rest: seq<Op>)
    ensures Run(s, [op] + rest) == Run(Step(s, op), rest)
  {
    assert ([op] + rest)[1..] == rest;
  }

  lemma ThirdRejectionBuries(s: State, id: IntentId)
    requires s.generation == 0 == id.generation && At(s, id).active.Some? && Live(At(s, id).active.value)
             && At(s, id).attempt.None?
    ensures var s' := Step(Step(Step(s, Reject(id)), Reject(id)), Reject(id));
            s'.generation == 0 && s'.deferrals == s.deferrals && At(s', id).active.None? && At(s', id).dead.Some?
  {
    var s1 := Step(s, Reject(id));
    var s2 := Step(s1, Reject(id));
    HereRow(s, Reject(id), id);
    HereRow(s1, Reject(id), id);
    HereRow(s2, Reject(id), id);
  }

  /** A question re-raised by `create_intent`, parked, and then re-raised by its deferral is in both collections. */
  lemma ReraiseByCreateGetsASecondHome(k: string)
    ensures !Exclusive(At(Run(EMPTY, RaisedTwice(k)), IntentId(0, Of(DeferralReraise), k)))
  {
    var id, d := IntentId(0, Of(DeferralReraise), k), DeferralId(0, k);
    var create := DoCreate(0, DeferralReraise, k, None, [], true, 0);
    var record, release := DoRecordDeferral(0, k, "subject", "question", 0), DoRelease(d, 0, 0);
    var s1 := Step(EMPTY, create);
    HereRow(EMPTY, create, id);
    ThirdRejectionBuries(s1, id);
    var s4 := Step(Step(Step(s1, Reject(id)), Reject(id)), Reject(id));
    var s5 := Step(s4, record);
    Elsewhere(s4, record, id);
    ReleaseRow(s5, release, id);
    RunCons(EMPTY, create, [Reject(id), Reject(id), Reject(id), record, release]);
    RunCons(s1, Reject(id), [Reject(id), Reject(id), record, release]);
    RunCons(Step(s1, Reject(id)), Reject(id), [Reject(id), record, release]);
    RunCons(Step(Step(s1, Reject(id)), Reject(id)), Reject(id), [record, release]);
    RunCons(s4, record, [release]);
    RunCons(s5, release, []);
  }
}
