/** What every run keeps about one intent: one home, one delivery, one charge, and a bounded number of hand-outs. */
module ChatFirstDelivery {
  import opened Prelude
  import opened ChatFirstIntents

  // ---------------------------------------------------------------- shape of a row

  /**
   * Active rows are never dead letters; a dead letter has a reason and its bookkeeping; at most one requeue was
   * recorded.
   */
  predicate WellFormed(r: Row) {
    (r.active.Some? ==> r.active.value.state != DeadLetter)
    && (r.dead.Some? ==> r.dead.value.intent.state == DeadLetter && r.dead.value.intent.reason.Some? && r.attempt.Some?)
    && Attempts(r).requeues <= 1
  }

  predicate Exclusive(r: Row) { !(r.active.Some? && r.dead.Some?) }

  predicate IsDelivered(r: Row) { r.active.Some? && r.active.value.state == Delivered }

  lemma Elsewhere(s: State, op: Op, id: IntentId)
    requires Target(op) != Some(id)
    ensures At(Step(s, op), id) == At(s, id)
  {
  }

  predicate Releases(s: State, op: Op, id: IntentId) {
    op.DoRelease? && ReraiseId(op.deferral) == id && s.generation == op.generation == op.deferral.generation
    && op.deferral in s.deferrals && s.deferrals[op.deferral].pending
  }

  /**
   * A release puts a new intent under its id when the active collection has none, and otherwise leaves the row alone.
   */
  lemma ReleaseRow(s: State, op: Op, id: IntentId)
    requires op.DoRelease? && Target(op) == Some(id)
    ensures At(Step(s, op), id) ==
            if Releases(s, op, id) && At(s, id).active.None?
            then At(s, id).(active := Some(ReleasedIntent(s.deferrals[op.deferral], op.now))) else At(s, id)
  {
  }

  lemma HereRow(s: State, op: Op, id: IntentId)
    requires !op.DoRelease? && Target(op) == Some(id)
    ensures At(Step(s, op), id) == RowAfter(s, op, At(s, id))
  {
  }

  lemma RowAfterWellFormed(s: State, op: Op, r: Row)
    requires WellFormed(r)
    ensures WellFormed(RowAfter(s, op, r))
  {
  }

  lemma StepWellFormed(s: State, op: Op, id: IntentId)
    requires WellFormed(At(s, id))
    ensures WellFormed(At(Step(s, op), id))
  {
    if Target(op) != Some(id) {
      Elsewhere(s, op, id);
    } else if op.DoRelease? {
      ReleaseRow(s, op, id);
    } else {
      HereRow(s, op, id);
      RowAfterWellFormed(s, op, At(s, id));
    }
  }

  // ---------------------------------------------------------------- one home

  /** Creation by a path that does not look at the dead letters, while one exists. */
  predicate CreatesOverDeadLetter(s: State, op: Op, id: IntentId) {
    At(s, id).active.None? && At(s, id).dead.Some?
    && ((op.DoColdStart? && Target(op) == Some(id) && s.generation == op.generation
         && (op.source == ColdStartRich || op.source == ColdStartSparse))
        || Releases(s, op, id))
  }

  /** A step gives an intent a second home exactly when it creates over a dead letter. */
  lemma SecondHomeExactlyWhen(s: State, op: Op, id: IntentId)
    requires Exclusive(At(s, id))
    ensures !Exclusive(At(Step(s, op), id)) <==> CreatesOverDeadLetter(s, op, id)
  {
    if Target(op) != Some(id) {
      Elsewhere(s, op, id);
    } else if op.DoRelease? {
      ReleaseRow(s, op, id);
    } else {
      HereRow(s, op, id);
    }
  }

  /** Somewhere in the run the intent is created over its dead letter. */
  predicate CreatedOverDeadLetter(s: State, ops: seq<Op>, id: IntentId)
    decreases |ops|
  {
    ops != [] && (CreatesOverDeadLetter(s, ops[0], id) || CreatedOverDeadLetter(Step(s, ops[0]), ops[1..], id))
  }

  /** At no point of the run is the intent both active and dead-lettered. */
  predicate OneHomeThroughout(s: State, ops: seq<Op>, id: IntentId)
    decreases |ops|
  {
    Exclusive(At(s, id)) && (ops != [] ==> OneHomeThroughout(Step(s, ops[0]), ops[1..], id))
  }

  /** For every intent and every run: one home throughout, if and only if it is never created over its dead letter. */
  lemma {:induction false} OneHomeExactlyWhen(s: State, ops: seq<Op>, id: IntentId)
    requires Exclusive(At(s, id))
    ensures OneHomeThroughout(s, ops, id) <==> !CreatedOverDeadLetter(s, ops, id)
    decreases |ops|
  {
    if ops != [] {
      SecondHomeExactlyWhen(s, ops[0], id);
      if Exclusive(At(Step(s, ops[0]), id)) {
        OneHomeExactlyWhen(Step(s, ops[0]), ops[1..], id);
      }
    }
  }

  lemma {:induction false} OneHomeAtTheEnd(s: State, ops: seq<Op>, id: IntentId)
    requires Exclusive(At(s, id)) && !CreatedOverDeadLetter(s, ops, id)
    ensures Exclusive(At(Run(s, ops), id))
    decreases |ops|
  {
    if ops != [] {
      SecondHomeExactlyWhen(s, ops[0], id);
      OneHomeAtTheEnd(Step(s, ops[0]), ops[1..], id);
    }
  }

  // ---------------------------------------------------------------- who is never created over a dead letter

  /** A re-raised question exists only after its deferral was released, and a deferral is released once. */
  predicate RaisedOnce(s: State, id: IntentId) {
    id.key == Of(DeferralReraise) && (At(s, id).active.Some? || At(s, id).dead.Some?) ==>
      var d := DeferralId(id.generation, id.continuity); d in s.deferrals && !s.deferrals[d].pending
  }

  /** Not a `create_intent` call that itself re-raises this question. */
  predicate Ordinary(op: Op, id: IntentId) {
    op.DoCreate? && id.key == Of(DeferralReraise) ==> Target(op) != Some(id)
  }

  lemma StepKeepsRaisedOnce(s: State, op: Op, id: IntentId)
    requires RaisedOnce(s, id) && Ordinary(op, id)
    ensures RaisedOnce(Step(s, op), id)
  {
    if Target(op) != Some(id) {
      Elsewhere(s, op, id);
    } else if op.DoRelease? {
      ReleaseRow(s, op, id);
    } else {
      HereRow(s, op, id);
    }
  }

  lemma {:induction false} OrdinaryRunsNeverCreateOver(s: State, ops: seq<Op>, id: IntentId)
    requires RaisedOnce(s, id) && id.key != ColdStartKey && forall i | 0 <= i < |ops| :: Ordinary(ops[i], id)
    ensures !CreatedOverDeadLetter(s, ops, id)
    decreases |ops|
  {
    if ops != [] {
      StepKeepsRaisedOnce(s, ops[0], id);
      OrdinaryRunsNeverCreateOver(Step(s, ops[0]), ops[1..], id);
    }
  }

  /**
   * Intents made by `create_intent`, of whatever source but a re-raise, and re-raises made by deferral release
   * are never in both collections, in any run.
   */
  lemma NeverInBothCollections(ops: seq<Op>, id: IntentId)
    requires id.key != ColdStartKey
    requires id.key == Of(DeferralReraise) ==> forall i | 0 <= i < |ops| :: Ordinary(ops[i], id)
    ensures OneHomeThroughout(EMPTY, ops, id) && Exclusive(At(Run(EMPTY, ops), id))
  {
    OrdinaryRunsNeverCreateOver(EMPTY, ops, id);
    OneHomeExactlyWhen(EMPTY, ops, id);
    OneHomeAtTheEnd(EMPTY, ops, id);
  }

  // ---------------------------------------------------------------- delivery is final

  /** The row of a delivered intent changes exactly when a second, requeueable copy is moved over it. */
  lemma DeliveredChangesExactlyWhen(s: State, op: Op, id: IntentId)
    requires IsDelivered(At(s, id))
    ensures At(Step(s, op), id) != At(s, id)
            <==> op.DoRequeue? && op.id == id && op.generation == id.generation && Requeueable(At(s, id), op.now)
  {
    if Target(op) != Some(id) {
      Elsewhere(s, op, id);
    } else if op.DoRelease? {
      ReleaseRow(s, op, id);
    } else {
      HereRow(s, op, id);
    }
  }

  lemma {:induction false} DeliveredIsFinal(s: State, ops: seq<Op>, id: IntentId)
    requires IsDelivered(At(s, id)) && Exclusive(At(s, id))
    ensures At(Run(s, ops), id) == At(s, id)
    decreases |ops|
  {
    if ops != [] {
      DeliveredChangesExactlyWhen(s, ops[0], id);
      DeliveredIsFinal(Step(s, ops[0]), ops[1..], id);
    }
  }

  predicate BeyondRepair(r: Row) {
    r.active.None? && r.dead.Some? && r.attempt.Some? && r.dead.value.intent.reason.Some?
    && !(Transient(r.dead.value.intent.reason.value) && r.attempt.value.requeues == 0)
  }

  /**
   * A dead letter that is not transient, or was requeued already, changes exactly when the intent is created over it.
   */
  lemma BeyondRepairChangesExactlyWhen(s: State, op: Op, id: IntentId)
    requires BeyondRepair(At(s, id))
    ensures At(Step(s, op), id) != At(s, id) <==> CreatesOverDeadLetter(s, op, id)
  {
    if Target(op) != Some(id) {
      Elsewhere(s, op, id);
    } else if op.DoRelease? {
      ReleaseRow(s, op, id);
    } else {
      HereRow(s, op, id);
    }
  }

  /** So, for every intent, it is kept through every run without such a creation. */
  lemma {:induction false} BeyondRepairIsFinal(s: State, ops: seq<Op>, id: IntentId)
    requires BeyondRepair(At(s, id)) && !CreatedOverDeadLetter(s, ops, id)
    ensures At(Run(s, ops), id) == At(s, id)
    decreases |ops|
  {
    if ops != [] {
      BeyondRepairChangesExactlyWhen(s, ops[0], id);
      BeyondRepairIsFinal(Step(s, ops[0]), ops[1..], id);
    }
  }

  // ---------------------------------------------------------------- accounting

  /** The source stored under an id is the one hashed into it; a cold start never consumes budget. */
  predicate SourceFits(id: IntentId, i: Intent) {
    match id.key case Of(source) => i.source == source case ColdStartKey => !ConsumesBudget(i)
  }

  predicate SourcesFit(id: IntentId, r: Row) {
    (r.active.Some? ==> SourceFits(id, r.active.value)) && (r.dead.Some? ==> SourceFits(id, r.dead.value.intent))
  }

  predicate IsAgentTurn(id: IntentId) { id.key == Of(AgentJudgment) }

  /** Charged once if delivered as an agent turn, and otherwise not at all. */
  predicate ChargedRight(id: IntentId, r: Row) {
    r.charged == if IsAgentTurn(id) && IsDelivered(r) then 1 else 0
  }

  predicate Accounts(s: State, id: IntentId) {
    SourcesFit(id, At(s, id)) && WellFormed(At(s, id)) && ChargedRight(id, At(s, id))
    && (IsAgentTurn(id) ==> Exclusive(At(s, id)))
  }

  lemma RowSourcesFit(s: State, op: Op, id: IntentId, r: Row)
    requires Target(op) == Some(id) && SourcesFit(id, r)
    ensures SourcesFit(id, RowAfter(s, op, r))
  {
  }

  lemma RowChargedRight(s: State, op: Op, id: IntentId, r: Row)
    requires Target(op) == Some(id) && SourcesFit(id, r) && WellFormed(r) && ChargedRight(id, r)
             && (IsAgentTurn(id) ==> Exclusive(r))
    ensures ChargedRight(id, RowAfter(s, op, r))
  {
  }

  lemma StepAccounts(s: State, op: Op, id: IntentId)
    requires Accounts(s, id)
    ensures Accounts(Step(s, op), id)
  {
    StepWellFormed(s, op, id);
    if IsAgentTurn(id) {
      SecondHomeExactlyWhen(s, op, id);
    }
    if Target(op) != Some(id) {
      Elsewhere(s, op, id);
    } else if op.DoRelease? {
      ReleaseRow(s, op, id);
    } else {
      HereRow(s, op, id);
      RowSourcesFit(s, op, id, At(s, id));
      RowChargedRight(s, op, id, At(s, id));
    }
  }

  lemma {:induction false} RunAccounts(s: State, ops: seq<Op>, id: IntentId)
    requires Accounts(s, id)
    ensures Accounts(Run(s, ops), id)
    decreases |ops|
  {
    if ops != [] {
      StepAccounts(s, ops[0], id);
      RunAccounts(Step(s, ops[0]), ops[1..], id);
    }
  }

  /** In every run, the budget was charged exactly once for each delivered agent turn and never for anything else. */
  lemma ChargedExactlyOnceIfDelivered(ops: seq<Op>, id: IntentId)
    ensures At(Run(EMPTY, ops), id).charged == if IsAgentTurn(id) && IsDelivered(At(Run(EMPTY, ops), id)) then 1 else 0
  {
    RunAccounts(EMPTY, ops, id);
  }

  // ---------------------------------------------------------------- bounded delivery

  predicate HandsOut(s: State, op: Op, id: IntentId) {
    op.DoFetch? && op.id == id && op.generation == id.generation
    && FetchRow(At(s, id), op.now, op.reconcile).1.HandedOut?
  }

  predicate Requeues(s: State, op: Op, id: IntentId) {
    op.DoRequeue? && op.id == id && op.generation == id.generation && Requeueable(At(s, id), op.now)
  }

  function HandOuts(s: State, ops: seq<Op>, id: IntentId): nat
    decreases |ops|
  {
    if ops == [] then 0 else (if HandsOut(s, ops[0], id) then 1 else 0) + HandOuts(Step(s, ops[0]), ops[1..], id)
  }

  function RequeueCount(s: State, ops: seq<Op>, id: IntentId): nat
    decreases |ops|
  {
    if ops == [] then 0 else (if Requeues(s, ops[0], id) then 1 else 0) + RequeueCount(Step(s, ops[0]), ops[1..], id)
  }

  function Spent(r: Row): nat {
    var a := Attempts(r); 19 * a.requeues + if a.fetches < 19 then a.fetches else 19
  }

  lemma StepSpends(s: State, op: Op, id: IntentId)
    requires WellFormed(At(s, id))
    ensures Spent(At(s, id)) + (if HandsOut(s, op, id) then 1 else 0) <= Spent(At(Step(s, op), id))
    ensures Attempts(At(Step(s, op), id)).requeues
            == Attempts(At(s, id)).requeues + if Requeues(s, op, id) then 1 else 0
  {
    if Target(op) != Some(id) {
      Elsewhere(s, op, id);
    } else if op.DoRelease? {
      ReleaseRow(s, op, id);
    } else {
      HereRow(s, op, id);
    }
  }

  lemma {:induction false} RunSpends(s: State, ops: seq<Op>, id: IntentId)
    requires WellFormed(At(s, id))
    ensures WellFormed(At(Run(s, ops), id))
    ensures Spent(At(s, id)) + HandOuts(s, ops, id) <= Spent(At(Run(s, ops), id))
    ensures Attempts(At(Run(s, ops), id)).requeues == Attempts(At(s, id)).requeues + RequeueCount(s, ops, id)
    decreases |ops|
  {
    if ops != [] {
      StepSpends(s, ops[0], id);
      StepWellFormed(s, ops[0], id);
      RunSpends(Step(s, ops[0]), ops[1..], id);
    }
  }

  /** Any intent, cold starts included, is requeued at most once and handed out at most 38 times. */
  lemma AtMost38HandOutsAndOneRequeue(ops: seq<Op>, id: IntentId)
    ensures HandOuts(EMPTY, ops, id) <= 38 && RequeueCount(EMPTY, ops, id) <= 1
  {
    RunSpends(EMPTY, ops, id);
  }

  // ---------------------------------------------------------------- every intent reaches a terminal state

  /** Fetches and requeues that can still change the intent before it is delivered or beyond repair. */
  function Remaining(r: Row): nat {
    var a := Attempts(r);
    if IsDelivered(r) || BeyondRepair(r) then 0
    else if r.active.None? && r.dead.Some? then 21
    else (if a.requeues == 0 then 21 else 0) + if a.fetches < 19 then 20 - a.fetches else 1
  }

  /** A fetch that finds the intent live, or a requeue. */
  predicate Charges(s: State, op: Op, id: IntentId) {
    Requeues(s, op, id)
    || (op.DoFetch? && op.id == id && op.generation == id.generation
        && At(s, id).active.Some? && Live(At(s, id).active.value))
  }

  function ChargeOf(s: State, op: Op, id: IntentId): nat { if Charges(s, op, id) then 1 else 0 }

  lemma RowRemaining(s: State, op: Op, id: IntentId, r: Row)
    requires Target(op) == Some(id) && !op.DoRelease? && WellFormed(r) && Exclusive(r) && At(s, id) == r
    ensures Remaining(RowAfter(s, op, r)) + ChargeOf(s, op, id) <= Remaining(r) <==> !CreatesOverDeadLetter(s, op, id)
  {
  }

  /** The measure pays for every charged step, for every intent, exactly unless it is created over its dead letter. */
  lemma MeasureFallsExactlyUnless(s: State, op: Op, id: IntentId)
    requires WellFormed(At(s, id)) && Exclusive(At(s, id))
    ensures Remaining(At(Step(s, op), id)) + ChargeOf(s, op, id) <= Remaining(At(s, id))
            <==> !CreatesOverDeadLetter(s, op, id)
  {
    if Target(op) != Some(id) {
      Elsewhere(s, op, id);
    } else if op.DoRelease? {
      ReleaseRow(s, op, id);
    } else {
      HereRow(s, op, id);
      RowRemaining(s, op, id, At(s, id));
    }
  }

  function ChargeCount(s: State, ops: seq<Op>, id: IntentId): nat
    decreases |ops|
  {
    if ops == [] then 0 else ChargeOf(s, ops[0], id) + ChargeCount(Step(s, ops[0]), ops[1..], id)
  }

  lemma {:induction false} RunRemaining(s: State, ops: seq<Op>, id: IntentId)
    requires WellFormed(At(s, id)) && Exclusive(At(s, id)) && !CreatedOverDeadLetter(s, ops, id)
    ensures ChargeCount(s, ops, id) + Remaining(At(Run(s, ops), id)) <= Remaining(At(s, id))
    decreases |ops|
  {
    if ops != [] {
      MeasureFallsExactlyUnless(s, ops[0], id);
      StepWellFormed(s, ops[0], id);
      SecondHomeExactlyWhen(s, ops[0], id);
      RunRemaining(Step(s, ops[0]), ops[1..], id);
    }
  }

  /**
   * Every intent, cold starts and re-raises included, in every run that never creates it over its dead letter:
   * the measure starts at 41, pays for every charged step, and is zero exactly when it is delivered or beyond repair.
   */
  lemma EveryIntentTerminates(ops: seq<Op>, id: IntentId)
    requires !CreatedOverDeadLetter(EMPTY, ops, id)
    ensures ChargeCount(EMPTY, ops, id) + Remaining(At(Run(EMPTY, ops), id)) <= 41
    ensures Remaining(At(Run(EMPTY, ops), id)) == 0
            <==> IsDelivered(At(Run(EMPTY, ops), id)) || BeyondRepair(At(Run(EMPTY, ops), id))
  {
    RunRemaining(EMPTY, ops, id);
  }

  // ---------------------------------------------------------------- why an intent was parked

  /** Every dead letter carries the evidence for its reason. */
  predicate Deserved(t: Tombstone) {
    t.intent.reason.Some?
    && match t.intent.reason.value
       case Unacknowledged => t.attempt.fetches >= FETCH_BUDGET && t.attempt.requeues == 0
       case AfterRequeue => t.attempt.fetches >= FETCH_BUDGET && t.attempt.requeues > 0
       case DeferredBeyondBudget => t.attempt.firstDeferred.Some? && t.attempt.lastDeferred.Some?
                                    && t.attempt.lastDeferred.value - t.attempt.firstDeferred.value >= DEFERRAL_BUDGET
       case PermanentRejection(code) =>
         PermanentCode(code) && t.attempt.rejections >= REJECTION_BUDGET && t.attempt.lastCode == Some(code)
  }

  predicate DeadDeserved(r: Row) { r.dead.Some? ==> Deserved(r.dead.value) }

  lemma StepKeepsDeserved(s: State, op: Op, id: IntentId)
    requires DeadDeserved(At(s, id))
    ensures DeadDeserved(At(Step(s, op), id))
  {
    if Target(op) != Some(id) {
      Elsewhere(s, op, id);
    } else if op.DoRelease? {
      ReleaseRow(s, op, id);
    } else {
      HereRow(s, op, id);
    }
  }

  /** In every run, no intent is parked before the budget its reason names was spent. */
  lemma {:induction false} NoIntentIsParkedEarly(s: State, ops: seq<Op>, id: IntentId)
    requires DeadDeserved(At(s, id))
    ensures DeadDeserved(At(Run(s, ops), id))
    decreases |ops|
  {
    if ops != [] {
      StepKeepsDeserved(s, ops[0], id);
      NoIntentIsParkedEarly(Step(s, ops[0]), ops[1..], id);
    }
  }

  predicate SpentBudget(a: Attempt) { a.fetches >= FETCH_BUDGET || a.rejections >= REJECTION_BUDGET }

  /** A live intent still has fetches and rejections left. */
  predicate InBudget(r: Row) {
    r.active.Some? && Live(r.active.value) ==> !SpentBudget(Attempts(r))
  }

  /** Only a row that was born has bookkeeping. */
  predicate BookedIfBorn(r: Row) { r.active.None? && r.dead.None? ==> r.attempt.None? }

  /** The intent comes back to life over a dead letter that had used up a budget. */
  predicate RevivesSpent(s: State, op: Op, id: IntentId) {
    CreatesOverDeadLetter(s, op, id) && SpentBudget(Attempts(At(s, id)))
  }

  lemma RowBudget(s: State, op: Op, id: IntentId, r: Row)
    requires Target(op) == Some(id) && !op.DoRelease? && BookedIfBorn(r) && InBudget(r) && WellFormed(r)
             && At(s, id) == r
    ensures BookedIfBorn(RowAfter(s, op, r))
    ensures !InBudget(RowAfter(s, op, r)) <==> RevivesSpent(s, op, id)
  {
  }

  /**
   * For every intent, cold starts included: a step leaves it live beyond a budget exactly when it revives a spent
   * dead letter.
   */
  lemma OutOfBudgetExactlyWhen(s: State, op: Op, id: IntentId)
    requires BookedIfBorn(At(s, id)) && InBudget(At(s, id)) && WellFormed(At(s, id))
    ensures BookedIfBorn(At(Step(s, op), id))
    ensures !InBudget(At(Step(s, op), id)) <==> RevivesSpent(s, op, id)
  {
    if Target(op) != Some(id) {
      Elsewhere(s, op, id);
    } else if op.DoRelease? {
      ReleaseRow(s, op, id);
    } else {
      HereRow(s, op, id);
      RowBudget(s, op, id, At(s, id));
    }
  }

  predicate RevivedSpent(s: State, ops: seq<Op>, id: IntentId)
    decreases |ops|
  {
    ops != [] && (RevivesSpent(s, ops[0], id) || RevivedSpent(Step(s, ops[0]), ops[1..], id))
  }

  predicate InBudgetThroughout(s: State, ops: seq<Op>, id: IntentId)
    decreases |ops|
  {
    InBudget(At(s, id)) && (ops != [] ==> InBudgetThroughout(Step(s, ops[0]), ops[1..], id))
  }

  lemma {:induction false} RunBudget(s: State, ops: seq<Op>, id: IntentId)
    requires BookedIfBorn(At(s, id)) && InBudget(At(s, id)) && WellFormed(At(s, id))
    ensures InBudgetThroughout(s, ops, id) <==> !RevivedSpent(s, ops, id)
    decreases |ops|
  {
    if ops != [] {
      OutOfBudgetExactlyWhen(s, ops[0], id);
      StepWellFormed(s, ops[0], id);
      if InBudget(At(Step(s, ops[0]), id)) {
        RunBudget(Step(s, ops[0]), ops[1..], id);
      }
    }
  }

  /**
   * Over any run, an intent is at no point live with 20 fetches or 3 permanent rejections
   * if and only if it is never created over a dead letter that had used up one of these budgets.
   */
  lemma NoIntentOutlivesItsBudgets(ops: seq<Op>, id: IntentId)
    ensures InBudgetThroughout(EMPTY, ops, id) <==> !RevivedSpent(EMPTY, ops, id)
  {
    RunBudget(EMPTY, ops, id);
  }
}
