/** What each intent operation answers and writes, in terms of the stored fields and the documented limits. */
module ChatFirstAnswers {
  import opened Prelude
  import opened ChatFirstIntents

  // ---------------------------------------------------------------- creation

  /** The new intent says what the caller said, is deliverable, and was neither delivered nor parked. */
  predicate CarriesRequest(i: Intent, source: Source, subject: Option<string>, blocks: seq<string>, now: Time) {
    i.source == source && i.subject == subject && i.blocks == blocks && i.createdAt == now
    && i.deliveredAt == None && i.receipt == None && i.reason == None
  }

  /**
   * `create_intent` makes a ready intent exactly if neither collection has one and the budget, if it is asked, admits
   * it.
   */
  lemma CreationMakesAnIntentExactlyWhen(r: Row, source: Source, subject: Option<string>, blocks: seq<string>,
                                         admits: bool,
                                         now: Time)
    ensures var o := CreateRow(r, source, subject, blocks, admits, now);
            if r.active.None? && r.dead.None? && (source == AgentJudgment ==> admits)
            then o.1.Ok? && o.1.value.1 && o.0 == r.(active := Some(o.1.value.0)) && o.1.value.0.state == Ready
                 && CarriesRequest(o.1.value.0, source, subject, blocks, now)
            else
              o.0 == r && (o.1.Ok? ==> !o.1.value.1)
              && (r.active.None? && r.dead.None? ==> o.1 == Err(BudgetExhausted))
  {
  }

  /** A repeat is answered with the stored intent, active or parked, exactly if its content is the same. */
  lemma RepeatedCreationAnswersTheStoredIntent(r: Row, source: Source, subject: Option<string>, blocks: seq<string>,
                                               admits: bool, now: Time)
    requires r.active.Some? || r.dead.Some?
    ensures var i := if r.active.Some? then r.active.value else r.dead.value.intent;
            CreateRow(r, source, subject, blocks, admits, now).1
            == if i.source == source && i.subject == subject && i.blocks == blocks then Ok((i, false))
                 else Err(Conflict)
  {
  }

  /**
   * A cold start makes a pending-receipt intent exactly if no active one exists; otherwise the first one is returned.
   */
  lemma ColdStartMakesAnIntentExactlyWhen(r: Row, source: Source, subject: Option<string>, blocks: seq<string>,
                                          now: Time)
    requires source == ColdStartRich || source == ColdStartSparse
    ensures var o := ColdStartRow(r, source, subject, blocks, now);
            if r.active.None?
            then o.1.Ok? && o.1.value.1 && o.0 == r.(active := Some(o.1.value.0))
                 && o.1.value.0.state == PendingKernelReceipt
                 && CarriesRequest(o.1.value.0, source, subject, blocks, now)
            else
              o.0 == r
              && (r.active.value.source in {ColdStartRich, ColdStartSparse} ==> o.1 == Ok((r.active.value, false)))
              && (r.active.value.source !in {ColdStartRich, ColdStartSparse} ==> o.1 == Err(Conflict))
  {
  }

  lemma OtherSourcesAreNoColdStart(r: Row, source: Source, subject: Option<string>, blocks: seq<string>, now: Time)
    requires source != ColdStartRich && source != ColdStartSparse
    ensures ColdStartRow(r, source, subject, blocks, now) == (r, Err(Invalid))
  {
  }

  // ---------------------------------------------------------------- delivery

  predicate Deliverable(r: Row) {
    r.active.Some? && (r.active.value.state == Ready || r.active.value.state == PendingKernelReceipt)
  }

  function FetchesOf(r: Row): nat { if r.attempt.Some? then r.attempt.value.fetches else 0 }
  function RequeuesOf(r: Row): nat { if r.attempt.Some? then r.attempt.value.requeues else 0 }
  function RejectionsOf(r: Row): nat { if r.attempt.Some? then r.attempt.value.rejections else 0 }

  /** One more fetch at this time is on record, and nothing else of the bookkeeping moved. */
  predicate FetchRecorded(r: Row, r': Row, now: Time) {
    r'.attempt.Some? && r'.attempt.value.fetches == FetchesOf(r) + 1 && r'.attempt.value.lastFetched == Some(now)
    && r'.attempt.value.requeues == RequeuesOf(r) && r'.attempt.value.rejections == RejectionsOf(r)
    && (r.attempt.Some? ==> r'.attempt.value.lastRejected == r.attempt.value.lastRejected
                            && r'.attempt.value.lastCode == r.attempt.value.lastCode
                            && r'.attempt.value.firstDeferred == r.attempt.value.firstDeferred
                            && r'.attempt.value.lastDeferred == r.attempt.value.lastDeferred)
  }

  /** The active row moved to the dead letters under this reason, its content and bookkeeping with it. */
  predicate ParkedAs(r: Row, r': Row, reason: Reason) {
    r.active.Some? && r'.active == None && r'.dead.Some? && r'.attempt.Some? && r'.charged == r.charged
    && r'.dead.value.intent == r.active.value.(state := DeadLetter, reason := Some(reason))
    && r'.dead.value.attempt.(lastFetched := None) == r'.attempt.value.(lastFetched := None)
    && r'.dead.value.attempt.lastFetched.Some?
  }

  /** The active row is delivered with this receipt and time, and charged once if it is an agent turn. */
  predicate DeliveredAs(r: Row, r': Row, receipt: Receipt, now: Time) {
    r.active.Some? && r'.active.Some? && r'.dead == r.dead
    && r'.active.value
      == r.active.value.(state := Delivered, deliveredAt := Some(now), receipt := Some(receipt), reason := None)
    && r'.charged == r.charged + if r.active.value.source == AgentJudgment then 1 else 0
  }

  /** A deliverable intent is handed out on its first nineteen fetches and parked on the twentieth. */
  lemma FetchHandsOutOrParks(r: Row, now: Time)
    requires Deliverable(r)
    ensures var o := FetchRow(r, now, false);
            FetchRecorded(r, o.0, now)
            && if FetchesOf(r) < 19 then o.1 == HandedOut(r.active.value) && o.0.(attempt := r.attempt) == r
               else
                 var reason := if RequeuesOf(r) == 0 then Unacknowledged else AfterRequeue;
                 o.1 == Parked(reason) && ParkedAs(r, o.0, reason) && o.0.dead.value.attempt.lastFetched == Some(now)
  {
  }

  /** An intent whose chat row was found is delivered instead, whatever its fetch count. */
  lemma FetchReconciles(r: Row, now: Time)
    requires Deliverable(r)
    ensures var o := FetchRow(r, now, true);
            o.1 == Reconciled && FetchRecorded(r, o.0, now) && DeliveredAs(r, o.0, Synthetic, now)
  {
  }

  lemma NothingToFetch(r: Row, now: Time, reconcile: bool)
    requires !Deliverable(r)
    ensures FetchRow(r, now, reconcile) == (r, Nothing)
  {
  }

  /** Only the two permanent codes count, and the third such report parks the intent under the code it names. */
  lemma RejectionsCountAndPark(r: Row, code: string, now: Time)
    ensures var o := RejectRow(r, code, now);
            if !Deliverable(r) || (code != "invalid_intent" && code != "identity_conflict") then o == (r, None)
            else
              o.0.attempt.Some? && o.0.attempt.value.rejections == RejectionsOf(r) + 1
              && o.0.attempt.value.lastCode == Some(code) && o.0.attempt.value.lastRejected == Some(now)
              && o.0.attempt.value.fetches == FetchesOf(r) && o.0.attempt.value.requeues == RequeuesOf(r)
              && if RejectionsOf(r) < 2 then o.1 == None && o.0.(attempt := r.attempt) == r
                 else o.1 == Some(PermanentRejection(code)) && ParkedAs(r, o.0, PermanentRejection(code))
  {
  }

  /** A deferral is clocked from the first one, and seven days later parks the intent. */
  lemma DeferralsParkAfterSevenDays(r: Row, now: Time)
    requires Deliverable(r)
    ensures var r' := DeferRow(r, now);
            var first := if r.attempt.Some? && r.attempt.value.firstDeferred.Some?
                           then r.attempt.value.firstDeferred.value else now;
            r'.attempt.Some? && r'.attempt.value.firstDeferred == Some(first)
            && r'.attempt.value.lastDeferred == Some(now)
            && r'.attempt.value.fetches == FetchesOf(r) && r'.attempt.value.requeues == RequeuesOf(r)
            && if now < first + 604800 then r'.(attempt := r.attempt) == r else ParkedAs(r, r', DeferredBeyondBudget)
  {
  }

  lemma NothingToDefer(r: Row, now: Time)
    requires !Deliverable(r)
    ensures DeferRow(r, now) == r
  {
  }

  /** A receipt delivers a deliverable intent, refunding and counting no fetch. */
  lemma ReceiptDelivers(r: Row, receipt: string, now: Time)
    requires Deliverable(r)
    ensures var o := AckRow(r, receipt, now);
            DeliveredAs(r, o.0, Kernel(receipt), now) && o.0.attempt == r.attempt && o.1 == Ok(o.0.active.value)
  {
  }

  /**
   * A delivered intent answers the same receipt, or any after a reconciliation, and refuses another; nothing is
   * written.
   */
  lemma DeliveredAnswersItsReceipt(r: Row, receipt: string, now: Time)
    requires r.active.Some? && r.active.value.state == Delivered
    ensures AckRow(r, receipt, now) ==
            (r, if r.active.value.receipt in {Some(Kernel(receipt)), Some(Synthetic)} then Ok(r.active.value)
                  else Err(Conflict))
  {
  }

  /**
   * A dead letter left in the active collection is delivered by its receipt once, if it was transient and never
   * requeued.
   */
  lemma ReceiptForDeadLetterInPlace(r: Row, receipt: string, now: Time)
    requires r.active.Some? && r.active.value.state == DeadLetter
    ensures var o := AckRow(r, receipt, now); var reason := r.active.value.reason;
            if RequeuesOf(r) == 0
            && reason in {Some(Unacknowledged), Some(PermanentRejection("kernel_materialization_failed"))}
            then DeliveredAs(r, o.0, Kernel(receipt), now) && RequeuesOf(o.0) == 1 && FetchesOf(o.0) == FetchesOf(r)
            else o == (r, Ok(r.active.value))
  {
  }

  lemma ReceiptNeedsAnActiveIntent(r: Row, receipt: string, now: Time)
    requires r.active.None?
    ensures AckRow(r, receipt, now) == (r, Err(NotReady))
  {
  }

  // ---------------------------------------------------------------- repair

  /** When the intent was parked: its last rejection, or else its last fetch. */
  function ParkedAt(a: Attempt): Option<Time> { if a.lastRejected.Some? then a.lastRejected else a.lastFetched }

  function BookkeepingOf(r: Row): Attempt
    requires r.dead.Some?
  {
    if r.attempt.Some? then r.attempt.value else r.dead.value.attempt
  }

  /**
   * A dead letter is requeued exactly if it is transient, was never requeued, and was parked at least six hours ago.
   */
  lemma RequeuedExactlyWhen(r: Row, now: Time)
    requires r.dead.Some? && r.dead.value.intent.state == DeadLetter
    ensures RequeueRow(r, now) != r <==>
              r.dead.value.intent.reason in {Some(Unacknowledged),
                                             Some(PermanentRejection("kernel_materialization_failed"))}
              && BookkeepingOf(r).requeues == 0
              && ParkedAt(BookkeepingOf(r)).Some? && ParkedAt(BookkeepingOf(r)).value + 21600 <= now
  {
  }

  /** The requeued intent has its content and a fresh budget, and its one requeue is on record. */
  lemma RequeuedRowIsFresh(r: Row, now: Time)
    requires RequeueRow(r, now) != r
    ensures var r' := RequeueRow(r, now);
            r.dead.Some? && r'.dead == None && r'.charged == r.charged
            && r'.active == Some(r.dead.value.intent.(state := Ready, reason := None))
            && FetchesOf(r') == 0 && RejectionsOf(r') == 0 && RequeuesOf(r') == 1
            && r'.attempt.Some? && r'.attempt.value.lastRejected == None && r'.attempt.value.lastCode == None
            && (r.attempt.Some? ==> r'.attempt.value.firstDeferred == r.attempt.value.firstDeferred)
  {
  }

  lemma NothingToRequeue(r: Row, now: Time)
    requires r.dead.None?
    ensures RequeueRow(r, now) == r
  {
  }

  // ---------------------------------------------------------------- deferred questions

  /** A question is deferred once, due a day later; a repeat leaves the first record. */
  lemma DeferralIsRecordedOnce(s: State, g: nat, k: string, subject: string, question: string, now: Time)
    ensures var s' := RecordDeferral(s, g, k, subject, question, now); var d := DeferralId(g, k);
            if s.generation == g && d !in s.deferrals
            then s' == s.(deferrals := s.deferrals[d := Deferral(subject, question, now, now + 86400, true)])
            else s' == s
  {
  }

  /** A pending deferral of the live generation becomes a ready intent that asks its question, once. */
  lemma ReleaseRaisesTheQuestion(s: State, d: DeferralId, g: nat, now: Time)
    requires s.generation == g == d.generation && d in s.deferrals && s.deferrals[d].pending
    requires At(s, ReraiseId(d)).active.None?
    ensures var s' := Release(s, d, g, now); var i := At(s', ReraiseId(d)).active;
            i.Some? && i.value.state == Ready
            && CarriesRequest(i.value, DeferralReraise, Some(s.deferrals[d].subject), [s.deferrals[d].question], now)
            && d in s'.deferrals && s'.deferrals[d] == s.deferrals[d].(pending := false)
            && At(s', ReraiseId(d)).(active := None) == At(s, ReraiseId(d))
            && s'.rows.Keys == s.rows.Keys + {ReraiseId(d)} && Release(s', d, g, now) == s'
  {
  }

  /**
   * If the question is already active the deferral is only closed; an intent of another source under that id is a
   * conflict.
   */
  lemma ReleaseFindsTheQuestionRaised(s: State, d: DeferralId, g: nat, now: Time)
    requires s.generation == g == d.generation && d in s.deferrals && s.deferrals[d].pending
    requires At(s, ReraiseId(d)).active.Some?
    ensures Release(s, d, g, now) ==
            if At(s, ReraiseId(d)).active.value.source == DeferralReraise
            then s.(deferrals := s.deferrals[d := s.deferrals[d].(pending := false)]) else s
  {
  }

  lemma NothingToRelease(s: State, d: DeferralId, g: nat, now: Time)
    requires s.generation != g || d.generation != g || d !in s.deferrals || !s.deferrals[d].pending
    ensures Release(s, d, g, now) == s
  {
  }

  /** Intents, deferrals and rows other than the one an operation names are left alone, and so is the generation. */
  lemma OnlyTheNamedRowMoves(s: State, op: Op, id: IntentId)
    requires Target(op) != Some(id)
    ensures At(Step(s, op), id) == At(s, id)
    ensures !op.NewGeneration? ==> Step(s, op).generation == s.generation
    ensures !op.DoRelease? && !op.DoRecordDeferral? ==> Step(s, op).deferrals == s.deferrals
  {
  }

  /** A transaction with another generation than the account's, or the intent's, writes nothing. */
  lemma WrongGenerationWritesNothing(s: State, op: Op, id: IntentId)
    requires Target(op) == Some(id) && op.generation != id.generation
    ensures At(Step(s, op), id) == At(s, id)
  {
  }

  lemma StaleAccountWritesNothing(s: State, op: Op, id: IntentId)
    requires Target(op) == Some(id) && op.generation != s.generation && !op.DoFetch? && !op.DoRequeue?
    ensures At(Step(s, op), id) == At(s, id)
  {
  }

  /** In the right generation, the row moves as the operation on rows says. */
  lemma RightGenerationActs(s: State, op: Op, id: IntentId)
    requires Target(op) == Some(id) && op.generation == id.generation == s.generation
    ensures var r := At(s, id);
            At(Step(s, op), id) ==
            match op
            case DoFetch(_, _, reconcile, now) => FetchRow(r, now, reconcile).0
            case DoReject(_, _, code, now) => RejectRow(r, code, now).0
            case DoDefer(_, _, now) => DeferRow(r, now)
            case DoAck(_, _, receipt, now) => AckRow(r, receipt, now).0
            case DoRequeue(_, _, now) => RequeueRow(r, now)
            case DoCreate(_, source, _, subject, blocks, admits, now) =>
              CreateRow(r, source, subject, blocks, admits, now).0
            case DoColdStart(_, source, _, subject, blocks, now) => ColdStartRow(r, source, subject, blocks, now).0
            case _ => At(Step(s, op), id)
  {
  }
}
