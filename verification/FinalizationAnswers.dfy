/** What each finalization transaction answers and writes, in terms of the stored fields; and that jobs get through. */
module FinalizationAnswers {
  import opened Prelude
  import opened FinalizationJobs
  import opened FinalizationLeases

  // ---------------------------------------------------------------- claiming a job

  /** Nobody holds the job now: it is queued, or its lease has run out. */
  predicate Free(job: Job, now: Time) {
    job.status == Queued
    || (job.status == Leased && (job.leaseExpiresAt.None? || job.leaseExpiresAt.value <= now))
  }

  predicate IdentityFits(job: Job, uid: Option<Uid>, conv: Option<ConvId>) {
    (uid.None? || uid == Some(job.uid)) && (conv.None? || conv == Some(job.conv))
  }

  predicate KeyAllowed(job: Job, allowByok: bool) { job.requiresByok ==> allowByok }

  /** A claim succeeds if and only if the job is free, the generation and identity fit, and the key is allowed. */
  lemma ClaimSucceedsExactlyWhen(s: State, id: JobId, g: nat, byok: bool, secs: nat, now: Time, uid: Option<Uid>,
                                 conv: Option<ConvId>)
    ensures ClaimJob(s, id, g, byok, secs, now, uid, conv).1.status == Claimed <==>
              id in s.jobs && Free(s.jobs[id], now) && s.jobs[id].generation == g
              && IdentityFits(s.jobs[id], uid, conv) && KeyAllowed(s.jobs[id], byok)
  {
  }

  /** A refused claim writes nothing, and names the first reason that applies. */
  lemma RefusedClaimSaysWhy(s: State, id: JobId, g: nat, byok: bool, secs: nat, now: Time, uid: Option<Uid>,
                            conv: Option<ConvId>)
    requires ClaimJob(s, id, g, byok, secs, now, uid, conv).1.status != Claimed
    ensures ClaimJob(s, id, g, byok, secs, now, uid, conv).0 == s
    ensures var r := ClaimJob(s, id, g, byok, secs, now, uid, conv).1;
            r.epoch == None && r.attempts == 0 && r.createdAt == None
    ensures var why := ClaimJob(s, id, g, byok, secs, now, uid, conv).1.status;
            if id !in s.jobs then why == ClaimMissing
            else
              var job := s.jobs[id];
              if !IdentityFits(job, uid, conv) then why == IdentityMismatch
              else if job.status == Completed then why == if job.ending == EndFenced then ClaimFenced
                                                            else ClaimTerminal(Completed)
              else if job.status == DeadLetter then why == ClaimTerminal(DeadLetter)
              else if job.status == BlockedByok || !KeyAllowed(job, byok) then why == ClaimByok
              else if job.generation != g then why == StaleGeneration
              else why == StillLeased
  {
  }

  /**
   * A granted lease runs for the seconds asked for, under a new epoch; the replay sweep sees a keyless job again when
   * it ends.
   */
  lemma ClaimGrantsTheLease(s: State, op: Op)
    requires Issued(s, op).Some?
    ensures HeldUntil(Step(s, op), Issued(s, op).value, op.now + op.leaseSeconds)
    ensures var job, job' := s.jobs[op.id], Step(s, op).jobs[op.id];
            job'.leaseExpiresAt == Some(op.now + op.leaseSeconds) && job'.epoch == job.epoch + 1
            && job'.attempts == job.attempts + 1 && job'.generation == job.generation && job'.updatedAt == op.now
            && job'.reconcileAfter == (if job.requiresByok then None else Some(op.now + op.leaseSeconds))
            && job'.fanout == job.fanout && job'.createdAt == job.createdAt && job'.lastFailure == job.lastFailure
    ensures var r := ClaimJob(s, op.id, op.generation, op.allowByok, op.leaseSeconds, op.now, op.uid, op.conv).1;
            r == Claim(Claimed, Some(s.jobs[op.id].epoch + 1), s.jobs[op.id].attempts + 1,
                       Some(s.jobs[op.id].createdAt))
  {
  }

  /**
   * From a successful claim until its seconds are over, whatever all others do meanwhile, every other claim of that
   * job and generation is told that it is leased.
   */
  lemma OthersAreToldItIsLeased(s: State, op: Op, ops: seq<Op>, byok: bool, secs: nat, now: Time, uid: Option<Uid>,
                                conv: Option<ConvId>)
    requires Issued(s, op).Some? && AllForeign(ops, Issued(s, op).value, op.now + op.leaseSeconds)
    requires now < op.now + op.leaseSeconds
    requires KeyAllowed(s.jobs[op.id], byok) && IdentityFits(s.jobs[op.id], uid, conv)
    ensures var s' := Run(Step(s, op), ops);
            ClaimJob(s', op.id, op.generation, byok, secs, now, uid, conv) == (s', Claim(StillLeased, None, 0, None))
  {
    var t := Issued(s, op).value;
    ClaimGrantsTheLease(s, op);
    LeaseIsHeldUntilExpiry(Step(s, op), ops, t, op.now + op.leaseSeconds);
    var job := Run(Step(s, op), ops).jobs[op.id];
    assert job.(receipt := None) == Step(s, op).jobs[op.id].(receipt := None);
    assert job.uid == s.jobs[op.id].uid && job.conv == s.jobs[op.id].conv
           && job.requiresByok == s.jobs[op.id].requiresByok;
  }

  // ---------------------------------------------------------------- the writes under a lease

  predicate Holds(s: State, id: JobId, g: nat, e: nat) {
    id in s.jobs && s.jobs[id].status == Leased && s.jobs[id].generation == g && s.jobs[id].epoch == e
  }

  /** Fields no write under a lease touches. */
  predicate SameOrigin(a: Job, b: Job) {
    a.uid == b.uid && a.conv == b.conv && a.revision == b.revision && a.requiresByok == b.requiresByok
    && a.generation == b.generation && a.epoch == b.epoch && a.attempts == b.attempts && a.createdAt == b.createdAt
    && a.dispatchedAt == b.dispatchedAt && a.forceProcess == b.forceProcess && a.shard == b.shard
    && a.receipt == b.receipt
  }

  /** Ended now: no lease, and out of the replay sweep. */
  predicate EndedAt(job: Job, now: Time) {
    job.updatedAt == now && job.leaseExpiresAt == Some(now) && job.reconcileAfter == None
  }

  /**
   * Completion takes effect exactly under the current lease once fanout is completed; a repeat by the same epoch is
   * confirmed.
   */
  lemma CompletionTakesEffectExactlyWhen(s: State, id: JobId, g: nat, e: nat, now: Time)
    ensures var o := MarkCompleted(s, id, g, e, now);
            if Holds(s, id, g, e) && s.jobs[id].fanout == FanoutCompleted
            then
              o.1 && id in o.0.jobs && o.0.jobs[id].status == Completed && o.0.jobs[id].outcome == Success
              && o.0.jobs[id].fanout == FanoutCompleted && o.0.jobs[id].lastFailure == None
              && EndedAt(o.0.jobs[id], now) && SameOrigin(s.jobs[id], o.0.jobs[id]) && o.0.convs == s.convs
            else o.0 == s && (o.1 <==> id in s.jobs && s.jobs[id].status == Completed && s.jobs[id].epoch == e)
  {
  }

  predicate FencedAt(s: State, s': State, id: JobId, now: Time) {
    id in s.jobs && id in s'.jobs && s'.jobs[id].status == Completed && s'.jobs[id].outcome == Stale
    && s'.jobs[id].ending == EndFenced && s'.jobs[id].fanout == FanoutFenced && s'.jobs[id].lastFailure == None
    && EndedAt(s'.jobs[id], now) && SameOrigin(s.jobs[id], s'.jobs[id]) && s'.convs == s.convs
  }

  /** Fencing takes effect exactly under the current lease while fanout is pending. */
  lemma FencingTakesEffectExactlyWhen(s: State, id: JobId, g: nat, e: nat, now: Time)
    ensures var o := MarkFenced(s, id, g, e, now);
            if Holds(s, id, g, e) && s.jobs[id].fanout == FanoutPending then o.1 && FencedAt(s, o.0, id, now)
            else o.0 == s && (o.1 <==> id in s.jobs && s.jobs[id].status == Completed && s.jobs[id].ending == EndFenced
                                       && s.jobs[id].epoch == e)
  {
  }

  /** The conversation the job names is completed, not discarded, and still bound to this job and revision. */
  predicate ReadyForFanout(s: State, id: JobId) {
    id in s.jobs && s.jobs[id].uid != "" && s.jobs[id].conv != ""
    && var key := ConvKey(s.jobs[id].uid, s.jobs[id].conv);
       key in s.convs && s.convs[key].status == ConvCompleted && !s.convs[key].discarded
       && s.convs[key].jobId == Some(id) && s.convs[key].revision == s.jobs[id].revision
  }

  /**
   * Under the current lease, and before it is completed, fanout is claimed if its conversation is ready and the job
   * is fenced otherwise.
   */
  lemma FanoutIsClaimedExactlyWhen(s: State, id: JobId, g: nat, e: nat, now: Time)
    ensures var o := ClaimFanout(s, id, g, e, now);
            if Holds(s, id, g, e) && s.jobs[id].fanout != FanoutCompleted
            then
              if ReadyForFanout(s, id)
              then
                o.1.status == FanClaimed && id in o.0.jobs && o.0.jobs[id].fanout == FanoutLeased
                && o.0.jobs[id].fanoutEpoch == e && o.0.jobs[id].fanoutKey == o.1.key && o.0.jobs[id].updatedAt == now
                && o.0.jobs[id].status == Leased && o.0.jobs[id].leaseExpiresAt == s.jobs[id].leaseExpiresAt
                && SameOrigin(s.jobs[id], o.0.jobs[id]) && o.0.convs == s.convs && o.0.shards == s.shards
              else o.1.status == FanFenced && FencedAt(s, o.0, id, now)
            else
              o.0 == s && o.1.status == if id !in s.jobs then FanMissing
                                        else if s.jobs[id].fanout == FanoutCompleted then FanCompleted
                                               else FanLeaseConflict
  {
  }

  /** The stored fanout key is used as it is; without one the key names conversation and revision. */
  lemma FanoutKeyIs(s: State, id: JobId, g: nat, e: nat, now: Time)
    requires id in s.jobs
    ensures var key := ClaimFanout(s, id, g, e, now).1.key; var job := s.jobs[id];
            if job.fanoutKey.Some? && job.fanoutKey.value != "" then key == job.fanoutKey
            else
              key ==
              Some("conversation:" + job.conv + ":finalization:"
                    + Digits(if job.revision == 0 then 1 else job.revision))
  {
  }

  function Value(digits: string): nat {
    if digits == "" then 0
    else 10 * Value(digits[..|digits| - 1]) + DigitValue(digits[|digits| - 1])
  }

  function DigitValue(c: char): nat { if '0' <= c <= '9' then (c - '0') as int else 0 }

  /** Revisions are spelled in decimal: reading the digits back gives the number. */
  lemma {:induction false} DigitsReadBack(n: nat)
    ensures Digits(n) != "" && Value(Digits(n)) == n
    decreases n
  {
    assert forall d: nat | d < 10 :: DigitValue("0123456789"[d]) == d;
    if n < 10 {
      assert Digits(n) == ["0123456789"[n]] && Digits(n)[..0] == "";
    } else {
      DigitsReadBack(n / 10);
      var d := Digits(n);
      assert d[..|d| - 1] == Digits(n / 10) && d[|d| - 1] == "0123456789"[n % 10];
    }
  }

  /** Fanout is marked completed exactly under the current lease; a repeat is confirmed to the epoch that claimed it. */
  lemma FanoutCompletionTakesEffectExactlyWhen(s: State, id: JobId, g: nat, e: nat, now: Time)
    ensures var o := MarkFanoutCompleted(s, id, g, e, now);
            if Holds(s, id, g, e) && s.jobs[id].fanout != FanoutCompleted
            then o.1 && o.0 == s.(jobs := s.jobs[id := s.jobs[id].(fanout := FanoutCompleted, updatedAt := now)])
            else
              o.0 == s
              && (o.1 <==> id in s.jobs && s.jobs[id].fanout == FanoutCompleted && s.jobs[id].fanoutEpoch == e)
  {
  }

  /** A retry takes effect exactly under the current lease: queued at once, with its failure code, in its own lane. */
  lemma RetryTakesEffectExactlyWhen(s: State, id: JobId, g: nat, e: nat, code: string, stale: nat, now: Time)
    ensures var o := MarkRetryable(s, id, g, e, code, stale, now);
            if Holds(s, id, g, e)
            then
              o.1 && id in o.0.jobs && o.0.jobs[id].status == Queued && o.0.jobs[id].lastFailure == Some(code)
              && o.0.jobs[id].updatedAt == now && o.0.jobs[id].leaseExpiresAt == Some(now)
              && o.0.jobs[id].reconcileAfter == (if s.jobs[id].requiresByok then None else Some(now + stale))
              && o.0.jobs[id].fanout == s.jobs[id].fanout && SameOrigin(s.jobs[id], o.0.jobs[id])
              && o.0.convs == s.convs
            else o == (s, false)
  {
  }

  /**
   * A dead letter takes effect exactly under the current lease, and closes the conversation the job is still
   * processing.
   */
  lemma DeadLetterTakesEffectExactlyWhen(s: State, id: JobId, g: nat, e: nat, retries: nat, now: Time)
    ensures var o := MarkDeadLetter(s, id, g, e, retries, now);
            if Holds(s, id, g, e)
            then
              o.1 && id in o.0.jobs && o.0.jobs[id].status == DeadLetter && o.0.jobs[id].outcome == Failure
              && o.0.jobs[id].taskRetries == retries && o.0.jobs[id].lastFailure == Some("final_attempt_failed")
              && EndedAt(o.0.jobs[id], now) && o.0.jobs[id].fanout == s.jobs[id].fanout
              && SameOrigin(s.jobs[id], o.0.jobs[id])
            else o == (s, false)
  {
  }

  /** The conversation is being processed for this job and revision. */
  predicate ProcessingFor(s: State, id: JobId, key: ConvKey) {
    id in s.jobs && key == ConvKey(s.jobs[id].uid, s.jobs[id].conv) && key.uid != "" && key.conv != "" && key in s.convs
    && s.convs[key].status == Processing && !s.convs[key].discarded && s.convs[key].jobId == Some(id)
    && s.convs[key].revision == s.jobs[id].revision
  }

  lemma DeadLetterClosesExactlyItsConversation(s: State, id: JobId, g: nat, e: nat, retries: nat, now: Time,
                                               key: ConvKey)
    requires Holds(s, id, g, e) && key in s.convs
    ensures var s' := MarkDeadLetter(s, id, g, e, retries, now).0;
            s'.convs.Keys == s.convs.Keys
            && s'.convs[key] == if ProcessingFor(s, id, key)
                                then s.convs[key].(status := ConvFailed, discarded := true,
                                                   finalization := Some(DeadLetter))
                                else s.convs[key]
  {
  }

  // ---------------------------------------------------------------- admission

  /** The conversation may be finalized: it exists, is not deferred, has content, and is not at its end. */
  predicate Admissible(s: State, key: ConvKey, hasContent: bool, a: Admission) {
    key in s.convs && !s.convs[key].deferred && hasContent && !a.terminal
  }

  predicate HasJob(s: State, key: ConvKey) {
    key in s.convs && s.convs[key].jobId.Some? && s.convs[key].jobId.value in s.jobs
  }

  predicate AcceptedWithKey(a: Admission) { a.accepted && a.fanoutKey.Some? && a.fanoutKey.value != "" }

  /** A new job is made exactly for an admissible, accepted conversation without a job, under the next revision. */
  lemma JobIsCreatedExactlyWhen(s: State, key: ConvKey, byok: bool, force: bool, content: bool, a: Admission,
                                shard: nat,
                                stale: nat, now: Time)
    ensures var o := CreateOrGet(s, key, byok, force, content, a, shard, stale, now);
            (o.1.JobIntent? && o.1.created <==>
               Admissible(s, key, content, a) && !HasJob(s, key) && AcceptedWithKey(a)
               && JobId(key.uid, key.conv, s.convs[key].revision + 1) !in s.jobs)
            && (o.1.JobIntent? && o.1.created ==>
                  o.1.id == JobId(key.uid, key.conv, s.convs[key].revision + 1) && o.1.id in o.0.jobs
                  && o.0.jobs.Keys == s.jobs.Keys + {o.1.id} && o.1.requiresByok == byok && o.1.generation == 1
                  && o.1.fanoutKey == a.fanoutKey && o.1.status == o.0.jobs[o.1.id].status)
  {
  }

  /**
   * A new job waits for its key, or is queued and due for replay after the delay; it starts with no lease and no
   * attempt.
   */
  lemma NewJobStartsClean(s: State, key: ConvKey, byok: bool, force: bool, content: bool, a: Admission, shard: nat,
                          stale: nat, now: Time)
    requires var r := CreateOrGet(s, key, byok, force, content, a, shard, stale, now).1; r.JobIntent? && r.created
    ensures var o := CreateOrGet(s, key, byok, force, content, a, shard, stale, now); var job := o.0.jobs[o.1.id];
            job.uid == key.uid && job.conv == key.conv && job.revision == s.convs[key].revision + 1
            && job.requiresByok == byok && job.forceProcess == force && job.fanoutKey == a.fanoutKey
            && job.shard == Some(shard)
            && job.status == (if byok then BlockedByok else Queued)
            && job.reconcileAfter == (if byok then None else Some(now + stale)) && job.dispatchedAt == Some(now)
            && job.createdAt == now == job.updatedAt && job.fanout == FanoutPending && job.generation == 1
            && job.epoch == 0 == job.attempts == job.taskRetries && job.leaseExpiresAt == None
            && job.outcome == NoOutcome
            && job.receipt == None
    ensures var o := CreateOrGet(s, key, byok, force, content, a, shard, stale, now);
            o.0.convs
              == s.convs[key := s.convs[key].(status := Processing, jobId := Some(o.1.id), revision := o.1.id.revision,
                                                      finalization := Some(o.0.jobs[o.1.id].status))]
  {
  }

  /**
   * An existing job is returned as it is; a job found under the next revision is bound again; everything else is
   * refused unchanged.
   */
  lemma OtherwiseNoJobIsCreated(s: State, key: ConvKey, byok: bool, force: bool, content: bool, a: Admission,
                                shard: nat,
                                stale: nat, now: Time)
    ensures var o := CreateOrGet(s, key, byok, force, content, a, shard, stale, now);
            if Admissible(s, key, content, a) && HasJob(s, key)
            then o == (s, IntentOf(s.convs[key].jobId.value, s.jobs[s.convs[key].jobId.value], false))
            else if !Admissible(s, key, content, a) || !AcceptedWithKey(a)
            then
              o.0 == s
              && o.1 == NoIntent(if key !in s.convs then "missing" else if s.convs[key].deferred then "deferred"
                                          else if !content then "no_content" else a.reason)
            else
              var id := JobId(key.uid, key.conv, s.convs[key].revision + 1);
              id in s.jobs ==>
                o.1 == IntentOf(id, s.jobs[id], false)
                && o.0 == s.(convs := s.convs[key := s.convs[key].(status := Processing, jobId := Some(id),
                                                                   revision := id.revision,
                                                                   finalization := Some(s.jobs[id].status))])
  {
  }

  /** A blocked job is resumed, without entering the replay sweep; any other job is returned as it is. */
  lemma ResumeTakesEffectExactlyWhen(s: State, id: JobId, now: Time)
    requires id in s.jobs
    ensures var o := ResumeByok(s, id, now);
            if s.jobs[id].status == BlockedByok && s.jobs[id].requiresByok
            then
              o.0.jobs == s.jobs[id := s.jobs[id].(status := Queued, updatedAt := now, reconcileAfter := None)]
              && o.0.convs == s.convs && o.1 == IntentOf(id, o.0.jobs[id], false)
            else o == (s, IntentOf(id, s.jobs[id], false))
  {
  }

  /** What an intent reports of its job. */
  lemma IntentReportsTheJob(id: JobId, job: Job, created: bool)
    ensures var i := IntentOf(id, job, created);
            i.JobIntent? && i.id == id && i.status == job.status && i.generation == job.generation
            && i.created == created
            && i.requiresByok == job.requiresByok && i.fanoutKey == job.fanoutKey
  {
  }

  // ---------------------------------------------------------------- recovery

  /** A job is replayed exactly if its lease has run out, or it was dispatched and left queued for the whole delay. */
  lemma ReplayedExactlyWhen(s: State, id: JobId, stale: nat, now: Time)
    requires id in s.jobs
    ensures var o := Replay(s, id, stale, now); var job := s.jobs[id];
            if (job.status == Leased && (job.leaseExpiresAt.None? || job.leaseExpiresAt.value <= now))
               || (job.status == Queued && (job.dispatchedAt.None? || job.dispatchedAt.value + stale <= now))
            then
              o.0.jobs
                == s.jobs[id := job.(status := Queued, generation := job.generation + 1, dispatchedAt := Some(now),
                                            updatedAt := now, leaseExpiresAt := Some(now), reconcileAfter :=
                                              Some(now + stale))]
              && o.0.convs == s.convs && o.1 == IntentOf(id, o.0.jobs[id], false)
            else o == (s, IntentOf(id, job, false))
  {
  }

  /** A BYOK job is abandoned exactly if it is as the sweep saw it, held by nobody, and idle since before the cutoff. */
  lemma AbandonedExactlyWhen(s: State, id: JobId, st: Status, g: nat, e: nat, cutoff: Time, now: Time)
    requires id in s.jobs
    ensures var o := Abandon(s, id, st, g, e, cutoff, now); var job := s.jobs[id];
            if job.requiresByok && job.status == st && job.generation == g && job.epoch == e && Free(job, now)
            && job.updatedAt <= cutoff
            then
              o.1.Abandoned? && id in o.0.jobs && o.0.jobs[id].status == DeadLetter && o.0.jobs[id].outcome == Failure
              && o.0.jobs[id].ending == EndAbandoned && o.0.jobs[id].fanout == FanoutFenced
              && o.0.jobs[id].lastFailure == Some("byok_session_abandoned") && EndedAt(o.0.jobs[id], now)
              && SameOrigin(job, o.0.jobs[id])
            else o == (s, AbandonFenced)
  {
  }

  /** Abandonment completes the conversation it was still processing, unless that is deferred, and touches no other. */
  lemma AbandonmentClosesExactlyItsConversation(s: State, id: JobId, st: Status, g: nat, e: nat, cutoff: Time,
                                                now: Time, key: ConvKey)
    requires Abandon(s, id, st, g, e, cutoff, now).1.Abandoned? && key in s.convs
    ensures var o := Abandon(s, id, st, g, e, cutoff, now);
            o.0.convs.Keys == s.convs.Keys
            && o.0.convs[key] == (if ProcessingFor(s, id, key) && !s.convs[key].deferred
                                  then s.convs[key].(status := ConvCompleted, finalization := Some(DeadLetter))
                                  else s.convs[key])
            && (ProcessingFor(s, id, key)
                ==> o.1 == Abandoned(if s.convs[key].deferred then ConvDeferred else ConvClosed))
  {
  }

  /** The outcome tells why no conversation was closed. */
  lemma AbandonmentNamesTheOutcome(s: State, id: JobId, st: Status, g: nat, e: nat, cutoff: Time, now: Time)
    requires Abandon(s, id, st, g, e, cutoff, now).1.Abandoned?
    ensures var outcome := Abandon(s, id, st, g, e, cutoff, now).1.outcome; var job := s.jobs[id];
            var key := ConvKey(job.uid, job.conv);
            (outcome == ConvMissing <==> job.uid == "" || job.conv == "" || key !in s.convs)
            && (outcome == ConvUnbound
                ==> key in s.convs && (s.convs[key].jobId != Some(id) || s.convs[key].revision != job.revision))
            && (outcome == ConvAlreadyTerminal
                ==> key in s.convs && (s.convs[key].status != Processing || s.convs[key].discarded))
            && (outcome in {ConvDeferred, ConvClosed} ==> ProcessingFor(s, id, key))
  {
  }

  // ---------------------------------------------------------------- meeting receipts

  /** The job a receipt goes to: the one given, else the conversation's, else a new one under the next revision. */
  function ReceiptTarget(s: State, key: ConvKey, given: Option<JobId>): JobId
    requires key in s.convs
  {
    if given.Some? then given.value else if s.convs[key].jobId.Some? then s.convs[key].jobId.value
    else JobId(key.uid, key.conv, s.convs[key].revision + 1)
  }

  /** A verdict is recorded exactly if the conversation exists and the job, if there is one, is of this conversation. */
  lemma ReceiptIsRecordedExactlyWhen(s: State, key: ConvKey, given: Option<JobId>, v: Verdict, now: Time)
    ensures RecordReceipt(s, key, given, v, now).1.Recorded? <==>
              key in s.convs
              && var id := ReceiptTarget(s, key, given);
                id in s.jobs ==> s.jobs[id].uid == key.uid && s.jobs[id].conv == key.conv
    ensures !RecordReceipt(s, key, given, v, now).1.Recorded? ==>
              RecordReceipt(s, key, given, v, now) == (s, if key in s.convs then ReceiptMismatch else ReceiptMissing)
  {
  }

  /**
   * The first verdict stays on the job, due for reconciliation ten minutes later, and is what the conversation shows.
   */
  lemma FirstVerdictIsKept(s: State, key: ConvKey, given: Option<JobId>, v: Verdict, now: Time)
    requires RecordReceipt(s, key, given, v, now).1.Recorded?
    ensures var o := RecordReceipt(s, key, given, v, now); var id := ReceiptTarget(s, key, given);
            o.1.id == id && id in o.0.jobs && o.0.jobs[id].receipt == Some(o.1.receipt)
            && o.1.receipt
            == (if id in s.jobs && s.jobs[id].receipt.Some? then s.jobs[id].receipt.value
                  else Receipt(v, now, now + 600))
            && (id in s.jobs ==> o.0.jobs == s.jobs[id := s.jobs[id].(receipt := Some(o.1.receipt))])
            && o.0.convs.Keys == s.convs.Keys && o.0.convs[key].meeting == Some(o.1.receipt.verdict)
            && o.0.convs[key].jobId == Some(id)
            && (s.convs[key].jobId.Some? ==> o.0.convs[key].revision == s.convs[key].revision)
            && (s.convs[key].jobId.None? ==> o.0.convs[key].revision == s.convs[key].revision + 1
                                             && o.0.convs[key].finalization == Some(Completed))
            && o.0.convs[key].status == s.convs[key].status && o.0.shards == s.shards
            && forall k | k in s.convs && k != key :: o.0.convs[k] == s.convs[k]
  {
    var id := ReceiptTarget(s, key, given);
    if id in s.jobs && s.jobs[id].receipt.Some? {
      assert s.jobs[id := s.jobs[id].(receipt := s.jobs[id].receipt)] == s.jobs;
    }
  }

  /**
   * A receipt without a job makes one that is already over: completed, a success, delivered, and outside the
   * counters.
   */
  lemma ReceiptJobIsAlreadyOver(s: State, key: ConvKey, given: Option<JobId>, v: Verdict, now: Time)
    requires RecordReceipt(s, key, given, v, now).1.Recorded? && ReceiptTarget(s, key, given) !in s.jobs
    ensures var o := RecordReceipt(s, key, given, v, now); var job := o.0.jobs[o.1.id];
            o.0.jobs.Keys == s.jobs.Keys + {o.1.id} && (forall x | x in s.jobs :: o.0.jobs[x] == s.jobs[x])
            && job.uid == key.uid && job.conv == key.conv && job.revision == s.convs[key].revision + 1
            && job.status == Completed && job.outcome == Success && job.ending == EndSuccess
            && job.fanout == FanoutCompleted
            && !job.requiresByok && !job.forceProcess && job.shard == None && job.generation == 1 && job.attempts == 1
            && job.reconcileAfter == None && job.leaseExpiresAt == None && job.createdAt == now == job.updatedAt
            && job.fanoutKey == Some("conversation:" + key.conv + ":finalization")
            && job.dispatchedAt == None && job.epoch == 0 == job.fanoutEpoch == job.taskRetries
            && job.lastFailure == None
  {
  }

  // ---------------------------------------------------------------- jobs get through

  /** The lease is used without delay: fanout claimed, delivered, and the job completed. */
  function WorkThrough(id: JobId, g: nat, e: nat, now: Time): seq<Op> {
    [DoClaimFanout(id, g, e, now), DoFanoutDone(id, g, e, now), DoComplete(id, g, e, now)]
  }

  lemma RunThree(s: State, a: Op, b: Op, c: Op)
    ensures Run(s, [a, b, c]) == Step(Step(Step(s, a), b), c)
  {
    RunOfThree(s, a, b, c);
  }

  /**
   * Whoever holds the lease of a job whose conversation is ready brings it to success, whatever the fanout went
   * through before.
   */
  lemma HolderBringsItToSuccess(s: State, id: JobId, g: nat, e: nat, now: Time)
    requires Holds(s, id, g, e) && ReadyForFanout(s, id)
    ensures var s' := Run(s, WorkThrough(id, g, e, now));
            id in s'.jobs && s'.jobs[id].status == Completed && s'.jobs[id].outcome == Success
            && s'.jobs[id].fanout == FanoutCompleted && s'.convs == s.convs
  {
    var s1 := Step(s, DoClaimFanout(id, g, e, now));
    var s2 := Step(s1, DoFanoutDone(id, g, e, now));
    FanoutIsClaimedExactlyWhen(s, id, g, e, now);
    assert Holds(s1, id, g, e) && s1.convs == s.convs;
    FanoutCompletionTakesEffectExactlyWhen(s1, id, g, e, now);
    assert Holds(s2, id, g, e) && s2.jobs[id].fanout == FanoutCompleted && s2.convs == s.convs;
    CompletionTakesEffectExactlyWhen(s2, id, g, e, now);
    RunThree(s, DoClaimFanout(id, g, e, now), DoFanoutDone(id, g, e, now), DoComplete(id, g, e, now));
  }

  /**
   * A job nobody holds can be claimed at its generation and, once its conversation is ready, worked through to
   * success.
   */
  lemma FreeJobCanSucceed(s: State, id: JobId, secs: nat, now: Time)
    requires id in s.jobs && Free(s.jobs[id], now) && ReadyForFanout(s, id)
    ensures var g := s.jobs[id].generation;
            var s1 := Step(s, DoClaim(id, g, true, secs, now, None, None));
            var s' := Run(s1, WorkThrough(id, g, s.jobs[id].epoch + 1, now));
            id in s'.jobs && s'.jobs[id].status == Completed && s'.jobs[id].outcome == Success
  {
    var g := s.jobs[id].generation;
    var op := DoClaim(id, g, true, secs, now, None, None);
    ClaimSucceedsExactlyWhen(s, id, g, true, secs, now, None, None);
    ClaimGrantsTheLease(s, op);
    var s1 := Step(s, op);
    StepEvolves(s, op, id);
    assert s1.convs == s.convs && s1.jobs[id].uid == s.jobs[id].uid && s1.jobs[id].conv == s.jobs[id].conv;
    assert s1.jobs[id].revision == s.jobs[id].revision;
    HolderBringsItToSuccess(s1, id, g, s.jobs[id].epoch + 1, now);
  }

  /**
   * A worker that vanished does not strand its job: replayed after the lease, it is free under the next generation
   * only.
   */
  lemma LostJobIsFreeAfterReplay(s: State, t: Token, stale: nat, now: Time)
    requires t.id in s.jobs && IsCurrent(s.jobs[t.id], t.generation, t.epoch)
    requires s.jobs[t.id].leaseExpiresAt.Some? && s.jobs[t.id].leaseExpiresAt.value <= now
    ensures var s' := Step(s, DoReplay(t.id, stale, now));
            t.id in s'.jobs && Free(s'.jobs[t.id], now) && s'.jobs[t.id].generation == t.generation + 1 && Dead(s', t)
  {
    ReplayedExactlyWhen(s, t.id, stale, now);
    LeaseEndsWhen(s, DoReplay(t.id, stale, now), t);
  }

  // ---------------------------------------------------------------- counters

  /** Only jobs of this generation's sixteen shards are counted. */
  lemma CountersHaveSixteenShards(shards: map<nat, ShardDoc>, shard: Option<nat>, plus: set<Bucket>, minus: set<Bucket>)
    requires shard.None? || 16 <= shard.value
    ensures Record(shards, shard, plus, minus) == shards
  {
  }
}
