/** What a lease token, a terminal status, a fanout and a recovery lane mean over whole runs. */
module FinalizationLeases {
  import opened Prelude
  import opened FinalizationJobs
  import FinalizationProjection

  // ---------------------------------------------------------------- how one job may change in one step

  /** Completed means delivered, or fenced without delivery; nothing in between. */
  predicate Shape(job: Job) {
    job.status == Completed ==>
      (job.outcome == Success && job.fanout == FanoutCompleted) || (job.outcome == Stale && job.fanout == FanoutFenced)
  }

  predicate SameLease(a: Job, b: Job) {
    a.status == Leased && b.status == Leased && a.epoch == b.epoch && a.generation == b.generation
  }

  predicate Evolves(a: Job, b: Job) {
    && a.requiresByok == b.requiresByok && a.shard == b.shard && a.forceProcess == b.forceProcess
    && (a.receipt.Some? ==> b.receipt == a.receipt)
    && FanoutKey(a) == FanoutKey(b)
    && a.epoch <= b.epoch
    && (b.status == Leased && !SameLease(a, b) ==> a.epoch < b.epoch)
    && (Terminal(a.status)
        ==> b.status == a.status && b.outcome == a.outcome && b.fanout == a.fanout && b.ending == a.ending)
    && (a.fanout == FanoutCompleted ==> b.fanout == FanoutCompleted || b.status == DeadLetter)
    && (Shape(a) ==> Shape(b))
  }

  lemma SameKeyIfUntouched(a: Job, b: Job)
    requires a.fanoutKey == b.fanoutKey && a.conv == b.conv && a.revision == b.revision
    ensures FanoutKey(a) == FanoutKey(b)
  {
  }

  lemma ClaimEvolves(s: State, id: JobId, g: nat, byok: bool, secs: nat, now: Time, uid: Option<Uid>,
                     conv: Option<ConvId>)
    requires id in s.jobs
    ensures var s' := ClaimJob(s, id, g, byok, secs, now, uid, conv).0;
      id in s'.jobs && Evolves(s.jobs[id], s'.jobs[id])
  {
    SameKeyIfUntouched(s.jobs[id], ClaimJob(s, id, g, byok, secs, now, uid, conv).0.jobs[id]);
  }

  lemma FenceJobEvolves(s: State, id: JobId, now: Time)
    requires id in s.jobs && s.jobs[id].status == Leased && s.jobs[id].fanout != FanoutCompleted
    ensures Evolves(s.jobs[id], FenceJob(s, id, now).jobs[id])
  {
    SameKeyIfUntouched(s.jobs[id], FenceJob(s, id, now).jobs[id]);
  }

  lemma ClaimFanoutEvolves(s: State, id: JobId, g: nat, e: nat, now: Time)
    requires id in s.jobs
    ensures var s' := ClaimFanout(s, id, g, e, now).0; id in s'.jobs && Evolves(s.jobs[id], s'.jobs[id])
  {
    var r := ClaimFanout(s, id, g, e, now);
    if r.1.status == FanFenced {
      FenceJobEvolves(s, id, now);
    } else {
      assert FanoutKey(s.jobs[id]) != "";
    }
  }

  lemma CompleteEvolves(s: State, id: JobId, g: nat, e: nat, now: Time)
    requires id in s.jobs
    ensures Evolves(s.jobs[id], MarkCompleted(s, id, g, e, now).0.jobs[id])
  {
    SameKeyIfUntouched(s.jobs[id], MarkCompleted(s, id, g, e, now).0.jobs[id]);
  }

  lemma FenceEvolves(s: State, id: JobId, g: nat, e: nat, now: Time)
    requires id in s.jobs
    ensures Evolves(s.jobs[id], MarkFenced(s, id, g, e, now).0.jobs[id])
  {
    SameKeyIfUntouched(s.jobs[id], MarkFenced(s, id, g, e, now).0.jobs[id]);
  }

  lemma DeadLetterEvolves(s: State, id: JobId, g: nat, e: nat, retries: nat, now: Time)
    requires id in s.jobs
    ensures Evolves(s.jobs[id], MarkDeadLetter(s, id, g, e, retries, now).0.jobs[id])
  {
    SameKeyIfUntouched(s.jobs[id], MarkDeadLetter(s, id, g, e, retries, now).0.jobs[id]);
  }

  lemma FanoutDoneEvolves(s: State, id: JobId, g: nat, e: nat, now: Time)
    requires id in s.jobs
    ensures Evolves(s.jobs[id], MarkFanoutCompleted(s, id, g, e, now).0.jobs[id])
  {
    SameKeyIfUntouched(s.jobs[id], MarkFanoutCompleted(s, id, g, e, now).0.jobs[id]);
  }

  lemma RetryEvolves(s: State, id: JobId, g: nat, e: nat, code: string, stale: nat, now: Time)
    requires id in s.jobs
    ensures Evolves(s.jobs[id], MarkRetryable(s, id, g, e, code, stale, now).0.jobs[id])
  {
    SameKeyIfUntouched(s.jobs[id], MarkRetryable(s, id, g, e, code, stale, now).0.jobs[id]);
  }

  lemma ResumeEvolves(s: State, id: JobId, now: Time)
    requires id in s.jobs
    ensures Evolves(s.jobs[id], ResumeByok(s, id, now).0.jobs[id])
  {
    SameKeyIfUntouched(s.jobs[id], ResumeByok(s, id, now).0.jobs[id]);
  }

  lemma ReplayEvolves(s: State, id: JobId, stale: nat, now: Time)
    requires id in s.jobs
    ensures Evolves(s.jobs[id], Replay(s, id, stale, now).0.jobs[id])
  {
    SameKeyIfUntouched(s.jobs[id], Replay(s, id, stale, now).0.jobs[id]);
  }

  lemma AbandonEvolves(s: State, id: JobId, st: Status, g: nat, e: nat, cutoff: Time, now: Time)
    requires id in s.jobs
    ensures Evolves(s.jobs[id], Abandon(s, id, st, g, e, cutoff, now).0.jobs[id])
  {
    SameKeyIfUntouched(s.jobs[id], Abandon(s, id, st, g, e, cutoff, now).0.jobs[id]);
  }

  lemma ReceiptEvolves(s: State, key: ConvKey, given: Option<JobId>, v: Verdict, now: Time, id: JobId)
    requires id in s.jobs
    ensures var s' := RecordReceipt(s, key, given, v, now).0; id in s'.jobs && Evolves(s.jobs[id], s'.jobs[id])
  {
  }

  lemma CreateEvolves(s: State, op: Op, id: JobId)
    requires op.DoCreate? && id in s.jobs
    ensures id in Step(s, op).jobs && Step(s, op).jobs[id] == s.jobs[id]
  {
  }

  /** Only the job named by a transaction can change. */
  lemma OthersUntouched(s: State, op: Op, id: JobId)
    requires !op.DoCreate? && !op.DoReceipt? && !op.ConversationWrite? && op.id != id && id in s.jobs
    ensures id in Step(s, op).jobs && Step(s, op).jobs[id] == s.jobs[id]
  {
  }

  lemma StepEvolves(s: State, op: Op, id: JobId)
    requires id in s.jobs
    ensures id in Step(s, op).jobs && Evolves(s.jobs[id], Step(s, op).jobs[id])
  {
    if op.DoCreate? {
      CreateEvolves(s, op, id);
    } else if op.DoReceipt? {
      ReceiptEvolves(s, op.key, op.given, op.verdict, op.now, id);
    } else if op.ConversationWrite? {
    } else if op.id != id {
      OthersUntouched(s, op, id);
    } else {
      NamedJobEvolves(s, op);
    }
  }

  lemma NamedJobEvolves(s: State, op: Op)
    requires !op.DoCreate? && !op.DoReceipt? && !op.ConversationWrite? && op.id in s.jobs
    ensures op.id in Step(s, op).jobs && Evolves(s.jobs[op.id], Step(s, op).jobs[op.id])
  {
    match op {
      case DoResume(id, now) => ResumeEvolves(s, id, now);
      case DoClaim(id, g, byok, secs, now, uid, conv) => ClaimEvolves(s, id, g, byok, secs, now, uid, conv);
      case DoComplete(id, g, e, now) => CompleteEvolves(s, id, g, e, now);
      case DoFence(id, g, e, now) => FenceEvolves(s, id, g, e, now);
      case DoClaimFanout(id, g, e, now) => ClaimFanoutEvolves(s, id, g, e, now);
      case DoFanoutDone(id, g, e, now) => FanoutDoneEvolves(s, id, g, e, now);
      case DoRetry(id, g, e, code, stale, now) => RetryEvolves(s, id, g, e, code, stale, now);
      case DoDeadLetter(id, g, e, retries, now) => DeadLetterEvolves(s, id, g, e, retries, now);
      case DoReplay(id, stale, now) => ReplayEvolves(s, id, stale, now);
      case DoAbandon(id, st, g, e, cutoff, now) => AbandonEvolves(s, id, st, g, e, cutoff, now);
    }
  }

  // ---------------------------------------------------------------- lease tokens

  datatype Token = Token(id: JobId, generation: nat, epoch: nat)

  /** The token a step hands out, if it is a successful claim. */
  function Issued(s: State, op: Op): Option<Token> {
    if op.DoClaim? then
      var r := ClaimJob(s, op.id, op.generation, op.allowByok, op.leaseSeconds, op.now, op.uid, op.conv);
      if r.1.status == Claimed && r.1.epoch.Some? then Some(Token(op.id, op.generation, r.1.epoch.value)) else None
    else None
  }

  function Tokens(s: State, ops: seq<Op>): seq<Token>
    decreases |ops|
  {
    if ops == [] then []
    else (if Issued(s, ops[0]).Some? then [Issued(s, ops[0]).value] else []) + Tokens(Step(s, ops[0]), ops[1..])
  }

  lemma IssuedIsCurrent(s: State, op: Op)
    requires Issued(s, op).Some?
    ensures var t := Issued(s, op).value;
      && t.id in s.jobs && t.epoch == s.jobs[t.id].epoch + 1
      && t.id in Step(s, op).jobs && IsCurrent(Step(s, op).jobs[t.id], t.generation, t.epoch)
  {
  }

  lemma {:induction false} LaterTokensAreNewer(s: State, ops: seq<Op>, id: JobId, t: Token)
    requires id in s.jobs && t in Tokens(s, ops) && t.id == id
    ensures s.jobs[id].epoch < t.epoch
    decreases |ops|
  {
    StepEvolves(s, ops[0], id);
    if Issued(s, ops[0]) == Some(t) {
      IssuedIsCurrent(s, ops[0]);
    } else {
      LaterTokensAreNewer(Step(s, ops[0]), ops[1..], id, t);
    }
  }

  /** Over any interleaving of workers, no (job, generation, epoch) token is handed out twice. */
  lemma {:induction false} TokensNeverRepeat(s: State, ops: seq<Op>, i: nat, j: nat)
    requires i < j < |Tokens(s, ops)|
    ensures Tokens(s, ops)[i] != Tokens(s, ops)[j]
    decreases |ops|
  {
    var rest := Tokens(Step(s, ops[0]), ops[1..]);
    if Issued(s, ops[0]).None? {
      TokensNeverRepeat(Step(s, ops[0]), ops[1..], i, j);
    } else if i > 0 {
      TokensNeverRepeat(Step(s, ops[0]), ops[1..], i - 1, j - 1);
    } else {
      var t := Issued(s, ops[0]).value;
      IssuedIsCurrent(s, ops[0]);
      if rest[j - 1] == t {
        LaterTokensAreNewer(Step(s, ops[0]), ops[1..], t.id, t);
      }
    }
  }

  /** A token that has been issued and has lost its lease. */
  ghost predicate Dead(s: State, t: Token) {
    t.id in s.jobs && t.epoch <= s.jobs[t.id].epoch && !IsCurrent(s.jobs[t.id], t.generation, t.epoch)
  }

  /** An issued token stays current until some step ends its lease; from then on it is dead. */
  lemma CurrentOrDead(s: State, op: Op, t: Token)
    requires t.id in s.jobs && IsCurrent(s.jobs[t.id], t.generation, t.epoch)
    ensures var s' := Step(s, op); t.id in s'.jobs && (IsCurrent(s'.jobs[t.id], t.generation, t.epoch) || Dead(s', t))
  {
    StepEvolves(s, op, t.id);
  }

  /** Reclaiming, retrying, replaying or abandoning a job kills the token that held it. */
  lemma LeaseEndsWhen(s: State, op: Op, t: Token)
    requires t.id in s.jobs && IsCurrent(s.jobs[t.id], t.generation, t.epoch)
    requires
      || (Issued(s, op).Some? && op.id == t.id)
      || (op.DoRetry? && Presents(op, t))
      || (op.DoReplay? && op.id == t.id && Replayable(s.jobs[t.id], op.staleAfter, op.now))
      || (op.DoAbandon? && op.id == t.id
          && Abandon(s, op.id, op.status, op.generation, op.epoch, op.cutoff, op.now).1.Abandoned?)
    ensures Dead(Step(s, op), t)
  {
    StepEvolves(s, op, t.id);
  }

  lemma {:induction false} DeadForever(s: State, ops: seq<Op>, t: Token)
    requires Dead(s, t)
    ensures Dead(Run(s, ops), t)
    decreases |ops|
  {
    if ops != [] {
      StepEvolves(s, ops[0], t.id);
      DeadForever(Step(s, ops[0]), ops[1..], t);
    }
  }

  /** The six writes a worker makes under a lease. */
  predicate Presents(op: Op, t: Token) {
    match op
    case DoComplete(id, g, e, _) => t == Token(id, g, e)
    case DoFence(id, g, e, _) => t == Token(id, g, e)
    case DoClaimFanout(id, g, e, _) => t == Token(id, g, e)
    case DoFanoutDone(id, g, e, _) => t == Token(id, g, e)
    case DoRetry(id, g, e, _, _, _) => t == Token(id, g, e)
    case DoDeadLetter(id, g, e, _, _) => t == Token(id, g, e)
    case _ => false
  }

  /** Once a token has lost its lease, nothing presented under it, however late, changes the
      job, any conversation or any counter. */
  lemma DeadTokensWriteNothing(s: State, ops: seq<Op>, op: Op, t: Token)
    requires Dead(s, t) && Presents(op, t)
    ensures Step(Run(s, ops), op) == Run(s, ops)
  {
    DeadForever(s, ops, t);
  }

  // ---------------------------------------------------------------- a live lease is exclusive

  /** The time an operation acts at; other writers of conversations have none. */
  function ActsAt(op: Op): Option<Time> {
    if op.ConversationWrite? then None else Some(op.now)
  }

  /** The job is leased under this token until at least `deadline`. */
  predicate HeldUntil(s: State, t: Token, deadline: Time) {
    t.id in s.jobs && IsCurrent(s.jobs[t.id], t.generation, t.epoch)
    && s.jobs[t.id].leaseExpiresAt.Some? && deadline <= s.jobs[t.id].leaseExpiresAt.value
  }

  /** An operation of somebody else, made before the deadline. */
  predicate Foreign(op: Op, t: Token, deadline: Time) {
    !Presents(op, t) && (ActsAt(op).Some? ==> ActsAt(op).value < deadline)
  }

  lemma ForeignTokenWritesNothing(s: State, op: Op, t: Token, deadline: Time)
    requires HeldUntil(s, t, deadline) && Foreign(op, t, deadline)
    requires op.DoComplete? || op.DoFence? || op.DoClaimFanout? || op.DoFanoutDone? || op.DoRetry? || op.DoDeadLetter?
    requires op.id == t.id
    ensures Step(s, op) == s
  {
  }

  lemma ForeignClaimOrRecoveryWritesNothing(s: State, op: Op, t: Token, deadline: Time)
    requires HeldUntil(s, t, deadline) && Foreign(op, t, deadline)
    requires op.DoClaim? || op.DoResume? || op.DoReplay? || op.DoAbandon?
    requires op.id == t.id
    ensures Step(s, op) == s
  {
  }

  /** Until its deadline, nobody but the holder changes anything but the meeting receipt of a leased job. */
  lemma LiveLeaseIsExclusive(s: State, op: Op, t: Token, deadline: Time)
    requires HeldUntil(s, t, deadline) && Foreign(op, t, deadline)
    ensures t.id in Step(s, op).jobs
    ensures Step(s, op).jobs[t.id].(receipt := None) == s.jobs[t.id].(receipt := None)
  {
    StepEvolves(s, op, t.id);
    if op.DoCreate? {
      CreateEvolves(s, op, t.id);
    } else if op.DoReceipt? || op.ConversationWrite? {
    } else if op.id != t.id {
      OthersUntouched(s, op, t.id);
    } else if op.DoClaim? || op.DoResume? || op.DoReplay? || op.DoAbandon? {
      ForeignClaimOrRecoveryWritesNothing(s, op, t, deadline);
    } else {
      ForeignTokenWritesNothing(s, op, t, deadline);
    }
  }

  ghost predicate AllForeign(ops: seq<Op>, t: Token, deadline: Time) {
    forall i :: 0 <= i < |ops| ==> Foreign(ops[i], t, deadline)
  }

  /** So a worker owns its job for the whole lease, whatever every other worker, pod and sweep does meanwhile. */
  lemma {:induction false} LeaseIsHeldUntilExpiry(s: State, ops: seq<Op>, t: Token, deadline: Time)
    requires HeldUntil(s, t, deadline) && AllForeign(ops, t, deadline)
    ensures HeldUntil(Run(s, ops), t, deadline)
    ensures Run(s, ops).jobs[t.id].(receipt := None) == s.jobs[t.id].(receipt := None)
    decreases |ops|
  {
    if ops != [] {
      LiveLeaseIsExclusive(s, ops[0], t, deadline);
      LeaseIsHeldUntilExpiry(Step(s, ops[0]), ops[1..], t, deadline);
    }
  }

  // ---------------------------------------------------------------- terminal statuses and fanout

  lemma {:induction false} TerminalIsAbsorbing(s: State, ops: seq<Op>, id: JobId)
    requires id in s.jobs && Terminal(s.jobs[id].status)
    ensures id in Run(s, ops).jobs
    ensures Run(s, ops).jobs[id].status == s.jobs[id].status && Run(s, ops).jobs[id].outcome == s.jobs[id].outcome
    decreases |ops|
  {
    if ops != [] {
      StepEvolves(s, ops[0], id);
      TerminalIsAbsorbing(Step(s, ops[0]), ops[1..], id);
    }
  }

  /** The processing mode, the key requirement and a recorded meeting receipt are fixed for good. */
  lemma {:induction false} ModeAndReceiptAreImmutable(s: State, ops: seq<Op>, id: JobId)
    requires id in s.jobs
    ensures id in Run(s, ops).jobs
    ensures Run(s, ops).jobs[id].forceProcess == s.jobs[id].forceProcess
    ensures Run(s, ops).jobs[id].requiresByok == s.jobs[id].requiresByok
    ensures s.jobs[id].receipt.Some? ==> Run(s, ops).jobs[id].receipt == s.jobs[id].receipt
    decreases |ops|
  {
    if ops != [] {
      StepEvolves(s, ops[0], id);
      ModeAndReceiptAreImmutable(Step(s, ops[0]), ops[1..], id);
    }
  }

  ghost predicate AllShaped(s: State) {
    forall id :: id in s.jobs ==> Shape(s.jobs[id])
  }

  lemma BornShaped(s: State, op: Op, id: JobId)
    requires id !in s.jobs && id in Step(s, op).jobs
    ensures Shape(Step(s, op).jobs[id])
  {
  }

  lemma {:induction false} CompletedMeansDeliveredOrFenced(s: State, ops: seq<Op>)
    requires AllShaped(s)
    ensures AllShaped(Run(s, ops))
    decreases |ops|
  {
    if ops != [] {
      var s' := Step(s, ops[0]);
      forall id | id in s'.jobs ensures Shape(s'.jobs[id]) {
        if id in s.jobs {
          StepEvolves(s, ops[0], id);
        } else {
          BornShaped(s, ops[0], id);
        }
      }
      CompletedMeansDeliveredOrFenced(s', ops[1..]);
    }
  }

  /** The fanout key a step claims, if it claims one. */
  function ClaimedFanout(s: State, op: Op): Option<(JobId, string)> {
    if op.DoClaimFanout? && ClaimFanout(s, op.id, op.generation, op.epoch, op.now).1.status == FanClaimed
    then Some((op.id, FanoutKey(s.jobs[op.id]))) else None
  }

  /** Helper: a claimed fanout returns that key and saw its completed, undiscarded, still-bound conversation. */
  lemma ClaimedFanoutSawItsConversation(s: State, id: JobId, g: nat, e: nat, now: Time)
    requires ClaimFanout(s, id, g, e, now).1.status == FanClaimed
    ensures id in s.jobs && IsCurrent(s.jobs[id], g, e)
    ensures var job := s.jobs[id]; var key := ConvKey(job.uid, job.conv);
      && ClaimFanout(s, id, g, e, now).1.key == Some(FanoutKey(job))
      && key in s.convs && s.convs[key].status == ConvCompleted && !s.convs[key].discarded
      && s.convs[key].jobId == Some(id) && s.convs[key].revision == job.revision
      && ClaimFanout(s, id, g, e, now).0.jobs[id].fanoutKey == Some(FanoutKey(job))
  {
  }

  function FanoutClaims(s: State, ops: seq<Op>): seq<(JobId, string)>
    decreases |ops|
  {
    if ops == [] then []
    else
      (if ClaimedFanout(s, ops[0]).Some? then [ClaimedFanout(s, ops[0]).value] else [])
      + FanoutClaims(Step(s, ops[0]), ops[1..])
  }

  lemma {:induction false} FanoutClaimsCarryTheJobsKey(s: State, ops: seq<Op>, c: (JobId, string))
    requires c in FanoutClaims(s, ops) && c.0 in s.jobs
    ensures c.1 == FanoutKey(s.jobs[c.0])
    decreases |ops|
  {
    StepEvolves(s, ops[0], c.0);
    if ClaimedFanout(s, ops[0]) != Some(c) {
      FanoutClaimsCarryTheJobsKey(Step(s, ops[0]), ops[1..], c);
    }
  }

  /** All fanout claims of one job, in one run, carry one key. */
  lemma {:induction false} OneFanoutKeyPerJob(s: State, ops: seq<Op>, c: (JobId, string), d: (JobId, string))
    requires c in FanoutClaims(s, ops) && d in FanoutClaims(s, ops) && c.0 == d.0
    ensures c == d
    decreases |ops|
  {
    if c.0 in s.jobs {
      FanoutClaimsCarryTheJobsKey(s, ops, c);
      FanoutClaimsCarryTheJobsKey(s, ops, d);
    } else {
      OneFanoutKeyPerJob(Step(s, ops[0]), ops[1..], c, d);
    }
  }

  predicate NoMoreFanout(job: Job) {
    job.fanout == FanoutCompleted || Terminal(job.status)
  }

  /** Once fanout is marked completed, or the job has ended, no later claim of it succeeds,
      even though abandonment may overwrite the completed mark. */
  lemma {:induction false} CompletedFanoutIsNeverClaimedAgain(s: State, ops: seq<Op>, c: (JobId, string))
    requires c.0 in s.jobs && NoMoreFanout(s.jobs[c.0])
    ensures c !in FanoutClaims(s, ops)
    decreases |ops|
  {
    if ops != [] {
      StepEvolves(s, ops[0], c.0);
      CompletedFanoutIsNeverClaimedAgain(Step(s, ops[0]), ops[1..], c);
    }
  }

  /** A failed job never leaves the conversation it still owns on `processing`, and touches no other. */
  lemma FailureClosesItsConversation(s: State, id: JobId, g: nat, e: nat, retries: nat, now: Time)
    requires MarkDeadLetter(s, id, g, e, retries, now).1
    ensures var s' := MarkDeadLetter(s, id, g, e, retries, now).0;
      && id in s.jobs && id in s'.jobs && !BoundProcessing(s', id, s'.jobs[id])
      && forall key :: key != ConvKey(s.jobs[id].uid, s.jobs[id].conv) ==>
           (key in s'.convs <==> key in s.convs) && (key in s.convs ==> s'.convs[key] == s.convs[key])
  {
  }

  /** A row the abandonment sweep selected is closed by the transaction it feeds, if nobody moved it. */
  lemma StrandedRowIsAbandoned(s: State, id: JobId, cutoff: Time, now: Time)
    requires id in s.jobs && s.jobs[id].requiresByok && Stranded(s.jobs[id], cutoff, now)
    ensures var job := s.jobs[id];
      var r := Abandon(s, id, job.status, job.generation, job.epoch, cutoff, now);
      && r.1 == Abandoned(OutcomeFor(s, id, job))
      && r.0.jobs[id].status == DeadLetter
      && (BoundProcessing(r.0, id, r.0.jobs[id]) ==> r.0.convs[ConvKey(job.uid, job.conv)].deferred)
  {
  }

  // ---------------------------------------------------------------- recovery lanes

  /** An unfinished job is visible to the replay sweep exactly when it needs no user key. */
  predicate LaneOk(job: Job) {
    && ((job.status == Queued || job.status == Leased) ==> (job.reconcileAfter.Some? <==> !job.requiresByok))
    && (job.status == BlockedByok ==> job.requiresByok)
  }

  ghost predicate AllLanes(s: State) {
    forall id :: id in s.jobs ==> LaneOk(s.jobs[id])
  }

  lemma LaneAfterTokenWrite(s: State, id: JobId, g: nat, e: nat, now: Time)
    requires id in s.jobs && LaneOk(s.jobs[id])
    ensures LaneOk(MarkCompleted(s, id, g, e, now).0.jobs[id]) && LaneOk(MarkFenced(s, id, g, e, now).0.jobs[id])
    ensures LaneOk(ClaimFanout(s, id, g, e, now).0.jobs[id]) && LaneOk(MarkFanoutCompleted(s, id, g, e, now).0.jobs[id])
    ensures LaneOk(ResumeByok(s, id, now).0.jobs[id])
  {
  }

  lemma LaneAfterFailure(s: State, id: JobId, g: nat, e: nat, code: string, retries: nat, stale: nat, now: Time)
    requires id in s.jobs && LaneOk(s.jobs[id])
    ensures LaneOk(MarkRetryable(s, id, g, e, code, stale, now).0.jobs[id])
    ensures LaneOk(MarkDeadLetter(s, id, g, e, retries, now).0.jobs[id])
  {
  }

  lemma LaneAfterStep(s: State, op: Op, id: JobId)
    requires id in s.jobs && LaneOk(s.jobs[id])
    requires op.DoReplay? && op.id == id ==> !s.jobs[id].requiresByok
    ensures id in Step(s, op).jobs && LaneOk(Step(s, op).jobs[id])
  {
    StepEvolves(s, op, id);
    if !op.DoCreate? && !op.DoReceipt? && !op.ConversationWrite? && op.id != id {
      OthersUntouched(s, op, id);
    }
    match op {
      case DoComplete(_, g, e, now) => LaneAfterTokenWrite(s, id, g, e, now);
      case DoFence(_, g, e, now) => LaneAfterTokenWrite(s, id, g, e, now);
      case DoClaimFanout(_, g, e, now) => LaneAfterTokenWrite(s, id, g, e, now);
      case DoFanoutDone(_, g, e, now) => LaneAfterTokenWrite(s, id, g, e, now);
      case DoRetry(_, g, e, code, stale, now) => LaneAfterFailure(s, id, g, e, code, 0, stale, now);
      case DoDeadLetter(_, g, e, retries, now) => LaneAfterFailure(s, id, g, e, "", retries, 0, now);
      case DoResume(_, now) => LaneAfterTokenWrite(s, id, 0, 0, now);
      case _ =>
    }
  }

  lemma BornInLane(s: State, op: Op, id: JobId)
    requires id !in s.jobs && id in Step(s, op).jobs
    ensures LaneOk(Step(s, op).jobs[id])
  {
  }

  /** Replay itself does not look at the key requirement: it breaks a lane exactly when it is aimed at
      a replayable job that needs a user key. */
  lemma ReplayBreaksALaneExactlyWhen(s: State, id: JobId, stale: nat, now: Time)
    requires id in s.jobs && LaneOk(s.jobs[id])
    ensures !LaneOk(Replay(s, id, stale, now).0.jobs[id])
            <==> s.jobs[id].requiresByok && Replayable(s.jobs[id], stale, now)
  {
  }

  /** The step replays a replayable job that needs a user key. */
  predicate ReplaysByok(s: State, op: Op) {
    op.DoReplay? && op.id in s.jobs && s.jobs[op.id].requiresByok && Replayable(s.jobs[op.id], op.staleAfter, op.now)
  }

  lemma UnreplayableIsUntouched(s: State, op: Op)
    requires op.DoReplay? && op.id in s.jobs && !Replayable(s.jobs[op.id], op.staleAfter, op.now)
    ensures Step(s, op) == s
  {
  }

  /** A step takes some job out of its lane exactly when it replays a BYOK job. */
  lemma LanesBreakExactlyWhen(s: State, op: Op)
    requires AllLanes(s)
    ensures AllLanes(Step(s, op)) <==> !ReplaysByok(s, op)
  {
    if op.DoReplay? && op.id in s.jobs && !Replayable(s.jobs[op.id], op.staleAfter, op.now) {
      UnreplayableIsUntouched(s, op);
    } else if ReplaysByok(s, op) {
      ReplayBreaksALaneExactlyWhen(s, op.id, op.staleAfter, op.now);
      StepEvolves(s, op, op.id);
    } else {
      forall id | id in Step(s, op).jobs
        ensures LaneOk(Step(s, op).jobs[id])
      {
        if id in s.jobs {
          LaneAfterStep(s, op, id);
        } else {
          BornInLane(s, op, id);
        }
      }
    }
  }

  predicate EverReplaysByok(s: State, ops: seq<Op>)
    decreases |ops|
  {
    ops != [] && (ReplaysByok(s, ops[0]) || EverReplaysByok(Step(s, ops[0]), ops[1..]))
  }

  ghost predicate LanesThroughout(s: State, ops: seq<Op>)
    decreases |ops|
  {
    AllLanes(s) && (ops != [] ==> LanesThroughout(Step(s, ops[0]), ops[1..]))
  }

  /**
   * Over any run, every unfinished job is in its own lane at every point if and only if no BYOK job is ever replayed.
   */
  lemma {:induction false} LanesHoldExactlyWhen(s: State, ops: seq<Op>)
    requires AllLanes(s)
    ensures LanesThroughout(s, ops) <==> !EverReplaysByok(s, ops)
    decreases |ops|
  {
    if ops != [] {
      LanesBreakExactlyWhen(s, ops[0]);
      if AllLanes(Step(s, ops[0])) {
        LanesHoldExactlyWhen(Step(s, ops[0]), ops[1..]);
      }
    }
  }

  const WITNESS_KEY := ConvKey("u", "c")
  const WITNESS_JOB := JobId("u", "c", 1)

  /** A store at rollout that holds one recorded conversation. */
  const WITNESS_START :=
    State(map[], map[WITNESS_KEY := Conversation(InProgress, false, false, None, 0, None, None)], map[])

  const WITNESS_CREATE :=
    DoCreate(WITNESS_KEY, true, false, true, Admission(true, false, "", Some("k")), 0, 300, 0)

  lemma WitnessIsResumed()
    ensures var s := Step(Step(WITNESS_START, WITNESS_CREATE), DoResume(WITNESS_JOB, 0));
            WITNESS_JOB in s.jobs
            && s.jobs[WITNESS_JOB] == NewJob(WITNESS_JOB, true, false, Some("k"), 0, 300, 0).(status := Queued)
  {
    var s1 := Step(WITNESS_START, WITNESS_CREATE);
    assert WITNESS_KEY in WITNESS_START.convs && WITNESS_JOB !in WITNESS_START.jobs;
    assert s1.jobs[WITNESS_JOB] == NewJob(WITNESS_JOB, true, false, Some("k"), 0, 300, 0);
  }

  lemma ResumedWitnessBreaks(s: State)
    requires WITNESS_JOB in s.jobs
    requires s.jobs[WITNESS_JOB] == NewJob(WITNESS_JOB, true, false, Some("k"), 0, 300, 0).(status := Queued)
    ensures LaneOk(s.jobs[WITNESS_JOB])
    ensures var s' := Step(s, DoReplay(WITNESS_JOB, 300, 1000)); WITNESS_JOB in s'.jobs && !LaneOk(s'.jobs[WITNESS_JOB])
  {
  }

  /** Witness run from rollout: a BYOK job is created, resumed by a live session, and replayed directly once idle. */
  lemma ReplayCanBreakALane()
    ensures FinalizationProjection.Rollout(WITNESS_START)
    ensures var before := Run(WITNESS_START, [WITNESS_CREATE, DoResume(WITNESS_JOB, 0)]);
            WITNESS_JOB in before.jobs && LaneOk(before.jobs[WITNESS_JOB])
    ensures var after :=
            Run(WITNESS_START, [WITNESS_CREATE, DoResume(WITNESS_JOB, 0), DoReplay(WITNESS_JOB, 300, 1000)]);
            WITNESS_JOB in after.jobs && !LaneOk(after.jobs[WITNESS_JOB])
  {
    WitnessIsResumed();
    RunOfThree(WITNESS_START, WITNESS_CREATE, DoResume(WITNESS_JOB, 0), DoReplay(WITNESS_JOB, 300, 1000));
    ResumedWitnessBreaks(Step(Step(WITNESS_START, WITNESS_CREATE), DoResume(WITNESS_JOB, 0)));
  }

  lemma RunOfThree(s: State, a: Op, b: Op, c: Op)
    ensures Run(s, [a, b]) == Step(Step(s, a), b)
    ensures Run(s, [a, b, c]) == Step(Step(Step(s, a), b), c)
  {
    var s1 := Step(s, a);
    var s2 := Step(s1, b);
    assert [a, b, c][1..] == [b, c] && [b, c][1..] == [c] && [a, b][1..] == [b];
    assert [b][1..] == [] && [c][1..] == [];
    assert Run(s, [a, b]) == Run(s1, [b]) == Run(s2, []);
    assert Run(s, [a, b, c]) == Run(s1, [b, c]) == Run(s2, [c]) == Run(Step(s2, c), []);
  }

  /** The store together with the job ids that replay sweeps have returned so far. */
  datatype Recovery = Recovery(s: State, swept: set<JobId>)

  datatype RecoveryStep =
    | Other(op: Op)                                          // any transaction but a replay
    | ReplaySweep(found: set<JobId>, now: Time)              // get_finalization_replay_candidates
    | SweptReplay(id: JobId, staleAfter: nat, now: Time)     // claim_finalization_replay on a returned id

  predicate DueForReplay(s: State, id: JobId, now: Time) {
    id in s.jobs && s.jobs[id].reconcileAfter.Some? && s.jobs[id].reconcileAfter.value <= now
    && (s.jobs[id].status == Queued || s.jobs[id].status == Leased)
  }

  ghost predicate Allowed(r: Recovery, a: RecoveryStep) {
    match a
    case Other(op) => !op.DoReplay?
    case ReplaySweep(found, now) => forall id :: id in found ==> DueForReplay(r.s, id, now)
    case SweptReplay(id, _, _) => id in r.swept
  }

  function Recover(r: Recovery, a: RecoveryStep): Recovery {
    match a
    case Other(op) => r.(s := Step(r.s, op))
    case ReplaySweep(found, _) => r.(swept := r.swept + found)
    case SweptReplay(id, stale, now) => r.(s := Step(r.s, DoReplay(id, stale, now)))
  }

  ghost predicate AllAllowed(r: Recovery, steps: seq<RecoveryStep>)
    decreases |steps|
  {
    steps == [] || (Allowed(r, steps[0]) && AllAllowed(Recover(r, steps[0]), steps[1..]))
  }

  function RecoverAll(r: Recovery, steps: seq<RecoveryStep>): Recovery
    decreases |steps|
  {
    if steps == [] then r else RecoverAll(Recover(r, steps[0]), steps[1..])
  }

  ghost predicate LanesHold(r: Recovery) {
    AllLanes(r.s) && forall id :: id in r.swept ==> id in r.s.jobs && !r.s.jobs[id].requiresByok
  }

  lemma TransactionKeepsLanes(r: Recovery, op: Op)
    requires LanesHold(r) && (op.DoReplay? ==> op.id in r.swept)
    ensures LanesHold(r.(s := Step(r.s, op)))
  {
    var s' := Step(r.s, op);
    forall id | id in s'.jobs ensures LaneOk(s'.jobs[id]) {
      if id in r.s.jobs {
        LaneAfterStep(r.s, op, id);
      } else {
        BornInLane(r.s, op, id);
      }
    }
    forall id | id in r.swept ensures id in s'.jobs && !s'.jobs[id].requiresByok {
      StepEvolves(r.s, op, id);
    }
  }

  /** As long as replays are driven by the sweep, every unfinished job stays in exactly one lane. */
  lemma {:induction false} EveryJobStaysInItsLane(r: Recovery, steps: seq<RecoveryStep>)
    requires LanesHold(r) && AllAllowed(r, steps)
    ensures LanesHold(RecoverAll(r, steps))
    decreases |steps|
  {
    if steps != [] {
      match steps[0] {
        case Other(op) => TransactionKeepsLanes(r, op);
        case SweptReplay(id, stale, now) => TransactionKeepsLanes(r, DoReplay(id, stale, now));
        case ReplaySweep(found, now) =>
      }
      EveryJobStaysInItsLane(Recover(r, steps[0]), steps[1..]);
    }
  }

  /** So a sweep-driven replay never touches a BYOK job, and abandonment never touches any other. */
  lemma LanesAreDisjoint(r: Recovery, id: JobId, stale: nat, st: Status, g: nat, e: nat, cutoff: Time, now: Time)
    requires LanesHold(r) && id in r.s.jobs
    ensures id in r.swept && Replay(r.s, id, stale, now).0 != r.s ==> !r.s.jobs[id].requiresByok
    ensures Abandon(r.s, id, st, g, e, cutoff, now).0 != r.s ==> r.s.jobs[id].requiresByok && id !in r.swept
    ensures DueForReplay(r.s, id, now) ==> !r.s.jobs[id].requiresByok
  {
  }
}
