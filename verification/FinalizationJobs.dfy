/**
 * Durable conversation finalization: the outbox of jobs, their leases, the fanout boundary and the
 * sharded counters. Every transaction is one atomic step on the store.
 */
module FinalizationJobs {
  import opened Prelude

  type Uid = string
  type ConvId = string
  type Time = int

  const SHARD_COUNT := 16
  const RECEIPT_RECONCILE_AFTER := 600

  datatype Status = Queued | Leased | BlockedByok | Completed | DeadLetter
  datatype Outcome = NoOutcome | Success | Stale | Failure
  datatype Fanout = FanoutPending | FanoutLeased | FanoutCompleted | FanoutFenced
  datatype Ending = NoEnding | EndFenced | EndAbandoned | EndSuccess   // finalization_outcome

  /** The job id is a hash of (uid, conversation, revision); the hash is taken to be injective. */
  datatype JobId = JobId(uid: Uid, conv: ConvId, revision: nat)
  datatype ConvKey = ConvKey(uid: Uid, conv: ConvId)
  /** The meeting verdict of one conversation, and the receipt that a job keeps of it. */
  datatype Verdict = Verdict(eligible: bool, reason: string, duration: int, speech: int)
  datatype Receipt = Receipt(verdict: Verdict, createdAt: Time, reconcileAfter: Time)

  datatype Job = Job(
    uid: Uid, conv: ConvId, revision: nat,
    status: Status, requiresByok: bool,
    fanoutKey: Option<string>, fanout: Fanout, fanoutEpoch: nat,
    generation: nat, epoch: nat, attempts: nat,
    leaseExpiresAt: Option<Time>, reconcileAfter: Option<Time>,
    dispatchedAt: Option<Time>, createdAt: Time, updatedAt: Time,
    outcome: Outcome, ending: Ending,
    forceProcess: bool, lastFailure: Option<string>, taskRetries: nat,
    shard: Option<nat>,            // projection shard, present only for admitted generations
    receipt: Option<Receipt>)

  datatype ConvStatus = InProgress | Processing | ConvCompleted | ConvFailed | OtherStatus

  datatype Conversation = Conversation(
    status: ConvStatus, discarded: bool, deferred: bool,
    jobId: Option<JobId>, revision: nat, finalization: Option<Status>, meeting: Option<Verdict>)

  // ---------------------------------------------------------------- projection shards

  /** The counter fields of a shard document. */
  datatype Bucket = Accepted | InQueued | InLeased | InBlocked | InCompleted | InDeadLetter | AsSuccess | AsFailure
      | AsStale

  type ShardDoc = map<Bucket, int>

  datatype State = State(
    jobs: map<JobId, Job>,
    convs: map<ConvKey, Conversation>,
    shards: map<nat, ShardDoc>)

  function Field(shards: map<nat, ShardDoc>, k: nat, b: Bucket): int {
    if k in shards && b in shards[k] then shards[k][b] else 0
  }

  /** Merge `Increment(+1)` into the fields of `plus` and `Increment(-1)` into those of `minus`. */
  function Record(shards: map<nat, ShardDoc>, shard: Option<nat>, plus: set<Bucket>, minus: set<Bucket>)
    : map<nat, ShardDoc>
  {
    if shard.None? || shard.value >= SHARD_COUNT || plus + minus == {} then shards
    else
      var k := shard.value;
      var doc := if k in shards then shards[k] else map[];
      shards[k := map b | b in doc.Keys + plus + minus ::
        (if b in doc then doc[b] else 0) + (if b in plus then 1 else 0) - (if b in minus then 1 else 0)]
  }

  /** Rewrite one job and record the counter movement of its shard in the same transaction. */
  function Put(s: State, id: JobId, job: Job, plus: set<Bucket>, minus: set<Bucket>): State
    requires id in s.jobs
  {
    State(s.jobs[id := job], s.convs, Record(s.shards, s.jobs[id].shard, plus, minus))
  }

  // ---------------------------------------------------------------- guards

  predicate IsCurrent(job: Job, generation: nat, epoch: nat) {
    job.status == Leased && job.generation == generation && job.epoch == epoch
  }

  predicate Terminal(st: Status) {
    st == Completed || st == DeadLetter
  }

  predicate LeaseLive(job: Job, now: Time) {
    job.leaseExpiresAt.Some? && job.leaseExpiresAt.value > now
  }

  function FanoutKey(job: Job): string {
    if job.fanoutKey.Some? && job.fanoutKey.value != "" then job.fanoutKey.value
    else "conversation:" + job.conv + ":finalization:" + Digits(if job.revision == 0 then 1 else job.revision)
  }

  function Digits(n: nat): string {
    if n < 10 then ["0123456789"[n]] else Digits(n / 10) + ["0123456789"[n % 10]]
  }

  predicate AdmitsFanout(c: Conversation, job: Job, id: JobId) {
    !c.discarded && c.status == ConvCompleted && c.jobId == Some(id) && c.revision == job.revision
  }

  /** A processing conversation still bound to this job and revision. */
  predicate BoundProcessing(s: State, id: JobId, job: Job) {
    var key := ConvKey(job.uid, job.conv);
    job.uid != "" && job.conv != "" && key in s.convs
    && s.convs[key].status == Processing && !s.convs[key].discarded
    && s.convs[key].jobId == Some(id) && s.convs[key].revision == job.revision
  }

  // ---------------------------------------------------------------- admission

  datatype Admission = Admission(accepted: bool, terminal: bool, reason: string, fanoutKey: Option<string>)

  datatype Intent =
    | NoIntent(reason: string)
    | JobIntent(id: JobId, status: Status, generation: nat, requiresByok: bool, fanoutKey: Option<string>,
                created: bool)

  function IntentOf(id: JobId, job: Job, created: bool): Intent {
    JobIntent(id, job.status, job.generation, job.requiresByok, job.fanoutKey, created)
  }

  function NewJob(id: JobId, requiresByok: bool, force: bool, fanoutKey: Option<string>, shard: nat, staleAfter: nat,
                  now: Time): Job {
    Job(id.uid, id.conv, id.revision,
        if requiresByok then BlockedByok else Queued, requiresByok,
        fanoutKey, FanoutPending, 0,
        1, 0, 0,
        None, if requiresByok then None else Some(now + staleAfter),
        Some(now), now, now,
        NoOutcome, NoEnding, force, None, 0, Some(shard), None)
  }

  function Admit(s: State, key: ConvKey, id: JobId, requiresByok: bool, force: bool, fanoutKey: Option<string>,
                 shard: nat,
                 staleAfter: nat, now: Time): State
    requires key in s.convs
  {
    var job := NewJob(id, requiresByok, force, fanoutKey, shard, staleAfter, now);
    State(s.jobs[id := job],
          s.convs[key := s.convs[key].(status := Processing, jobId := Some(id), revision := id.revision,
                                       finalization := Some(job.status))],
          Record(s.shards, Some(shard), {Accepted, if requiresByok then InBlocked else InQueued}, {}))
  }

  function CreateOrGet(s: State, key: ConvKey, requiresByok: bool, force: bool, hasContent: bool, a: Admission,
                       shard: nat,
                       staleAfter: nat, now: Time): (State, Intent)
  {
    if key !in s.convs then (s, NoIntent("missing"))
    else
      var c := s.convs[key];
      if c.deferred then (s, NoIntent("deferred"))
      else if !hasContent then (s, NoIntent("no_content"))
      else if a.terminal then (s, NoIntent(a.reason))
      else if c.jobId.Some? && c.jobId.value in s.jobs then (s, IntentOf(c.jobId.value, s.jobs[c.jobId.value], false))
      else if !a.accepted || a.fanoutKey.None? || a.fanoutKey.value == "" then (s, NoIntent(a.reason))
      else
        var id := JobId(key.uid, key.conv, c.revision + 1);
        if id in s.jobs then
          (s.(convs := s.convs[key := c.(status := Processing, jobId := Some(id), revision := id.revision,
                                         finalization := Some(s.jobs[id].status))]),
           IntentOf(id, s.jobs[id], false))
        else
          var s' := Admit(s, key, id, requiresByok, force, a.fanoutKey, shard, staleAfter, now);
          (s', IntentOf(id, s'.jobs[id], true))
  }

  function ResumeByok(s: State, id: JobId, now: Time): (State, Intent) {
    if id !in s.jobs then (s, NoIntent("missing"))
    else if s.jobs[id].status == BlockedByok && s.jobs[id].requiresByok then
      var job := s.jobs[id].(status := Queued, updatedAt := now, reconcileAfter := None);
      (Put(s, id, job, {InQueued}, {InBlocked}), IntentOf(id, job, false))
    else (s, IntentOf(id, s.jobs[id], false))
  }

  // ---------------------------------------------------------------- leases

  datatype ClaimStatus = ClaimMissing | IdentityMismatch | ClaimFenced | ClaimTerminal(status: Status) | ClaimByok
                       | StaleGeneration | StillLeased | Claimed
  datatype Claim = Claim(status: ClaimStatus, epoch: Option<nat>, attempts: nat, createdAt: Option<Time>)

  function ClaimVerdict(job: Job, generation: nat, allowByok: bool, now: Time, uid: Option<Uid>, conv: Option<ConvId>)
    : ClaimStatus
  {
    if (uid.Some? && uid.value != job.uid) || (conv.Some? && conv.value != job.conv) then IdentityMismatch
    else if job.status == Completed && job.ending == EndFenced then ClaimFenced
    else if Terminal(job.status) then ClaimTerminal(job.status)
    else if (job.requiresByok && !allowByok) || job.status == BlockedByok then ClaimByok
    else if job.generation != generation then StaleGeneration
    else if job.status == Leased && LeaseLive(job, now) then StillLeased
    else Claimed
  }

  function ClaimJob(s: State, id: JobId, generation: nat, allowByok: bool, leaseSeconds: nat, now: Time,
                    uid: Option<Uid>, conv: Option<ConvId>): (State, Claim)
  {
    if id !in s.jobs then (s, Claim(ClaimMissing, None, 0, None))
    else
      var job := s.jobs[id];
      var verdict := ClaimVerdict(job, generation, allowByok, now, uid, conv);
      if verdict != Claimed then (s, Claim(verdict, None, 0, None))
      else
        var leased := job.(status := Leased, leaseExpiresAt := Some(now + leaseSeconds), epoch := job.epoch + 1,
                           reconcileAfter := if job.requiresByok then None else Some(now + leaseSeconds),
                           updatedAt := now, attempts := job.attempts + 1);
        (Put(s, id, leased, if job.status == Queued then {InLeased} else {},
             if job.status == Queued then {InQueued} else {}),
         Claim(Claimed, Some(leased.epoch), leased.attempts, Some(job.createdAt)))
  }

  function Succeeded(job: Job, now: Time): Job {
    job.(status := Completed, outcome := Success, lastFailure := None,
         updatedAt := now, leaseExpiresAt := Some(now), reconcileAfter := None)
  }

  function Fenced(job: Job, now: Time): Job {
    job.(status := Completed, outcome := Stale, ending := EndFenced, fanout := FanoutFenced, lastFailure := None,
         updatedAt := now, leaseExpiresAt := Some(now), reconcileAfter := None)
  }

  function MarkCompleted(s: State, id: JobId, generation: nat, epoch: nat, now: Time): (State, bool) {
    if id !in s.jobs then (s, false)
    else
      var job := s.jobs[id];
      if job.status == Completed then (s, job.epoch == epoch)
      else if IsCurrent(job, generation, epoch) && job.fanout == FanoutCompleted then
        (Put(s, id, Succeeded(job, now), {InCompleted, AsSuccess}, {InLeased}), true)
      else (s, false)
  }

  function FenceJob(s: State, id: JobId, now: Time): State
    requires id in s.jobs
  {
    Put(s, id, Fenced(s.jobs[id], now), {InCompleted, AsStale}, {InLeased})
  }

  function MarkFenced(s: State, id: JobId, generation: nat, epoch: nat, now: Time): (State, bool) {
    if id !in s.jobs then (s, false)
    else
      var job := s.jobs[id];
      if job.status == Completed then (s, job.ending == EndFenced && job.epoch == epoch)
      else if IsCurrent(job, generation, epoch) && job.fanout == FanoutPending then (FenceJob(s, id, now), true)
      else (s, false)
  }

  datatype FanoutStatus = FanMissing | FanCompleted | FanLeaseConflict | FanFenced | FanClaimed
  datatype FanoutClaim = FanoutClaim(status: FanoutStatus, key: Option<string>)

  function ClaimFanout(s: State, id: JobId, generation: nat, epoch: nat, now: Time): (State, FanoutClaim) {
    if id !in s.jobs then (s, FanoutClaim(FanMissing, None))
    else
      var job := s.jobs[id];
      var key := Some(FanoutKey(job));
      var conv := ConvKey(job.uid, job.conv);
      if job.fanout == FanoutCompleted then (s, FanoutClaim(FanCompleted, key))
      else if !IsCurrent(job, generation, epoch) then (s, FanoutClaim(FanLeaseConflict, key))
      else if job.uid == "" || job.conv == "" || conv !in s.convs || !AdmitsFanout(s.convs[conv], job, id) then
        (FenceJob(s, id, now), FanoutClaim(FanFenced, key))
      else
        (s.(jobs :=
            s.jobs[id := job.(fanoutKey := key, fanout := FanoutLeased, fanoutEpoch := epoch, updatedAt := now)]),
         FanoutClaim(FanClaimed, key))
  }

  function MarkFanoutCompleted(s: State, id: JobId, generation: nat, epoch: nat, now: Time): (State, bool) {
    if id !in s.jobs then (s, false)
    else
      var job := s.jobs[id];
      if job.fanout == FanoutCompleted then (s, job.fanoutEpoch == epoch)
      else if IsCurrent(job, generation, epoch) then
        (s.(jobs := s.jobs[id := job.(fanout := FanoutCompleted, updatedAt := now)]), true)
      else (s, false)
  }

  function MarkRetryable(s: State, id: JobId, generation: nat, epoch: nat, code: string, staleAfter: nat, now: Time)
    : (State, bool)
  {
    if id !in s.jobs || !IsCurrent(s.jobs[id], generation, epoch) then (s, false)
    else
      var job := s.jobs[id];
      (Put(s, id, job.(status := Queued, updatedAt := now, leaseExpiresAt := Some(now), lastFailure := Some(code),
                       reconcileAfter := if job.requiresByok then None else Some(now + staleAfter)),
           {InQueued}, {InLeased}), true)
  }

  function MarkDeadLetter(s: State, id: JobId, generation: nat, epoch: nat, retries: nat, now: Time): (State, bool) {
    if id !in s.jobs || !IsCurrent(s.jobs[id], generation, epoch) then (s, false)
    else
      var job := s.jobs[id];
      var s' := Put(s, id, job.(status := DeadLetter, outcome := Failure, updatedAt := now, taskRetries := retries,
                                lastFailure := Some("final_attempt_failed"), leaseExpiresAt :=
                                  Some(now), reconcileAfter := None),
                    {InDeadLetter, AsFailure}, {InLeased});
      var key := ConvKey(job.uid, job.conv);
      (if BoundProcessing(s, id, job) then
         s'.(convs :=
             s.convs[key := s.convs[key].(status := ConvFailed, discarded := true, finalization := Some(DeadLetter))])
       else s', true)
  }

  // ---------------------------------------------------------------- recovery

  predicate Replayable(job: Job, staleAfter: nat, now: Time) {
    || (job.status == Leased && !LeaseLive(job, now))
    || (job.status == Queued && !(job.dispatchedAt.Some? && job.dispatchedAt.value > now - staleAfter))
  }

  function Replay(s: State, id: JobId, staleAfter: nat, now: Time): (State, Intent) {
    if id !in s.jobs then (s, NoIntent("missing"))
    else
      var job := s.jobs[id];
      if !Replayable(job, staleAfter, now) then (s, IntentOf(id, job, false))
      else
        var queued :=
          job.(status := Queued, generation := job.generation + 1, dispatchedAt := Some(now), updatedAt := now,
                           leaseExpiresAt := Some(now), reconcileAfter := Some(now + staleAfter));
        (Put(s, id, queued, if job.status == Leased then {InQueued} else {},
             if job.status == Leased then {InLeased} else {}),
         IntentOf(id, queued, false))
  }

  /** Eligibility of a row for the abandonment sweep. */
  predicate Stranded(job: Job, cutoff: Time, now: Time) {
    && (job.status == Queued || (job.status == Leased && !LeaseLive(job, now)))
    && job.updatedAt <= cutoff
  }

  datatype ConvOutcome = ConvMissing | ConvUnbound | ConvAlreadyTerminal | ConvDeferred | ConvClosed
  datatype Abandonment = AbandonMissing | AbandonFenced | Abandoned(outcome: ConvOutcome)

  /** How an abandoned job relates to the conversation it names. */
  function OutcomeFor(s: State, id: JobId, job: Job): ConvOutcome {
    var key := ConvKey(job.uid, job.conv);
    if job.uid == "" || job.conv == "" || key !in s.convs then ConvMissing
    else if s.convs[key].jobId != Some(id) || s.convs[key].revision != job.revision then ConvUnbound
    else if s.convs[key].status != Processing || s.convs[key].discarded then ConvAlreadyTerminal
    else if s.convs[key].deferred then ConvDeferred
    else ConvClosed
  }

  function Abandon(s: State, id: JobId, status: Status, generation: nat, epoch: nat, cutoff: Time, now: Time)
    : (State, Abandonment)
  {
    if id !in s.jobs then (s, AbandonMissing)
    else
      var job := s.jobs[id];
      if !job.requiresByok || job.status != status || job.generation != generation || job.epoch != epoch
         || !Stranded(job, cutoff, now) then (s, AbandonFenced)
      else
        var dead :=
          job.(status := DeadLetter, outcome := Failure, ending := EndAbandoned, fanout := FanoutFenced,
               lastFailure := Some("byok_session_abandoned"),
                         updatedAt := now, leaseExpiresAt := Some(now), reconcileAfter := None);
        var s' := Put(s, id, dead, {InDeadLetter, AsFailure}, {if job.status == Queued then InQueued else InLeased});
        var key := ConvKey(job.uid, job.conv);
        var outcome := OutcomeFor(s, id, job);
        (if outcome == ConvClosed then
           s'.(convs := s.convs[key := s.convs[key].(status := ConvCompleted, finalization := Some(DeadLetter))])
         else s', Abandoned(outcome))
  }

  // ---------------------------------------------------------------- meeting receipts

  datatype ReceiptResult = ReceiptMissing | ReceiptMismatch | Recorded(id: JobId, receipt: Receipt)

  function NewReceipt(v: Verdict, now: Time): Receipt { Receipt(v, now, now + RECEIPT_RECONCILE_AFTER) }

  function ReceiptJob(key: ConvKey, revision: nat, r: Receipt, now: Time): Job {
    Job(key.uid, key.conv, revision, Completed, false,
        Some("conversation:" + key.conv + ":finalization"), FanoutCompleted, 0,
        1, 0, 1, None, None, None, now, now, Success, EndSuccess, false, None, 0, None, Some(r))
  }

  /** The receipt is written once; a later verdict only reads it back. */
  function RecordReceipt(s: State, key: ConvKey, given: Option<JobId>, v: Verdict, now: Time): (State, ReceiptResult) {
    if key !in s.convs then (s, ReceiptMissing)
    else
      var c := s.convs[key];
      var id := if given.Some? then given.value
                else if c.jobId.Some? then c.jobId.value
                else JobId(key.uid, key.conv, c.revision + 1);
      if id in s.jobs && (s.jobs[id].uid != key.uid || s.jobs[id].conv != key.conv) then (s, ReceiptMismatch)
      else
        var r := if id in s.jobs && s.jobs[id].receipt.Some? then s.jobs[id].receipt.value else NewReceipt(v, now);
        var jobs := if id !in s.jobs then s.jobs[id := ReceiptJob(key, c.revision + 1, r, now)]
                    else if s.jobs[id].receipt.None? then s.jobs[id := s.jobs[id].(receipt := Some(r))]
                    else s.jobs;
        var c' := if c.jobId.Some? then c.(jobId := Some(id), meeting := Some(r.verdict))
                  else c.(jobId := Some(id), meeting := Some(r.verdict), revision := c.revision + 1,
                          finalization := Some(Completed));
        (s.(jobs := jobs, convs := s.convs[key := c']), Recorded(id, r))
  }

  // ---------------------------------------------------------------- runs

  datatype Op =
    | DoCreate(key: ConvKey, requiresByok: bool, force: bool, hasContent: bool, admission: Admission, shard: nat,
               staleAfter: nat, now: Time)
    | DoResume(id: JobId, now: Time)
    | DoClaim(id: JobId, generation: nat, allowByok: bool, leaseSeconds: nat, now: Time, uid: Option<Uid>,
              conv: Option<ConvId>)
    | DoComplete(id: JobId, generation: nat, epoch: nat, now: Time)
    | DoFence(id: JobId, generation: nat, epoch: nat, now: Time)
    | DoClaimFanout(id: JobId, generation: nat, epoch: nat, now: Time)
    | DoFanoutDone(id: JobId, generation: nat, epoch: nat, now: Time)
    | DoRetry(id: JobId, generation: nat, epoch: nat, code: string, staleAfter: nat, now: Time)
    | DoDeadLetter(id: JobId, generation: nat, epoch: nat, retries: nat, now: Time)
    | DoReplay(id: JobId, staleAfter: nat, now: Time)
    | DoAbandon(id: JobId, status: Status, generation: nat, epoch: nat, cutoff: Time, now: Time)
    | DoReceipt(key: ConvKey, given: Option<JobId>, verdict: Verdict, now: Time)
    | ConversationWrite(key: ConvKey, value: Conversation)   // any other writer of the conversation document

  /** The shard of a new job is a hash modulo the shard count. */
  predicate Legal(op: Op) {
    op.DoCreate? ==> op.shard < SHARD_COUNT
  }

  function Step(s: State, op: Op): State {
    match op
    case DoCreate(key, byok, force, content, a, shard, stale, now) =>
      CreateOrGet(s, key, byok, force, content, a, shard, stale, now).0
    case DoResume(id, now) => ResumeByok(s, id, now).0
    case DoClaim(id, g, byok, secs, now, uid, conv) => ClaimJob(s, id, g, byok, secs, now, uid, conv).0
    case DoComplete(id, g, e, now) => MarkCompleted(s, id, g, e, now).0
    case DoFence(id, g, e, now) => MarkFenced(s, id, g, e, now).0
    case DoClaimFanout(id, g, e, now) => ClaimFanout(s, id, g, e, now).0
    case DoFanoutDone(id, g, e, now) => MarkFanoutCompleted(s, id, g, e, now).0
    case DoRetry(id, g, e, code, stale, now) => MarkRetryable(s, id, g, e, code, stale, now).0
    case DoDeadLetter(id, g, e, retries, now) => MarkDeadLetter(s, id, g, e, retries, now).0
    case DoReplay(id, stale, now) => Replay(s, id, stale, now).0
    case DoAbandon(id, st, g, e, cutoff, now) => Abandon(s, id, st, g, e, cutoff, now).0
    case DoReceipt(key, given, v, now) => RecordReceipt(s, key, given, v, now).0
    case ConversationWrite(key, value) => s.(convs := s.convs[key := value])
  }

  function Run(s: State, ops: seq<Op>): State
    decreases |ops|
  {
    if ops == [] then s else Run(Step(s, ops[0]), ops[1..])
  }

  ghost predicate AllLegal(ops: seq<Op>) {
    forall i :: 0 <= i < |ops| ==> Legal(ops[i])
  }
}
