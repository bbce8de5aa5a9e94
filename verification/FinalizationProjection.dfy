/** The sharded counters always equal the jobs they summarise. */
module FinalizationProjection {
  import opened Prelude
  import opened FinalizationJobs

  predicate Matches(job: Job, b: Bucket) {
    match b
    case Accepted => true
    case InQueued => job.status == Queued
    case InLeased => job.status == Leased
    case InBlocked => job.status == BlockedByok
    case InCompleted => job.status == Completed
    case InDeadLetter => job.status == DeadLetter
    case AsSuccess => job.outcome == Success
    case AsFailure => job.outcome == Failure
    case AsStale => job.outcome == Stale
  }

  predicate CountedIn(job: Job, k: nat, b: Bucket) {
    job.shard == Some(k) && Matches(job, b)
  }

  /** The admitted jobs of one shard that belong to one counter. */
  ghost function Members(jobs: map<JobId, Job>, k: nat, b: Bucket): set<JobId> {
    set id | id in jobs && CountedIn(jobs[id], k, b)
  }

  ghost function Tally(jobs: map<JobId, Job>, k: nat, b: Bucket): nat {
    |Members(jobs, k, b)|
  }

  /** A terminal outcome is written exactly with the terminal status it belongs to. */
  predicate OutcomeOk(job: Job) {
    && (job.status == Completed <==> job.outcome == Success || job.outcome == Stale)
    && (job.status == DeadLetter <==> job.outcome == Failure)
  }

  ghost predicate AdmittedOk(s: State) {
    forall id :: id in s.jobs && s.jobs[id].shard.Some? ==>
      s.jobs[id].shard.value < SHARD_COUNT && OutcomeOk(s.jobs[id])
  }

  ghost predicate CountersExact(s: State) {
    forall k: nat, b: Bucket :: k < SHARD_COUNT ==> Field(s.shards, k, b) == Tally(s.jobs, k, b)
  }

  ghost predicate ProjectionInv(s: State) {
    AdmittedOk(s) && CountersExact(s)
  }

  /** A store at rollout: any pre-generation jobs and conversations, and empty counters. */
  ghost predicate Rollout(s: State) {
    s.shards == map[] && forall id :: id in s.jobs ==> s.jobs[id].shard.None?
  }

  lemma RolloutIsExact(s: State)
    requires Rollout(s)
    ensures ProjectionInv(s)
  {
    forall k: nat, b: Bucket ensures Tally(s.jobs, k, b) == 0 {
      assert Members(s.jobs, k, b) == {};
    }
  }

  function One(p: bool): int { if p then 1 else 0 }

  lemma SizeWithout<T>(xs: set<T>, x: T)
    ensures |xs| == |xs - {x}| + One(x in xs)
  {
    if x in xs {
      assert xs == (xs - {x}) + {x};
    } else {
      assert xs - {x} == xs;
    }
  }

  lemma MembersElsewhere(jobs: map<JobId, Job>, id: JobId, job: Job, k: nat, b: Bucket)
    ensures Members(jobs[id := job], k, b) - {id} == Members(jobs, k, b) - {id}
  {
  }

  lemma TallyAfterWrite(jobs: map<JobId, Job>, id: JobId, job: Job, k: nat, b: Bucket)
    ensures Tally(jobs[id := job], k, b)
         == Tally(jobs, k, b) + One(CountedIn(job, k, b)) - One(id in jobs && CountedIn(jobs[id], k, b))
  {
    MembersElsewhere(jobs, id, job, k, b);
    SizeWithout(Members(jobs, k, b), id);
    SizeWithout(Members(jobs[id := job], k, b), id);
  }

  lemma FieldAfterRecord(shards: map<nat, ShardDoc>, shard: Option<nat>, plus: set<Bucket>, minus: set<Bucket>,
                         k: nat, b: Bucket)
    requires k < SHARD_COUNT
    ensures Field(Record(shards, shard, plus, minus), k, b)
         == Field(shards, k, b) + (if shard == Some(k) then One(b in plus) - One(b in minus) else 0)
  {
  }

  /** The recorded movement is exactly the change of the job's membership in every counter. */
  ghost predicate Balanced(before: Job, after: Job, plus: set<Bucket>, minus: set<Bucket>) {
    forall b: Bucket :: One(Matches(after, b)) - One(Matches(before, b)) == One(b in plus) - One(b in minus)
  }

  lemma PutKeepsProjection(s: State, id: JobId, job: Job, plus: set<Bucket>, minus: set<Bucket>)
    requires ProjectionInv(s) && id in s.jobs && job.shard == s.jobs[id].shard
    requires job.shard.Some? ==> OutcomeOk(job) && Balanced(s.jobs[id], job, plus, minus)
    ensures ProjectionInv(Put(s, id, job, plus, minus))
  {
    var s' := Put(s, id, job, plus, minus);
    forall k: nat, b: Bucket | k < SHARD_COUNT ensures Field(s'.shards, k, b) == Tally(s'.jobs, k, b) {
      TallyAfterWrite(s.jobs, id, job, k, b);
      FieldAfterRecord(s.shards, s.jobs[id].shard, plus, minus, k, b);
    }
  }

  /** Writes that keep every counted field of a job keep the counters, too. */
  lemma UncountedWriteKeepsProjection(s: State, id: JobId, job: Job)
    requires ProjectionInv(s)
    requires if id in s.jobs
               then job.shard == s.jobs[id].shard && job.status == s.jobs[id].status
               && job.outcome == s.jobs[id].outcome
             else job.shard.None?
    ensures ProjectionInv(s.(jobs := s.jobs[id := job]))
  {
    var s' := s.(jobs := s.jobs[id := job]);
    forall k: nat, b: Bucket | k < SHARD_COUNT ensures Field(s'.shards, k, b) == Tally(s'.jobs, k, b) {
      TallyAfterWrite(s.jobs, id, job, k, b);
    }
  }

  lemma ConversationWriteKeepsProjection(s: State, convs: map<ConvKey, Conversation>)
    requires ProjectionInv(s)
    ensures ProjectionInv(s.(convs := convs))
  {
  }

  lemma CounterAfterAdmission(s: State, id: JobId, job: Job, entered: Bucket, k: nat, b: Bucket)
    requires id !in s.jobs && job.shard.Some? && job.shard.value < SHARD_COUNT && k < SHARD_COUNT
    requires forall x: Bucket :: Matches(job, x) <==> x == Accepted || x == entered
    requires Field(s.shards, k, b) == Tally(s.jobs, k, b)
    ensures Field(Record(s.shards, job.shard, {Accepted, entered}, {}), k, b) == Tally(s.jobs[id := job], k, b)
  {
    TallyAfterWrite(s.jobs, id, job, k, b);
    FieldAfterRecord(s.shards, job.shard, {Accepted, entered}, {}, k, b);
  }

  lemma AdmitKeepsProjection(s: State, key: ConvKey, id: JobId, byok: bool, force: bool, fk: Option<string>, shard: nat,
                             stale: nat, now: Time)
    requires ProjectionInv(s) && key in s.convs && id !in s.jobs && shard < SHARD_COUNT
    ensures ProjectionInv(Admit(s, key, id, byok, force, fk, shard, stale, now))
  {
    var job := NewJob(id, byok, force, fk, shard, stale, now);
    var entered := if byok then InBlocked else InQueued;
    forall k: nat, b: Bucket | k < SHARD_COUNT
      ensures Field(Record(s.shards, Some(shard), {Accepted, entered}, {}), k, b) == Tally(s.jobs[id := job], k, b)
    {
      CounterAfterAdmission(s, id, job, entered, k, b);
    }
  }

  lemma ResumeKeepsProjection(s: State, id: JobId, now: Time)
    requires ProjectionInv(s)
    ensures ProjectionInv(ResumeByok(s, id, now).0)
  {
    if id in s.jobs && s.jobs[id].status == BlockedByok && s.jobs[id].requiresByok {
      PutKeepsProjection(s, id, ResumeByok(s, id, now).0.jobs[id], {InQueued}, {InBlocked});
    }
  }

  lemma ClaimKeepsProjection(s: State, id: JobId, g: nat, byok: bool, secs: nat, now: Time, uid: Option<Uid>,
                             conv: Option<ConvId>)
    requires ProjectionInv(s)
    ensures ProjectionInv(ClaimJob(s, id, g, byok, secs, now, uid, conv).0)
  {
    var r := ClaimJob(s, id, g, byok, secs, now, uid, conv);
    if r.1.status == Claimed {
      if s.jobs[id].status == Queued {
        PutKeepsProjection(s, id, r.0.jobs[id], {InLeased}, {InQueued});
      } else {
        PutKeepsProjection(s, id, r.0.jobs[id], {}, {});
      }
    }
  }

  lemma FenceKeepsProjection(s: State, id: JobId, now: Time)
    requires ProjectionInv(s) && id in s.jobs && s.jobs[id].status == Leased
    ensures ProjectionInv(FenceJob(s, id, now))
  {
    PutKeepsProjection(s, id, Fenced(s.jobs[id], now), {InCompleted, AsStale}, {InLeased});
  }

  lemma MarkFencedKeepsProjection(s: State, id: JobId, g: nat, e: nat, now: Time)
    requires ProjectionInv(s)
    ensures ProjectionInv(MarkFenced(s, id, g, e, now).0)
  {
    if id in s.jobs && s.jobs[id].status == Leased {
      FenceKeepsProjection(s, id, now);
    }
  }

  lemma CompleteKeepsProjection(s: State, id: JobId, g: nat, e: nat, now: Time)
    requires ProjectionInv(s)
    ensures ProjectionInv(MarkCompleted(s, id, g, e, now).0)
  {
    if id in s.jobs && s.jobs[id].status == Leased {
      PutKeepsProjection(s, id, Succeeded(s.jobs[id], now), {InCompleted, AsSuccess}, {InLeased});
    }
  }

  lemma RetryKeepsProjection(s: State, id: JobId, g: nat, e: nat, code: string, stale: nat, now: Time)
    requires ProjectionInv(s)
    ensures ProjectionInv(MarkRetryable(s, id, g, e, code, stale, now).0)
  {
    var r := MarkRetryable(s, id, g, e, code, stale, now);
    if r.1 {
      PutKeepsProjection(s, id, r.0.jobs[id], {InQueued}, {InLeased});
    }
  }

  lemma ReplayKeepsProjection(s: State, id: JobId, stale: nat, now: Time)
    requires ProjectionInv(s)
    ensures ProjectionInv(Replay(s, id, stale, now).0)
  {
    var r := Replay(s, id, stale, now);
    if id in s.jobs && Replayable(s.jobs[id], stale, now) {
      if s.jobs[id].status == Leased {
        PutKeepsProjection(s, id, r.0.jobs[id], {InQueued}, {InLeased});
      } else {
        PutKeepsProjection(s, id, r.0.jobs[id], {}, {});
      }
    }
  }

  lemma ClaimFanoutKeepsProjection(s: State, id: JobId, g: nat, e: nat, now: Time)
    requires ProjectionInv(s)
    ensures ProjectionInv(ClaimFanout(s, id, g, e, now).0)
  {
    var r := ClaimFanout(s, id, g, e, now);
    if r.1.status == FanFenced {
      FenceKeepsProjection(s, id, now);
    } else if r.1.status == FanClaimed {
      UncountedWriteKeepsProjection(s, id, r.0.jobs[id]);
    }
  }

  lemma FanoutDoneKeepsProjection(s: State, id: JobId, g: nat, e: nat, now: Time)
    requires ProjectionInv(s)
    ensures ProjectionInv(MarkFanoutCompleted(s, id, g, e, now).0)
  {
    if id in s.jobs && s.jobs[id].fanout != FanoutCompleted && IsCurrent(s.jobs[id], g, e) {
      UncountedWriteKeepsProjection(s, id, s.jobs[id].(fanout := FanoutCompleted, updatedAt := now));
    }
  }

  /** A job that dies leaves the counter of the status it had, whatever happens to its conversation. */
  lemma DeathKeepsProjection(s: State, id: JobId, job: Job, was: Bucket, convs: map<ConvKey, Conversation>)
    requires ProjectionInv(s) && id in s.jobs && job.shard == s.jobs[id].shard
    requires job.status == DeadLetter && job.outcome == Failure
    requires (s.jobs[id].status == Queued && was == InQueued) || (s.jobs[id].status == Leased && was == InLeased)
    ensures ProjectionInv(Put(s, id, job, {InDeadLetter, AsFailure}, {was}).(convs := convs))
  {
    PutKeepsProjection(s, id, job, {InDeadLetter, AsFailure}, {was});
    ConversationWriteKeepsProjection(Put(s, id, job, {InDeadLetter, AsFailure}, {was}), convs);
  }

  lemma DeadLetterKeepsProjection(s: State, id: JobId, g: nat, e: nat, retries: nat, now: Time)
    requires ProjectionInv(s)
    ensures ProjectionInv(MarkDeadLetter(s, id, g, e, retries, now).0)
  {
    var r := MarkDeadLetter(s, id, g, e, retries, now);
    if r.1 {
      DeathKeepsProjection(s, id, r.0.jobs[id], InLeased, r.0.convs);
    }
  }

  lemma AbandonKeepsProjection(s: State, id: JobId, st: Status, g: nat, e: nat, cutoff: Time, now: Time)
    requires ProjectionInv(s)
    ensures ProjectionInv(Abandon(s, id, st, g, e, cutoff, now).0)
  {
    var r := Abandon(s, id, st, g, e, cutoff, now);
    if r.1.Abandoned? {
      DeathKeepsProjection(s, id, r.0.jobs[id], if s.jobs[id].status == Queued then InQueued else InLeased, r.0.convs);
    }
  }

  lemma ReceiptKeepsProjection(s: State, key: ConvKey, given: Option<JobId>, v: Verdict, now: Time)
    requires ProjectionInv(s)
    ensures ProjectionInv(RecordReceipt(s, key, given, v, now).0)
  {
    var result := RecordReceipt(s, key, given, v, now);
    if result.1.Recorded? {
      var id := result.1.id;
      UncountedWriteKeepsProjection(s, id, result.0.jobs[id]);
      assert result.0.jobs == s.jobs[id := result.0.jobs[id]];
      ConversationWriteKeepsProjection(s.(jobs := result.0.jobs), result.0.convs);
    }
  }

  lemma CreateKeepsProjection(s: State, op: Op)
    requires ProjectionInv(s) && op.DoCreate? && Legal(op)
    ensures ProjectionInv(Step(s, op))
  {
    var r :=
      CreateOrGet(s, op.key, op.requiresByok, op.force, op.hasContent, op.admission, op.shard, op.staleAfter, op.now);
    if r.1.JobIntent? && r.1.created {
      AdmitKeepsProjection(s, op.key, r.1.id, op.requiresByok, op.force, op.admission.fanoutKey, op.shard,
                           op.staleAfter, op.now);
    } else {
      ConversationWriteKeepsProjection(s, r.0.convs);
    }
  }

  lemma StepKeepsProjection(s: State, op: Op)
    requires ProjectionInv(s) && Legal(op)
    ensures ProjectionInv(Step(s, op))
  {
    match op {
      case DoCreate(_, _, _, _, _, _, _, _) => CreateKeepsProjection(s, op);
      case DoResume(id, now) => ResumeKeepsProjection(s, id, now);
      case DoClaim(id, g, byok, secs, now, uid, conv) => ClaimKeepsProjection(s, id, g, byok, secs, now, uid, conv);
      case DoComplete(id, g, e, now) => CompleteKeepsProjection(s, id, g, e, now);
      case DoFence(id, g, e, now) => MarkFencedKeepsProjection(s, id, g, e, now);
      case DoClaimFanout(id, g, e, now) => ClaimFanoutKeepsProjection(s, id, g, e, now);
      case DoFanoutDone(id, g, e, now) => FanoutDoneKeepsProjection(s, id, g, e, now);
      case DoRetry(id, g, e, code, stale, now) => RetryKeepsProjection(s, id, g, e, code, stale, now);
      case DoDeadLetter(id, g, e, retries, now) => DeadLetterKeepsProjection(s, id, g, e, retries, now);
      case DoReplay(id, stale, now) => ReplayKeepsProjection(s, id, stale, now);
      case DoAbandon(id, st, g, e, cutoff, now) => AbandonKeepsProjection(s, id, st, g, e, cutoff, now);
      case DoReceipt(key, given, v, now) => ReceiptKeepsProjection(s, key, given, v, now);
      case ConversationWrite(key, value) => ConversationWriteKeepsProjection(s, s.convs[key := value]);
    }
  }

  /** In every state reachable from rollout, every counter of every shard is exact. */
  lemma {:induction false} CountersExactInEveryRun(s: State, ops: seq<Op>)
    requires ProjectionInv(s) && AllLegal(ops)
    ensures ProjectionInv(Run(s, ops))
    decreases |ops|
  {
    if ops != [] {
      StepKeepsProjection(s, ops[0]);
      CountersExactInEveryRun(Step(s, ops[0]), ops[1..]);
    }
  }

  // ---------------------------------------------------------------- the published summary

  /** Every admitted job of a shard has exactly one status, and every terminal one exactly one outcome. */
  lemma ShardAddsUp(s: State, k: nat)
    requires AdmittedOk(s)
    ensures Tally(s.jobs, k, Accepted) == Tally(s.jobs, k, InQueued) + Tally(s.jobs, k, InLeased)
            + Tally(s.jobs, k, InBlocked)
                                          + Tally(s.jobs, k, InCompleted) + Tally(s.jobs, k, InDeadLetter)
    ensures Tally(s.jobs, k, InCompleted) == Tally(s.jobs, k, AsSuccess) + Tally(s.jobs, k, AsStale)
    ensures Tally(s.jobs, k, InDeadLetter) == Tally(s.jobs, k, AsFailure)
  {
    StatusesPartition(s.jobs, k);
    OutcomesPartition(s, k);
  }

  lemma SizeOfTwo<T>(whole: set<T>, a: set<T>, b: set<T>)
    requires whole == a + b && a !! b
    ensures |whole| == |a| + |b|
  {
  }

  lemma SizeOfFive<T>(whole: set<T>, a: set<T>, b: set<T>, c: set<T>, d: set<T>, e: set<T>)
    requires whole == a + b + c + d + e && a !! b !! c !! d !! e
    ensures |whole| == |a| + |b| + |c| + |d| + |e|
  {
    SizeOfTwo(a + b, a, b);
    SizeOfTwo(a + b + c, a + b, c);
    SizeOfTwo(a + b + c + d, a + b + c, d);
  }

  lemma StatusesPartition(jobs: map<JobId, Job>, k: nat)
    ensures Tally(jobs, k, Accepted) == Tally(jobs, k, InQueued) + Tally(jobs, k, InLeased) + Tally(jobs, k, InBlocked)
                                        + Tally(jobs, k, InCompleted) + Tally(jobs, k, InDeadLetter)
  {
    var all := Members(jobs, k, Accepted);
    var q, l, b := Members(jobs, k, InQueued), Members(jobs, k, InLeased), Members(jobs, k, InBlocked);
    var c, d := Members(jobs, k, InCompleted), Members(jobs, k, InDeadLetter);
    forall id ensures id in all <==> id in q || id in l || id in b || id in c || id in d {
      if id in jobs {
        var st := jobs[id].status;
        assert st == Queued || st == Leased || st == BlockedByok || st == Completed || st == DeadLetter;
      }
    }
    SizeOfFive(all, q, l, b, c, d);
  }

  lemma OutcomeMembers(s: State, k: nat, id: JobId)
    requires AdmittedOk(s)
    ensures id in Members(s.jobs, k, InCompleted)
            <==> id in Members(s.jobs, k, AsSuccess) || id in Members(s.jobs, k, AsStale)
    ensures id in Members(s.jobs, k, InDeadLetter) <==> id in Members(s.jobs, k, AsFailure)
    ensures !(id in Members(s.jobs, k, AsSuccess) && id in Members(s.jobs, k, AsStale))
  {
  }

  lemma OutcomesPartition(s: State, k: nat)
    requires AdmittedOk(s)
    ensures Tally(s.jobs, k, InCompleted) == Tally(s.jobs, k, AsSuccess) + Tally(s.jobs, k, AsStale)
    ensures Tally(s.jobs, k, InDeadLetter) == Tally(s.jobs, k, AsFailure)
  {
    forall id {
      OutcomeMembers(s, k, id);
    }
    SizeOfTwo(Members(s.jobs, k, InCompleted), Members(s.jobs, k, AsSuccess), Members(s.jobs, k, AsStale));
    assert Members(s.jobs, k, InDeadLetter) == Members(s.jobs, k, AsFailure);
  }

  /** Sum of one counter over the first n shards. */
  function FanIn(shards: map<nat, ShardDoc>, n: nat, b: Bucket): int {
    if n == 0 then 0 else FanIn(shards, n - 1, b) + Field(shards, n - 1, b)
  }

  predicate CountedBelow(job: Job, n: nat, b: Bucket) {
    job.shard.Some? && job.shard.value < n && Matches(job, b)
  }

  /** Admitted jobs of the first n shards that belong to one counter. */
  ghost function MembersBelow(jobs: map<JobId, Job>, n: nat, b: Bucket): set<JobId> {
    set id | id in jobs && CountedBelow(jobs[id], n, b)
  }

  lemma OneMoreShard(jobs: map<JobId, Job>, n: nat, b: Bucket)
    ensures |MembersBelow(jobs, n + 1, b)| == |MembersBelow(jobs, n, b)| + Tally(jobs, n, b)
  {
    assert MembersBelow(jobs, n + 1, b) == MembersBelow(jobs, n, b) + Members(jobs, n, b);
    SizeOfTwo(MembersBelow(jobs, n + 1, b), MembersBelow(jobs, n, b), Members(jobs, n, b));
  }

  lemma {:induction false} FanInCountsJobs(jobs: map<JobId, Job>, shards: map<nat, ShardDoc>, n: nat, b: Bucket)
    requires forall k: nat :: k < n ==> Field(shards, k, b) == Tally(jobs, k, b)
    ensures FanIn(shards, n, b) == |MembersBelow(jobs, n, b)|
  {
    if n == 0 {
      assert MembersBelow(jobs, 0, b) == {};
    } else {
      FanInCountsJobs(jobs, shards, n - 1, b);
      OneMoreShard(jobs, n - 1, b);
    }
  }

  predicate FieldsAddUp(shards: map<nat, ShardDoc>, k: nat) {
    && Field(shards, k, Accepted)
       == Field(shards, k, AsSuccess) + Field(shards, k, AsFailure) + Field(shards, k, AsStale)
          + Field(shards, k, InQueued) + Field(shards, k, InLeased) + Field(shards, k, InBlocked)
    && Field(shards, k, InCompleted) == Field(shards, k, AsSuccess) + Field(shards, k, AsStale)
    && Field(shards, k, InDeadLetter) == Field(shards, k, AsFailure)
  }

  lemma ShardFieldsAddUp(s: State, k: nat)
    requires ProjectionInv(s) && k < SHARD_COUNT
    ensures FieldsAddUp(s.shards, k)
  {
    ShardAddsUp(s, k);
  }

  lemma {:induction false} FanInAddsUp(shards: map<nat, ShardDoc>, n: nat)
    requires forall k: nat :: k < n ==> FieldsAddUp(shards, k)
    ensures FanIn(shards, n, Accepted)
         == FanIn(shards, n, AsSuccess) + FanIn(shards, n, AsFailure) + FanIn(shards, n, AsStale)
            + FanIn(shards, n, InQueued) + FanIn(shards, n, InLeased) + FanIn(shards, n, InBlocked)
    ensures FanIn(shards, n, InCompleted) == FanIn(shards, n, AsSuccess) + FanIn(shards, n, AsStale)
    ensures FanIn(shards, n, InDeadLetter) == FanIn(shards, n, AsFailure)
  {
    if n > 0 {
      FanInAddsUp(shards, n - 1);
      assert FieldsAddUp(shards, n - 1);
    }
  }

  datatype Summary = Summary(accepted: int, success: int, failure: int, stale: int, nonterminal: int,
                             queued: int, leased: int, blockedByok: int, completed: int, deadLetter: int)

  /** Reads the fixed shard set, never the jobs. */
  method GetSummary(shards: map<nat, ShardDoc>) returns (r: Summary)
    ensures r.accepted == FanIn(shards, SHARD_COUNT, Accepted)
    ensures r.success == FanIn(shards, SHARD_COUNT, AsSuccess)
    ensures r.failure == FanIn(shards, SHARD_COUNT, AsFailure)
    ensures r.stale == FanIn(shards, SHARD_COUNT, AsStale)
    ensures r.queued == FanIn(shards, SHARD_COUNT, InQueued) && r.leased == FanIn(shards, SHARD_COUNT, InLeased)
    ensures r.nonterminal == r.queued + r.leased
    ensures r.blockedByok == FanIn(shards, SHARD_COUNT, InBlocked)
    ensures r.completed == FanIn(shards, SHARD_COUNT, InCompleted)
    ensures r.deadLetter == FanIn(shards, SHARD_COUNT, InDeadLetter)
  {
    var names := {Accepted, InQueued, InLeased, InBlocked, InCompleted, InDeadLetter, AsSuccess, AsFailure, AsStale};
    var totals := map b | b in names :: 0;
    for shard := 0 to SHARD_COUNT
      invariant totals.Keys == names && forall b :: b in names ==> totals[b] == FanIn(shards, shard, b)
    {
      totals := map b | b in names :: totals[b] + Field(shards, shard, b);
    }
    r := Summary(totals[Accepted], totals[AsSuccess], totals[AsFailure], totals[AsStale],
                 totals[InQueued] + totals[InLeased], totals[InQueued], totals[InLeased], totals[InBlocked],
                 totals[InCompleted], totals[InDeadLetter]);
  }

  predicate Unfinished(st: Status) { st == Queued || st == Leased || st == BlockedByok }

  /** The answer of the ordered one-row query: the least creation time of a job in this status, if there is any. */
  ghost predicate IsOldest(jobs: map<JobId, Job>, st: Status, first: Option<Time>) {
    && (first.None? ==> forall id :: id in jobs ==> jobs[id].status != st)
    && (first.Some? ==> (exists id :: id in jobs && jobs[id].status == st && jobs[id].createdAt == first.value)
                        && forall id :: id in jobs && jobs[id].status == st ==> first.value <= jobs[id].createdAt)
  }

  /** The age of the oldest unfinished job, BYOK jobs included; zero if there is none, or none is in the past. */
  method OldestNonterminalAge(ghost jobs: map<JobId, Job>, first: map<Status, Option<Time>>, now: Time)
    returns (age: int)
    requires first.Keys == {BlockedByok, Leased, Queued}
    requires forall st :: st in first ==> IsOldest(jobs, st, first[st])
    ensures age >= 0
    ensures forall id :: id in jobs && Unfinished(jobs[id].status) ==> now - jobs[id].createdAt <= age
    ensures age == 0 || exists id :: id in jobs && Unfinished(jobs[id].status) && now - jobs[id].createdAt == age
  {
    age := 0;
    var statuses := [BlockedByok, Leased, Queued];
    for i := 0 to |statuses|
      invariant age >= 0
      invariant forall j, id :: 0 <= j < i && id in jobs && jobs[id].status == statuses[j] ==>
                  now - jobs[id].createdAt <= age
      invariant age == 0 || exists id :: id in jobs && Unfinished(jobs[id].status) && now - jobs[id].createdAt == age
    {
      assert IsOldest(jobs, statuses[i], first[statuses[i]]);
      if first[statuses[i]].Some? {
        var elapsed := now - first[statuses[i]].value;
        if elapsed > age {
          age := elapsed;
        }
      }
    }
    forall id | id in jobs && Unfinished(jobs[id].status)
      ensures now - jobs[id].createdAt <= age
    {
      assert statuses[0] == BlockedByok && statuses[1] == Leased && statuses[2] == Queued;
    }
  }

  /** The summary of any reachable store: nothing is lost between acceptance and an outcome. */
  method SummaryOfRun(s: State, ghost s0: State, ghost ops: seq<Op>) returns (r: Summary)
    requires Rollout(s0) && AllLegal(ops) && s == Run(s0, ops)
    ensures r.accepted == r.success + r.failure + r.stale + r.nonterminal + r.blockedByok
    ensures r.completed == r.success + r.stale && r.deadLetter == r.failure
    ensures r.accepted == |MembersBelow(s.jobs, SHARD_COUNT, Accepted)|
    ensures r.nonterminal == |MembersBelow(s.jobs, SHARD_COUNT, InQueued)|
            + |MembersBelow(s.jobs, SHARD_COUNT, InLeased)|
  {
    RolloutIsExact(s0);
    CountersExactInEveryRun(s0, ops);
    forall k: nat | k < SHARD_COUNT ensures FieldsAddUp(s.shards, k) {
      ShardFieldsAddUp(s, k);
    }
    FanInAddsUp(s.shards, SHARD_COUNT);
    FanInCountsJobs(s.jobs, s.shards, SHARD_COUNT, Accepted);
    FanInCountsJobs(s.jobs, s.shards, SHARD_COUNT, InQueued);
    FanInCountsJobs(s.jobs, s.shards, SHARD_COUNT, InLeased);
    r := GetSummary(s.shards);
  }
}
