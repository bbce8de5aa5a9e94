/** The transactions themselves, statement by statement, over documents that are updated in place. */
module FinalizationStore {
  import opened Prelude
  import opened FinalizationJobs

  class Store {
    var jobs: map<JobId, Job>
    var convs: map<ConvKey, Conversation>
    var shards: map<nat, ShardDoc>

    ghost function View(): State
      reads this
    {
      State(jobs, convs, shards)
    }

    constructor ()
      ensures View() == State(map[], map[], map[])
    {
      jobs, convs, shards := map[], map[], map[];
    }

    /** Atomically add state deltas for an admitted projection generation. */
    method RecordProjectionDelta(job: Job, plus: set<Bucket>, minus: set<Bucket>)
      modifies `shards
      ensures shards == Record(old(shards), job.shard, plus, minus)
    {
      if job.shard.None? || job.shard.value >= SHARD_COUNT {
        return;
      }
      if plus + minus == {} {
        return;
      }
      var k := job.shard.value;
      var doc := if k in shards then shards[k] else map[];
      shards := shards[k := map b | b in doc.Keys + plus + minus ::
        (if b in doc then doc[b] else 0) + (if b in plus then 1 else 0) - (if b in minus then 1 else 0)];
    }

    method CreateOrGetIntent(key: ConvKey, requiresByok: bool, force: bool, hasContent: bool, admission: Admission,
                             shard: nat,
                             staleAfter: nat, now: Time) returns (r: Intent)
      modifies this
      ensures (View(), r)
              == CreateOrGet(old(View()), key, requiresByok, force, hasContent, admission, shard, staleAfter, now)
    {
      if key !in convs {
        return NoIntent("missing");
      }
      var conversation := convs[key];
      if conversation.deferred {
        return NoIntent("deferred");
      }
      if !hasContent {
        return NoIntent("no_content");
      }
      if admission.terminal {
        return NoIntent(admission.reason);
      }
      if conversation.jobId.Some? && conversation.jobId.value in jobs {
        return IntentOf(conversation.jobId.value, jobs[conversation.jobId.value], false);
      }
      if !admission.accepted || admission.fanoutKey.None? || admission.fanoutKey.value == "" {
        return NoIntent(admission.reason);
      }
      var revision := conversation.revision + 1;
      var id := JobId(key.uid, key.conv, revision);
      if id in jobs {
        convs := convs[key := conversation.(status := Processing, jobId := Some(id), revision := revision,
                                            finalization := Some(jobs[id].status))];
        return IntentOf(id, jobs[id], false);
      }
      var status := if requiresByok then BlockedByok else Queued;
      var job := NewJob(id, requiresByok, force, admission.fanoutKey, shard, staleAfter, now);
      jobs := jobs[id := job];
      RecordProjectionDelta(job, {Accepted, if requiresByok then InBlocked else InQueued}, {});
      convs := convs[key := conversation.(status := Processing, jobId := Some(id), revision := revision,
                                          finalization := Some(status))];
      return IntentOf(id, job, true);
    }

    method ResumeBlockedByokJob(id: JobId, now: Time) returns (r: Intent)
      modifies this
      ensures (View(), r) == ResumeByok(old(View()), id, now)
    {
      if id !in jobs {
        return NoIntent("missing");
      }
      var job := jobs[id];
      if job.status == BlockedByok && job.requiresByok {
        jobs := jobs[id := job.(status := Queued, updatedAt := now, reconcileAfter := None)];
        RecordProjectionDelta(job, {InQueued}, {InBlocked});
      }
      return IntentOf(id, jobs[id], false);
    }

    method ClaimFinalizationJob(id: JobId, generation: nat, allowByok: bool, leaseSeconds: nat, now: Time,
                                expectedUid: Option<Uid>, expectedConv: Option<ConvId>) returns (r: Claim)
      modifies this
      ensures (View(), r)
              == ClaimJob(old(View()), id, generation, allowByok, leaseSeconds, now, expectedUid, expectedConv)
    {
      if id !in jobs {
        return Claim(ClaimMissing, None, 0, None);
      }
      var job := jobs[id];
      if expectedUid.Some? && job.uid != expectedUid.value {
        return Claim(IdentityMismatch, None, 0, None);
      }
      if expectedConv.Some? && job.conv != expectedConv.value {
        return Claim(IdentityMismatch, None, 0, None);
      }
      if job.status == Completed && job.ending == EndFenced {
        return Claim(ClaimFenced, None, 0, None);
      }
      if Terminal(job.status) {
        return Claim(ClaimTerminal(job.status), None, 0, None);
      }
      if job.requiresByok && !allowByok {
        return Claim(ClaimByok, None, 0, None);
      }
      if job.status == BlockedByok {
        return Claim(ClaimByok, None, 0, None);
      }
      if job.generation != generation {
        return Claim(StaleGeneration, None, 0, None);
      }
      if job.status == Leased && job.leaseExpiresAt.Some? && job.leaseExpiresAt.value > now {
        return Claim(StillLeased, None, 0, None);
      }
      var epoch, expires, attempts := job.epoch + 1, now + leaseSeconds, job.attempts + 1;
      jobs := jobs[id := job.(status := Leased, leaseExpiresAt := Some(expires), epoch := epoch,
                              reconcileAfter := if job.requiresByok then None else Some(expires),
                              updatedAt := now, attempts := attempts)];
      if job.status == Queued {
        RecordProjectionDelta(job, {InLeased}, {InQueued});
      }
      return Claim(Claimed, Some(epoch), attempts, Some(job.createdAt));
    }

    method MarkFinalizationCompleted(id: JobId, generation: nat, epoch: nat, now: Time) returns (r: bool)
      modifies this
      ensures (View(), r) == MarkCompleted(old(View()), id, generation, epoch, now)
    {
      if id !in jobs {
        return false;
      }
      var job := jobs[id];
      if job.status == Completed {
        return job.epoch == epoch;
      }
      if !IsCurrent(job, generation, epoch) {
        return false;
      }
      if job.fanout != FanoutCompleted {
        return false;
      }
      jobs :=
        jobs[id :=
             job.(status := Completed, outcome := Success, lastFailure := None, updatedAt := now,
                  leaseExpiresAt := Some(now),
                              reconcileAfter := None)];
      RecordProjectionDelta(job, {InCompleted, AsSuccess}, {InLeased});
      return true;
    }

    method MarkFinalizationFenced(id: JobId, generation: nat, epoch: nat, now: Time) returns (r: bool)
      modifies this
      ensures (View(), r) == MarkFenced(old(View()), id, generation, epoch, now)
    {
      if id !in jobs {
        return false;
      }
      var job := jobs[id];
      if job.status == Completed {
        return job.ending == EndFenced && job.epoch == epoch;
      }
      if !IsCurrent(job, generation, epoch) {
        return false;
      }
      if job.fanout != FanoutPending {
        return false;
      }
      jobs := jobs[id := Fenced(job, now)];
      RecordProjectionDelta(job, {InCompleted, AsStale}, {InLeased});
      return true;
    }

    method ClaimFinalizationFanout(id: JobId, generation: nat, epoch: nat, now: Time) returns (r: FanoutClaim)
      modifies this
      ensures (View(), r) == ClaimFanout(old(View()), id, generation, epoch, now)
    {
      if id !in jobs {
        return FanoutClaim(FanMissing, None);
      }
      var job := jobs[id];
      var key := FanoutKey(job);
      if job.fanout == FanoutCompleted {
        return FanoutClaim(FanCompleted, Some(key));
      }
      if !IsCurrent(job, generation, epoch) {
        return FanoutClaim(FanLeaseConflict, Some(key));
      }
      if job.uid == "" || job.conv == "" {
        jobs := jobs[id := Fenced(job, now)];
        RecordProjectionDelta(job, {InCompleted, AsStale}, {InLeased});
        return FanoutClaim(FanFenced, Some(key));
      }
      var conv := ConvKey(job.uid, job.conv);
      if conv !in convs || !AdmitsFanout(convs[conv], job, id) {
        jobs := jobs[id := Fenced(job, now)];
        RecordProjectionDelta(job, {InCompleted, AsStale}, {InLeased});
        return FanoutClaim(FanFenced, Some(key));
      }
      jobs := jobs[id := job.(fanoutKey := Some(key), fanout := FanoutLeased, fanoutEpoch := epoch, updatedAt := now)];
      return FanoutClaim(FanClaimed, Some(key));
    }

    method MarkFinalizationFanoutCompleted(id: JobId, generation: nat, epoch: nat, now: Time) returns (r: bool)
      modifies this
      ensures (View(), r) == MarkFanoutCompleted(old(View()), id, generation, epoch, now)
    {
      if id !in jobs {
        return false;
      }
      var job := jobs[id];
      if job.fanout == FanoutCompleted {
        return job.fanoutEpoch == epoch;
      }
      if !IsCurrent(job, generation, epoch) {
        return false;
      }
      jobs := jobs[id := job.(fanout := FanoutCompleted, updatedAt := now)];
      return true;
    }

    method MarkFinalizationRetryable(id: JobId, generation: nat, epoch: nat, code: string, staleAfter: nat, now: Time)
      returns (r: bool)
      modifies this
      ensures (View(), r) == MarkRetryable(old(View()), id, generation, epoch, code, staleAfter, now)
    {
      if id !in jobs {
        return false;
      }
      var job := jobs[id];
      if !IsCurrent(job, generation, epoch) {
        return false;
      }
      jobs :=
        jobs[id := job.(status := Queued, updatedAt := now, leaseExpiresAt := Some(now), lastFailure := Some(code),
                              reconcileAfter := if job.requiresByok then None else Some(now + staleAfter))];
      RecordProjectionDelta(job, {InQueued}, {InLeased});
      return true;
    }

    method MarkFinalizationDeadLetter(id: JobId, generation: nat, epoch: nat, retries: nat, now: Time) returns (r: bool)
      modifies this
      ensures (View(), r) == MarkDeadLetter(old(View()), id, generation, epoch, retries, now)
    {
      if id !in jobs {
        return false;
      }
      var job := jobs[id];
      if !IsCurrent(job, generation, epoch) {
        return false;
      }
      var key := ConvKey(job.uid, job.conv);
      var conversation := if job.uid != "" && job.conv != "" && key in convs then Some(convs[key]) else None;
      jobs := jobs[id := job.(status := DeadLetter, outcome := Failure, updatedAt := now, leaseExpiresAt := Some(now),
                              reconcileAfter := None, taskRetries := retries, lastFailure :=
                                Some("final_attempt_failed"))];
      RecordProjectionDelta(job, {InDeadLetter, AsFailure}, {InLeased});
      if conversation.Some? && conversation.value.status == Processing && !conversation.value.discarded
         && conversation.value.jobId == Some(id) && conversation.value.revision == job.revision {
        convs :=
          convs[key := conversation.value.(status := ConvFailed, discarded := true, finalization := Some(DeadLetter))];
      }
      return true;
    }

    method ClaimFinalizationReplay(id: JobId, staleAfter: nat, now: Time) returns (r: Intent)
      modifies this
      ensures (View(), r) == Replay(old(View()), id, staleAfter, now)
    {
      if id !in jobs {
        return NoIntent("missing");
      }
      var job := jobs[id];
      if job.status == BlockedByok || Terminal(job.status) {
        return IntentOf(id, job, false);
      }
      if job.status == Leased && job.leaseExpiresAt.Some? && job.leaseExpiresAt.value > now {
        return IntentOf(id, job, false);
      }
      if job.status == Queued && job.dispatchedAt.Some? && job.dispatchedAt.value > now - staleAfter {
        return IntentOf(id, job, false);
      }
      jobs :=
        jobs[id := job.(status := Queued, generation := job.generation + 1, dispatchedAt := Some(now), updatedAt := now,
                              leaseExpiresAt := Some(now), reconcileAfter := Some(now + staleAfter))];
      if job.status == Leased {
        RecordProjectionDelta(job, {InQueued}, {InLeased});
      }
      return IntentOf(id, jobs[id], false);
    }

    method AbandonByokFinalizationJob(id: JobId, status: Status, generation: nat, epoch: nat, cutoff: Time, now: Time)
      returns (r: Abandonment)
      modifies this
      ensures (View(), r) == Abandon(old(View()), id, status, generation, epoch, cutoff, now)
    {
      if id !in jobs {
        return AbandonMissing;
      }
      var job := jobs[id];
      if !job.requiresByok {
        return AbandonFenced;
      }
      if (job.status != Queued && job.status != Leased) || job.status != status {
        return AbandonFenced;
      }
      if job.generation != generation || job.epoch != epoch {
        return AbandonFenced;
      }
      if job.status == Leased && job.leaseExpiresAt.Some? && job.leaseExpiresAt.value > now {
        return AbandonFenced;
      }
      if job.updatedAt > cutoff {
        return AbandonFenced;
      }
      var key := ConvKey(job.uid, job.conv);
      jobs := jobs[id := job.(status := DeadLetter, outcome := Failure, ending := EndAbandoned, fanout := FanoutFenced,
                              lastFailure := Some("byok_session_abandoned"),
                              updatedAt := now, leaseExpiresAt := Some(now), reconcileAfter := None)];
      RecordProjectionDelta(job, {InDeadLetter, AsFailure}, {if job.status == Queued then InQueued else InLeased});
      if job.uid == "" || job.conv == "" || key !in convs {
        return Abandoned(ConvMissing);
      }
      var conversation := convs[key];
      if conversation.jobId != Some(id) || conversation.revision != job.revision {
        return Abandoned(ConvUnbound);
      }
      if conversation.status != Processing || conversation.discarded {
        return Abandoned(ConvAlreadyTerminal);
      }
      if conversation.deferred {
        return Abandoned(ConvDeferred);
      }
      convs := convs[key := conversation.(status := ConvCompleted, finalization := Some(DeadLetter))];
      return Abandoned(ConvClosed);
    }

    method RecordMeetingReceipt(key: ConvKey, given: Option<JobId>, verdict: Verdict, now: Time)
      returns (r: ReceiptResult)
      modifies this
      ensures (View(), r) == RecordReceipt(old(View()), key, given, verdict, now)
    {
      if key !in convs {
        return ReceiptMissing;
      }
      var conversation := convs[key];
      var id := if given.Some? then given.value
                else if conversation.jobId.Some? then conversation.jobId.value
                else JobId(key.uid, key.conv, conversation.revision + 1);
      var receipt := Receipt(verdict, now, now + RECEIPT_RECONCILE_AFTER);
      if id in jobs {
        if jobs[id].uid != key.uid || jobs[id].conv != key.conv {
          return ReceiptMismatch;
        }
        if jobs[id].receipt.Some? {
          receipt := jobs[id].receipt.value;
        } else {
          jobs := jobs[id := jobs[id].(receipt := Some(receipt))];
        }
      } else {
        jobs := jobs[id := ReceiptJob(key, conversation.revision + 1, receipt, now)];
      }
      var updated := conversation.(jobId := Some(id), meeting := Some(receipt.verdict));
      if conversation.jobId.None? {
        updated := updated.(revision := conversation.revision + 1, finalization := Some(Completed));
      }
      convs := convs[key := updated];
      return Recorded(id, receipt);
    }

    /** Rows of the replay query page that are still queued or leased, in page order. */
    method GetReplayCandidates(page: seq<JobId>, now: Time) returns (result: seq<JobId>)
      requires forall id :: id in page ==>
                 id in jobs && jobs[id].reconcileAfter.Some? && jobs[id].reconcileAfter.value <= now
      ensures result == StillOpen(jobs, page)
    {
      result := [];
      for i := 0 to |page|
        invariant result == StillOpen(jobs, page[..i])
      {
        assert page[..i + 1][..i] == page[..i];
        if jobs[page[i]].status == Queued || jobs[page[i]].status == Leased {
          result := result + [page[i]];
        }
      }
      assert page[..|page|] == page;
    }
  }

  /** The page without the rows that are no longer queued or leased. */
  function StillOpen(jobs: map<JobId, Job>, page: seq<JobId>): seq<JobId> {
    if page == [] then []
    else
      var last := page[|page| - 1];
      StillOpen(jobs, page[..|page| - 1])
      + if last in jobs && (jobs[last].status == Queued || jobs[last].status == Leased) then [last] else []
  }
}
