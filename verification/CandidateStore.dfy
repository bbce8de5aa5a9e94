/** The candidate transactions, statement by statement, over documents that are updated in place. */
module CandidateStore {
  import opened Prelude
  import opened Candidates

  // ---------------------------------------------------------------- merging evidence

  predicate Distinct(xs: seq<string>) { forall i, j | 0 <= i < j < |xs| :: xs[i] != xs[j] }

  function Keep(kept: seq<string>, x: string): seq<string> { if x in kept then kept else kept + [x] }

  lemma {:induction false} FirstDistinctExtends(refs: seq<string>, kept: seq<string>, cap: nat)
    requires Distinct(kept) && |kept| <= cap
    ensures var r := FirstDistinct(refs, kept, cap); Distinct(r) && |r| <= cap && kept <= r
    decreases |refs|
  {
    if refs != [] && |kept| < cap {
      FirstDistinctExtends(refs[1..], Keep(kept, refs[0]), cap);
    }
  }

  /** An item comes from what was kept or offered, and is dropped only once the cap is reached. */
  lemma {:induction false} FirstDistinctMembers(refs: seq<string>, kept: seq<string>, cap: nat, x: string)
    ensures var r := FirstDistinct(refs, kept, cap);
            (x in r ==> x in kept || x in refs) && (x in kept ==> x in r) && (x in refs && |r| < cap ==> x in r)
    decreases |refs|
  {
    if refs != [] && |kept| < cap {
      FirstDistinctMembers(refs[1..], Keep(kept, refs[0]), cap, x);
    }
  }

  lemma {:induction false} FirstDistinctSkipsPrefix(a: seq<string>, b: seq<string>, kept: seq<string>, cap: nat)
    requires Distinct(kept + a) && |kept + a| <= cap
    ensures FirstDistinct(a + b, kept, cap) == FirstDistinct(b, kept + a, cap)
    decreases |a|
  {
    if a == [] {
      assert a + b == b && kept + a == kept;
    } else {
      assert (a + b)[1..] == a[1..] + b;
      assert kept + a == (kept + [a[0]]) + a[1..];
      assert (kept + a)[|kept|] == a[0];
      assert forall i | 0 <= i < |kept| :: (kept + a)[i] == kept[i];
      FirstDistinctSkipsPrefix(a[1..], b, kept + [a[0]], cap);
    }
  }

  /** Stored evidence survives every merge, in place, whatever a repeated capture brings. */
  lemma MergeKeepsStoredEvidence(c: Candidate, newer: Proposal)
    requires Distinct(c.proposal.notes.evidence) && |c.proposal.notes.evidence| <= 20
    ensures var e := Merged(c, newer).proposal.notes.evidence;
            c.proposal.notes.evidence <= e && Distinct(e) && |e| <= 20
            && (|e| < 20 ==> forall x | x in newer.notes.evidence :: x in e)
  {
    var a, b := c.proposal.notes.evidence, newer.notes.evidence;
    assert [] + a == a;
    FirstDistinctSkipsPrefix(a, b, [], MAX_EVIDENCE);
    FirstDistinctExtends(b, a, MAX_EVIDENCE);
    forall x
      ensures x in b && |FirstDistinct(b, a, MAX_EVIDENCE)| < MAX_EVIDENCE ==> x in FirstDistinct(b, a, MAX_EVIDENCE)
    {
      FirstDistinctMembers(b, a, MAX_EVIDENCE, x);
    }
  }

  predicate AtLeast(a: Option<int>, b: Option<int>) { b.Some? ==> a.Some? && b.value <= a.value }

  /**
   * Merging never weakens an annotation, never goes beyond the stronger of the two, and lets the newer compatibility
   * data win.
   */
  lemma MergingKeepsTheStronger(c: Candidate, newer: Proposal)
    ensures var n, a, b := Merged(c, newer).proposal.notes, c.proposal.notes, newer.notes;
            a.capture <= n.capture && b.capture <= n.capture && (n.capture == a.capture || n.capture == b.capture)
            && a.ownership <= n.ownership && b.ownership <= n.ownership
            && (n.ownership == a.ownership || n.ownership == b.ownership)
            && AtLeast(n.dueConfidence, a.dueConfidence) && AtLeast(n.priority, a.priority)
            && (c.proposal.kind == CreateTask == newer.kind
                ==> AtLeast(n.dueConfidence, b.dueConfidence) && AtLeast(n.priority, b.priority))
            && (n.dueConfidence == a.dueConfidence || n.dueConfidence == b.dueConfidence)
            && (n.priority == a.priority || n.priority == b.priority)
            && (b.compat.None? ==> n.compat == a.compat)
            && (b.compat.Some? && b.compat.value.metadata.Some?
                ==> n.compat.Some? && n.compat.value.metadata == b.compat.value.metadata)
  {
  }

  method MergeEvidence(stored: seq<string>, proposed: seq<string>) returns (evidence: seq<string>)
    ensures evidence == FirstDistinct(stored + proposed, [], MAX_EVIDENCE)
  {
    evidence := [];
    var seen: set<string> := {};
    var refs := stored + proposed;
    for i := 0 to |refs|
      invariant |evidence| < MAX_EVIDENCE
      invariant forall x :: x in seen <==> x in evidence
      invariant FirstDistinct(refs, [], MAX_EVIDENCE) == FirstDistinct(refs[i..], evidence, MAX_EVIDENCE)
    {
      assert refs[i..][1..] == refs[i + 1..];
      if refs[i] in seen {
        continue;
      }
      seen := seen + {refs[i]};
      evidence := evidence + [refs[i]];
      if |evidence| == MAX_EVIDENCE {
        break;
      }
    }
  }

  method MergeCandidateAnnotations(existing: Candidate, proposal: Proposal) returns (merged: Candidate)
    ensures merged == Merged(existing, proposal)
  {
    var a, b := existing.proposal.notes, proposal.notes;
    var evidence := MergeEvidence(a.evidence, b.evidence);
    var compat := MergeCompat(a.compat, b.compat);
    var notes :=
      a.(capture := Max(a.capture, b.capture), ownership := Max(a.ownership, b.ownership), evidence := evidence,
         compat := compat);
    if existing.proposal.kind == CreateTask && proposal.kind == CreateTask {
      notes :=
        notes.(dueConfidence := MaxOption(a.dueConfidence, b.dueConfidence),
               priority := Strongest(a.priority, b.priority));
    }
    merged := existing.(proposal := existing.proposal.(notes := notes));
  }

  // ---------------------------------------------------------------- the store

  class Store {
    var generation: nat
    var candidates: map<CandId, Candidate>
    var aliases: map<CandId, Alias>
    var semantic: map<SemanticKey, CandId>
    var claims: map<CandId, Claim>
    var tasks: map<TaskId, Task>
    var outbox: map<CandId, OutboxRow>
    var nextToken: nat

    ghost function View(): State
      reads this
    {
      State(generation, candidates, aliases, semantic, claims, tasks, outbox, nextToken)
    }

    constructor ()
      ensures View() == EMPTY
    {
      generation, nextToken := 0, 0;
      candidates, aliases, semantic, claims, tasks, outbox := map[], map[], map[], map[], map[], map[];
    }

    method CreateCandidate(accountGeneration: nat, idemKey: string, proposal: Proposal, now: Time)
      returns (r: Result<CandId, Error>)
      modifies `candidates, `aliases, `semantic, `tasks
      ensures (View(), r) == Create(old(View()), accountGeneration, idemKey, proposal, now)
    {
      if Blank(idemKey) {
        return Err(Invalid);
      }
      var id := CandId(accountGeneration, idemKey);
      if generation != accountGeneration {
        return Err(GenerationMismatch);
      }
      if id in aliases {
        var alias := aliases[id];
        if alias.request != proposal {
          return Err(Conflict);
        }
        if alias.candidate !in candidates || alias.candidate.generation != accountGeneration {
          return Err(Conflict);
        }
        return Ok(alias.candidate);
      }
      if id in candidates {
        if candidates[id].proposal != proposal {
          return Err(Conflict);
        }
        aliases := aliases[id := Alias(id, proposal)];
        return Ok(id);
      }
      var key := KeyFor(accountGeneration, proposal);
      if key.Some? && key.value in semantic {
        var at := semantic[key.value];
        if at in candidates && at.generation == accountGeneration {
          var holder := candidates[at];
          var reusableAccept := holder.status == Accepted && holder.task.Some? && holder.task.value in tasks
            && IsActiveFor(tasks[holder.task.value], accountGeneration) && Matches(tasks[holder.task.value], holder);
          if (holder.status == Pending && !Lapsed(holder, now)) || reusableAccept {
            var merged := MergeCandidateAnnotations(holder, proposal);
            candidates := candidates[at := merged];
            if reusableAccept {
              tasks := tasks[holder.task.value := MergedTask(tasks[holder.task.value], merged.proposal.notes)];
            }
            aliases := aliases[id := Alias(merged.id, proposal)];
            semantic := semantic[key.value := merged.id];
            return Ok(merged.id);
          }
        }
      }
      candidates := candidates[id := NewCandidate(id, proposal, now)];
      aliases := aliases[id := Alias(id, proposal)];
      if key.Some? {
        semantic := semantic[key.value := id];
      }
      return Ok(id);
    }

    method ResolveTaskCandidate(id: CandId, accountGeneration: nat, expectedLinks: Option<(string, string)>,
                                linksValid: bool, now: Time)
      returns (r: Result<Receipt, Error>)
      modifies `candidates, `tasks, `outbox
      ensures (View(), r) == ResolveTask(old(View()), id, accountGeneration, expectedLinks, linksValid, now)
    {
      if generation != accountGeneration {
        return Err(GenerationMismatch);
      }
      if id !in candidates {
        return Err(NotFound);
      }
      if id.generation != accountGeneration {
        return Err(GenerationMismatch);
      }
      var c := candidates[id];
      if c.status == Accepted {
        return Ok(ReceiptOf(c, false));
      }
      if c.status != Pending {
        return Err(Conflict);
      }
      if id in claims && (Started(claims[id]) || OwnerActive(claims[id], now)) {
        return Err(Conflict);
      }
      if c.proposal.kind == CreateWorkstream {
        return Err(ResolverUnavailable);
      }
      var task;
      if c.proposal.kind == CreateTask {
        task := ForCandidate(id);
        if !linksValid {
          return Err(Conflict);
        }
        if task in tasks {
          if tasks[task].candidate != Some(id) {
            return Err(Conflict);
          }
        } else {
          tasks := tasks[task := CreatedTask(c)];
        }
      } else {
        task := c.proposal.kind.task;
        if task !in tasks {
          return Err(NotFound);
        }
        var current := tasks[task];
        if current.generation != 0 && current.generation != accountGeneration {
          return Err(GenerationMismatch);
        }
        if expectedLinks.Some? && expectedLinks.value != (current.what.goal, current.what.workstream) {
          return Err(Conflict);
        }
        if !linksValid {
          return Err(Conflict);
        }
        tasks := tasks[task := ChangedTask(current, c)];
      }
      candidates :=
        candidates[id := c.(status := Accepted, task := Some(task), resolvedAt := Some(now), expiresAt := None)];
      if c.proposal.kind == CreateTask {
        outbox := outbox[id := OutboxRow(id, task, accountGeneration, 0)];
      }
      return Ok(ReceiptOf(candidates[id], true));
    }

    method ResolveCandidateWithoutMutation(id: CandId, status: Status, accountGeneration: nat, now: Time)
      returns (r: Result<Receipt, Error>)
      modifies `candidates
      ensures (View(), r) == ResolveWithoutMutation(old(View()), id, status, accountGeneration, now)
    {
      if status != Rejected && status != Expired {
        return Err(Invalid);
      }
      if generation != accountGeneration {
        return Err(GenerationMismatch);
      }
      if id !in candidates {
        return Err(NotFound);
      }
      if id.generation != accountGeneration {
        return Err(GenerationMismatch);
      }
      var c := candidates[id];
      if c.status == status {
        return Ok(ReceiptOf(c, false));
      }
      if c.status != Pending || (id in claims && (Started(claims[id]) || OwnerActive(claims[id], now))) {
        return Err(Conflict);
      }
      candidates := candidates[id := c.(status := status, resolvedAt := Some(now), expiresAt := None)];
      return Ok(ReceiptOf(candidates[id], true));
    }

    method ReconcileMigratedCandidate(id: CandId, status: Status, accountGeneration: nat, task: Option<TaskId>,
                                      at: Time, token: Option<nat>)
      returns (r: Result<CandId, Error>)
      modifies `candidates, `claims
      ensures (View(), r) == Reconcile(old(View()), id, status, accountGeneration, task, at, token)
    {
      if status == Pending || (status == Accepted && task.None?) {
        return Err(Invalid);
      }
      if generation != accountGeneration {
        return Err(GenerationMismatch);
      }
      if id !in candidates {
        return Err(NotFound);
      }
      if id.generation != accountGeneration {
        return Err(GenerationMismatch);
      }
      var c := candidates[id];
      if c.status == status {
        return Ok(id);
      }
      if c.status != Pending {
        return Err(Conflict);
      }
      if id in claims && (Started(claims[id]) || OwnerActive(claims[id], at)) {
        var claim := claims[id];
        if token.None? || claim.token != token.value {
          return Err(Conflict);
        }
        if !OwnerActive(claim, at) || !Started(claim) {
          return Err(Conflict);
        }
        if status != Accepted || task != Some(claim.reserved.value.task) {
          return Err(Conflict);
        }
      } else if token.Some? {
        return Err(Conflict);
      }
      candidates := candidates[id := c.(status := status, task := if task.Some? then task else c.task,
                                        resolvedAt := Some(at), expiresAt := None)];
      if token.Some? {
        claims := claims[id := claims[id].(active := false)];
      }
      return Ok(id);
    }

    method ClaimCandidateForLegacyPromotion(id: CandId, accountGeneration: nat, lease: nat, resume: bool, now: Time)
      returns (r: Result<nat, Error>)
      modifies `claims, `nextToken
      ensures (View(), r) == ClaimPromotion(old(View()), id, accountGeneration, lease, resume, now)
    {
      if generation != accountGeneration {
        return Err(GenerationMismatch);
      }
      if id !in candidates {
        return Err(NotFound);
      }
      if id.generation != accountGeneration {
        return Err(GenerationMismatch);
      }
      if candidates[id].status != Pending {
        return Err(Conflict);
      }
      if id in claims && OwnerActive(claims[id], now) {
        return if resume then Ok(claims[id].token) else Err(Conflict);
      }
      r := Ok(nextToken);
      if id in claims && claims[id].active && claims[id].reserved.Some? {
        claims := claims[id := claims[id].(token := nextToken, leaseExpiresAt := now + lease)];
      } else {
        claims := claims[id := Claim(nextToken, true, now + lease, None)];
      }
      nextToken := nextToken + 1;
    }

    method BeginCandidateLegacyPromotion(id: CandId, accountGeneration: nat, token: nat, task: TaskId,
                                         preferred: Option<TaskId>,
                                         committed: bool, lease: nat, now: Time) returns (r: Result<Reservation, Error>)
      modifies `claims
      ensures (View(), r)
              == BeginPromotion(old(View()), id, accountGeneration, token, task, preferred, committed, lease, now)
    {
      if generation != accountGeneration {
        return Err(GenerationMismatch);
      }
      if id !in candidates {
        return Err(NotFound);
      }
      if id.generation != accountGeneration {
        return Err(GenerationMismatch);
      }
      if candidates[id].status != Pending || id !in claims {
        return Err(Conflict);
      }
      var claim := claims[id];
      if !claim.active || claim.token != token || !OwnerActive(claim, now) {
        return Err(Conflict);
      }
      if claim.reserved.Some? {
        return Ok(claim.reserved.value);
      }
      var reserved := Reservation(task, if committed then AlreadyCommitted else Creates);
      if preferred.Some? && !committed && preferred.value in tasks && tasks[preferred.value].active {
        reserved := Reservation(preferred.value, UsesExisting);
      }
      claims := claims[id := claim.(reserved := Some(reserved), leaseExpiresAt := now + lease)];
      return Ok(reserved);
    }
  }
}
