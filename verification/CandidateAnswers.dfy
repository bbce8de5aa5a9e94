/** What each candidate operation answers and writes, in terms of the stored fields and the documented limits. */
module CandidateAnswers {
  import opened Prelude
  import opened Candidates
  import opened CandidateLifecycle
  import opened CandidateIdentity
  import opened CandidateStore

  // ---------------------------------------------------------------- which work a new capture joins

  /** The time at which the suggestion closes: as stored, or two days after its creation. */
  function ClosesAt(c: Candidate): Time { if c.expiresAt.Some? then c.expiresAt.value else c.createdAt + 172800 }

  /** The task is still the accepted work, of this or no generation, and still to be done. */
  predicate StillToDo(s: State, c: Candidate, g: nat) {
    c.task.Some? && c.task.value in s.tasks
    && var t := s.tasks[c.task.value];
       (t.generation == 0 || t.generation == g) && t.active && t.what == c.proposal.what
  }

  /** A stored candidate takes up a new capture of its work while it is open, or accepted and still to be done. */
  predicate TakesUp(s: State, c: Candidate, g: nat, now: Time) {
    (c.status == Pending && now < ClosesAt(c)) || (c.status == Accepted && StillToDo(s, c, g))
  }

  /**
   * A new request joins the candidate its semantic claim points at exactly if that takes it up; otherwise it makes
   * its own.
   */
  lemma NewCaptureJoinsExactlyWhen(s: State, g: nat, k: string, p: Proposal, now: Time)
    requires Indexed(s) && Arrives(s, g, k)
    ensures var key := SemanticKey(g, p.what);
            Create(s, g, k, p, now).1 ==
            Ok(if p.kind == CreateTask && key in s.semantic && TakesUp(s, s.candidates[s.semantic[key]], g, now)
               then s.semantic[key] else CandId(g, k))
  {
    var key := SemanticKey(g, p.what);
    if key in s.semantic {
      assert KeyResolves(s, key) && OwnId(s, s.semantic[key]);
    }
  }

  /** A capture of its own is a pending candidate that says what was proposed and closes two days later. */
  lemma OwnCandidateCarriesTheProposal(s: State, g: nat, k: string, p: Proposal, now: Time)
    requires Indexed(s) && Arrives(s, g, k) && Create(s, g, k, p, now).1 == Ok(CandId(g, k))
    ensures var s' := Create(s, g, k, p, now).0; var x := CandId(g, k);
            x in s'.candidates && s'.candidates[x].proposal == p && s'.candidates[x].status == Pending
            && s'.candidates[x].createdAt == now && ClosesAt(s'.candidates[x]) == now + 172800
            && s'.candidates[x].task == None && s'.candidates[x].resolvedAt == None
            && s'.tasks == s.tasks && s'.outbox == s.outbox && s'.claims == s.claims
            && s'.candidates.Keys == s.candidates.Keys + {x}
            && (forall y | y in s.candidates :: s'.candidates[y] == s.candidates[y])
            && (p.kind == CreateTask
                ==> SemanticKey(g, p.what) in s'.semantic && s'.semantic[SemanticKey(g, p.what)] == x)
  {
    if Coalesces(s, g, p, now) {
      CoalescingAnswersAnother(s, g, k, p, now);
    } else {
      CreateByInserting(s, g, k, p, now);
    }
  }

  lemma CoalescingAnswersAnother(s: State, g: nat, k: string, p: Proposal, now: Time)
    requires Indexed(s) && Arrives(s, g, k) && Coalesces(s, g, p, now)
    ensures Create(s, g, k, p, now).1 != Ok(CandId(g, k))
  {
    CreateByCoalescing(s, g, k, p, now);
    assert KeyResolves(s, SemanticKey(g, p.what)) && OwnId(s, s.semantic[SemanticKey(g, p.what)]);
  }

  /** A joined candidate keeps everything but its annotations, and no other candidate or task but its own is touched. */
  lemma JoiningOnlyAnnotates(s: State, g: nat, k: string, p: Proposal, now: Time, at: CandId)
    requires Indexed(s) && Arrives(s, g, k) && Create(s, g, k, p, now).1 == Ok(at) && at != CandId(g, k)
    ensures at in s.candidates
    ensures var s' := Create(s, g, k, p, now).0;
            s'.candidates == s.candidates[at := Merged(s.candidates[at], p)] && s'.outbox == s.outbox
              && s'.claims == s.claims
            && s'.semantic == s.semantic
            && SameOutcome(s.candidates[at], s'.candidates[at])
            && s'.candidates[at].expiresAt == s.candidates[at].expiresAt
            && if s.candidates[at].status == Accepted
               then
                 s.candidates[at].task.Some? && s.candidates[at].task.value in s.tasks
                 && s'.tasks == s.tasks[s.candidates[at].task.value :=
                                        MergedTask(s.tasks[s.candidates[at].task.value],
                                                   s'.candidates[at].proposal.notes)]
               else s'.tasks == s.tasks
  {
    if Coalesces(s, g, p, now) {
      CreateByCoalescing(s, g, k, p, now);
      assert KeyResolves(s, SemanticKey(g, p.what)) && OwnId(s, s.semantic[SemanticKey(g, p.what)]);
      CoalesceKeepsIndexes(s, CandId(g, k), p, SemanticKey(g, p.what));
    } else {
      CreateByInserting(s, g, k, p, now);
    }
  }

  /** The task takes over the stronger annotations and every reference, in order, and keeps what it is. */
  lemma JoinedTaskGetsStronger(t: Task, n: Notes)
    requires Distinct(t.notes.evidence)
    ensures var t' := MergedTask(t, n);
            t'.candidate == t.candidate && t'.generation == t.generation && t'.active == t.active && t'.what == t.what
            && t.notes.capture <= t'.notes.capture && n.capture <= t'.notes.capture
            && t'.notes.capture in {t.notes.capture, n.capture}
            && t.notes.ownership <= t'.notes.ownership && n.ownership <= t'.notes.ownership
            && t'.notes.ownership in {t.notes.ownership, n.ownership}
            && AtLeast(t'.notes.dueConfidence, t.notes.dueConfidence)
            && AtLeast(t'.notes.dueConfidence, n.dueConfidence)
            && t'.notes.dueConfidence in {t.notes.dueConfidence, n.dueConfidence}
            && AtLeast(t'.notes.priority, t.notes.priority) && AtLeast(t'.notes.priority, n.priority)
            && t'.notes.priority in {t.notes.priority, n.priority} && t'.notes.compat == t.notes.compat
            && t.notes.evidence <= t'.notes.evidence && Distinct(t'.notes.evidence)
  {
    StoredReferencesAreKept(t.notes.evidence, n.evidence);
  }

  /** Without a cap, merging keeps the stored references in place. */
  lemma StoredReferencesAreKept(a: seq<string>, b: seq<string>)
    requires Distinct(a)
    ensures var e := FirstDistinct(a + b, [], |a| + |b|); a <= e && Distinct(e)
  {
    assert [] + a == a;
    FirstDistinctSkipsPrefix(a, b, [], |a| + |b|);
    FirstDistinctExtends(b, a, |a| + |b|);
  }

  /** And it adds exactly the new ones. */
  lemma AllReferencesAreKept(a: seq<string>, b: seq<string>, x: string)
    ensures x in FirstDistinct(a + b, [], |a| + |b|) <==> x in a || x in b
  {
    NothingIsCapped(a + b, [], |a| + |b|, x);
  }

  lemma {:induction false} NothingIsCapped(refs: seq<string>, kept: seq<string>, cap: nat, x: string)
    requires |kept| + |refs| <= cap
    ensures x in FirstDistinct(refs, kept, cap) <==> x in kept || x in refs
    decreases |refs|
  {
    if refs != [] && |kept| < cap {
      NothingIsCapped(refs[1..], Keep(kept, refs[0]), cap, x);
    }
  }

  /** Of compatibility data each newer field wins, and a field the newer capture leaves out is kept. */
  lemma NewerCompatibilityWins(c: Candidate, newer: Proposal)
    requires newer.notes.compat.Some?
    ensures var n := Merged(c, newer).proposal.notes.compat; var b := newer.notes.compat.value;
            n.Some? && (b.category.Some? ==> n.value.category == b.category)
            && (b.relevance.Some? ==> n.value.relevance == b.relevance)
            && (b.metadata.Some? ==> n.value.metadata == b.metadata)
            && (c.proposal.notes.compat.Some? ==>
                  var a := c.proposal.notes.compat.value;
                  (b.category.None? ==> n.value.category == a.category)
                  && (b.relevance.None? ==> n.value.relevance == a.relevance)
                  && (b.metadata.None? ==> n.value.metadata == a.metadata))
            && (c.proposal.notes.compat.None? ==>
                  (b.category.None? ==> n.value.category == None) && (b.relevance.None? ==> n.value.relevance == None)
                  && (b.metadata.None? ==> n.value.metadata == None))
  {
  }

  /**
   * A key of white space only, a stale generation and a reused key with another proposal are refused, without a
   * write.
   */
  lemma RefusedCreations(s: State, g: nat, k: string, p: Proposal, now: Time)
    ensures (forall i | 0 <= i < |k| :: k[i] in {' ', '\t', '\n', '\r'})
            ==> Create(s, g, k, p, now) == (s, Err(Invalid))
    ensures !Blank(k) && s.generation != g ==> Create(s, g, k, p, now) == (s, Err(GenerationMismatch))
    ensures Repeats(s, g, k) && s.candidates[CandId(g, k)].proposal != p
            ==> Create(s, g, k, p, now) == (s, Err(Conflict))
    ensures Create(s, g, k, p, now).1.Err? ==> Create(s, g, k, p, now).0 == s
  {
  }

  // ---------------------------------------------------------------- resolving

  /** A resolver may look at the candidate: it exists, and candidate, account and request are of one generation. */
  predicate InGeneration(s: State, id: CandId, g: nat) { s.generation == g == id.generation && id in s.candidates }

  /** A promotion holds the candidate: started and not concluded, or claimed under a lease that has not run out. */
  predicate HeldByPromotion(s: State, id: CandId, now: Time) {
    id in s.claims && s.claims[id].active && (s.claims[id].reserved.Some? || now < s.claims[id].leaseExpiresAt)
  }

  /** Open to be resolved, also past its closing time. */
  predicate Resolvable(s: State, id: CandId, g: nat, now: Time) {
    InGeneration(s, id, g) && s.candidates[id].status == Pending && !HeldByPromotion(s, id, now)
  }

  /** A task created for the candidate's own task id before belongs to it. */
  predicate TaskIdIsFree(s: State, id: CandId) {
    ForCandidate(id) in s.tasks ==> s.tasks[ForCandidate(id)].candidate == Some(id)
  }

  predicate LinksAreAsExpected(t: Task, links: Option<(string, string)>) {
    links.None? || (links.value.0 == t.what.goal && links.value.1 == t.what.workstream)
  }

  /** The change applies to an existing task of this or no generation whose links are as the caller saw them. */
  predicate ChangeApplies(s: State, c: Candidate, g: nat, links: Option<(string, string)>) {
    c.proposal.kind.ChangeTask? && c.proposal.kind.task in s.tasks
    && (s.tasks[c.proposal.kind.task].generation == 0 || s.tasks[c.proposal.kind.task].generation == g)
    && LinksAreAsExpected(s.tasks[c.proposal.kind.task], links)
  }

  /**
   * A pending task candidate is accepted exactly if it is resolvable, its links are valid, and its task can be
   * written.
   */
  lemma AcceptedExactlyWhen(s: State, id: CandId, g: nat, links: Option<(string, string)>, ok: bool, now: Time)
    requires id in s.candidates && s.candidates[id].status == Pending
    ensures var o := ResolveTask(s, id, g, links, ok, now); var kind := s.candidates[id].proposal.kind;
            (o.1.Ok? <==> Resolvable(s, id, g, now) && ok
                          && ((kind == CreateTask && TaskIdIsFree(s, id))
                              || ChangeApplies(s, s.candidates[id], g, links)))
            && (o.1.Err? ==> o.0 == s)
            && (o.1.Ok? ==>
                  var task := if kind == CreateTask then ForCandidate(id) else kind.task;
                  o.0.candidates == s.candidates[id := s.candidates[id].(status := Accepted, task := Some(task),
                                                                         resolvedAt := Some(now), expiresAt := None)]
                  && o.1.value.status == Accepted && o.1.value.task == Some(task) && o.1.value.resolvedAt == now
                  && o.1.value.newlyResolved && o.1.value.candidate == s.candidates[id].id)
  {
  }

  /** A candidate already accepted is answered with its receipt; one already dismissed is refused. */
  lemma AcceptingTheResolved(s: State, id: CandId, g: nat, links: Option<(string, string)>, ok: bool, now: Time)
    requires InGeneration(s, id, g) && s.candidates[id].status != Pending
    ensures var o := ResolveTask(s, id, g, links, ok, now);
            o.0 == s
            && if s.candidates[id].status != Accepted then o.1 == Err(Conflict)
               else
                 o.1.Ok? && !o.1.value.newlyResolved && o.1.value.status == Accepted
                 && o.1.value.task == s.candidates[id].task
                 && (s.candidates[id].resolvedAt.Some? ==> o.1.value.resolvedAt == s.candidates[id].resolvedAt.value)
  {
  }

  /** A dismissal records the status asked for, exactly on a resolvable candidate; a repeat is confirmed. */
  lemma DismissedExactlyWhen(s: State, id: CandId, st: Status, g: nat, now: Time)
    ensures var o := ResolveWithoutMutation(s, id, st, g, now);
            if (st == Rejected || st == Expired) && Resolvable(s, id, g, now)
            then
              o.0 == s.(candidates :=
                        s.candidates[id := s.candidates[id].(status := st, resolvedAt := Some(now), expiresAt := None)])
              && o.1.Ok? && o.1.value.newlyResolved && o.1.value.status == st && o.1.value.resolvedAt == now
              && o.1.value.task == None
            else
              o.0 == s
              && (o.1.Ok?
                  <==> (st == Rejected || st == Expired) && InGeneration(s, id, g) && s.candidates[id].status == st)
              && (o.1.Ok? ==> !o.1.value.newlyResolved && o.1.value.status == st && o.1.value.task == None)
  {
  }

  /** Legacy history is imported exactly on a resolvable candidate and without a token; an acceptance names its task. */
  lemma ImportedExactlyWhen(s: State, id: CandId, st: Status, g: nat, task: Option<TaskId>, at: Time)
    ensures var o := Reconcile(s, id, st, g, task, at, None);
            if st != Pending && (st == Accepted ==> task.Some?) && Resolvable(s, id, g, at)
            then
              o.1 == Ok(id)
              && o.0 == s.(candidates :=
                           s.candidates[id := s.candidates[id].(status := st, resolvedAt := Some(at), expiresAt := None,
                                                                task := if task.Some? then task
                                                                        else s.candidates[id].task)])
            else
              o.0 == s
              && (o.1.Ok? <==>
                    st != Pending && (st == Accepted ==> task.Some?) && InGeneration(s, id, g)
                    && s.candidates[id].status == st)
  {
  }

  /** With a token and no promotion holding the candidate, nothing is written. */
  lemma TokenNeedsAPromotion(s: State, id: CandId, st: Status, g: nat, task: Option<TaskId>, at: Time, token: nat)
    requires !HeldByPromotion(s, id, at)
    ensures Reconcile(s, id, st, g, task, at, Some(token)).0 == s
    ensures id in s.candidates && s.candidates[id].status != st
            ==> Reconcile(s, id, st, g, task, at, Some(token)).1.Err?
  {
  }

  /** A concluded promotion records when it was concluded. */
  lemma ConclusionIsTimed(s: State, id: CandId, g: nat, task: TaskId, at: Time, token: nat)
    requires Reconcile(s, id, Accepted, g, Some(task), at, Some(token)).0 != s
    ensures var s' := Reconcile(s, id, Accepted, g, Some(task), at, Some(token)).0;
            id in s'.candidates && s'.candidates[id].resolvedAt == Some(at) && s'.candidates[id].expiresAt == None
            && s'.tasks == s.tasks && s'.outbox == s.outbox
  {
  }

  /** The error every resolver gives for a candidate it may not look at. */
  function NotInGeneration(s: State, id: CandId, g: nat): Error {
    if s.generation == g && id !in s.candidates then NotFound else GenerationMismatch
  }

  /**
   * Why a candidate is not accepted: first what is wrong with the request, then with the candidate, then with its
   * task.
   */
  lemma RefusedAcceptanceSaysWhy(s: State, id: CandId, g: nat, links: Option<(string, string)>, ok: bool, now: Time)
    requires ResolveTask(s, id, g, links, ok, now).1.Err?
    ensures var why := ResolveTask(s, id, g, links, ok, now).1.error;
            if !InGeneration(s, id, g) then why == NotInGeneration(s, id, g)
            else if !Resolvable(s, id, g, now) then why == Conflict
            else
              match s.candidates[id].proposal.kind
              case CreateWorkstream => why == ResolverUnavailable
              case CreateTask => why == Conflict
              case ChangeTask(task, _) =>
                why == (if task !in s.tasks then NotFound
                        else if s.tasks[task].generation == 0 || s.tasks[task].generation == g then Conflict
                        else GenerationMismatch)
  {
  }

  lemma RefusedDismissalSaysWhy(s: State, id: CandId, st: Status, g: nat, now: Time)
    requires ResolveWithoutMutation(s, id, st, g, now).1.Err?
    ensures ResolveWithoutMutation(s, id, st, g, now).1.error ==
            if st != Rejected && st != Expired then Invalid
            else if InGeneration(s, id, g) then Conflict else NotInGeneration(s, id, g)
  {
  }

  lemma RefusedReconciliationSaysWhy(s: State, id: CandId, st: Status, g: nat, t: Option<TaskId>, at: Time,
                                     token: Option<nat>)
    requires Reconcile(s, id, st, g, t, at, token).1.Err?
    ensures Reconcile(s, id, st, g, t, at, token).1.error ==
            if st == Pending || (st == Accepted && t.None?) then Invalid
            else if InGeneration(s, id, g) then Conflict else NotInGeneration(s, id, g)
  {
  }

  lemma RefusedPromotionSaysWhy(s: State, id: CandId, g: nat, token: nat, t: TaskId, pref: Option<TaskId>, done: bool,
                                resume: bool, lease: nat, now: Time)
    ensures var why := if InGeneration(s, id, g) then Conflict else NotInGeneration(s, id, g);
            var c := ClaimPromotion(s, id, g, lease, resume, now).1;
            var b := BeginPromotion(s, id, g, token, t, pref, done, lease, now).1;
            (c.Err? ==> c.error == why) && (b.Err? ==> b.error == why)
  {
  }

  // ---------------------------------------------------------------- legacy promotion

  predicate LeaseRuns(s: State, id: CandId, now: Time) {
    id in s.claims && s.claims[id].active && now < s.claims[id].leaseExpiresAt
  }

  /**
   * A pending candidate is claimed under a new token exactly if no lease on it runs; a started promotion keeps its
   * reservation.
   */
  lemma PromotionIsClaimedExactlyWhen(s: State, id: CandId, g: nat, lease: nat, resume: bool, now: Time)
    ensures var o := ClaimPromotion(s, id, g, lease, resume, now);
            if InGeneration(s, id, g) && s.candidates[id].status == Pending && !LeaseRuns(s, id, now)
            then
              o.1 == Ok(s.nextToken) && o.0.nextToken == s.nextToken + 1 && o.0.candidates == s.candidates
              && o.0.claims == s.claims[id := Claim(s.nextToken, true, now + lease,
                                                    if id in s.claims && s.claims[id].active
                                                      then s.claims[id].reserved else None)]
            else
              o.0 == s && (o.1.Ok? <==> InGeneration(s, id, g) && s.candidates[id].status == Pending && resume)
              && (o.1.Ok? ==> o.1.value == s.claims[id].token)
  {
  }

  /** The reservation is the active task preferred by the caller, unless the legacy write was already made. */
  lemma ReservedTaskIs(s: State, task: TaskId, preferred: Option<TaskId>, committed: bool)
    ensures ReservationFor(s, task, preferred, committed) ==
            if !committed && preferred.Some? && preferred.value in s.tasks && s.tasks[preferred.value].active
            then Reservation(preferred.value, UsesExisting)
            else Reservation(task, if committed then AlreadyCommitted else Creates)
  {
  }

  /**
   * A promotion begins exactly for the token that holds a running lease on the pending candidate, and extends that
   * lease.
   */
  lemma PromotionBeginsExactlyWhen(s: State, id: CandId, g: nat, token: nat, task: TaskId, pref: Option<TaskId>,
                                   done: bool,
                                   lease: nat, now: Time)
    ensures var o := BeginPromotion(s, id, g, token, task, pref, done, lease, now);
            if InGeneration(s, id, g) && s.candidates[id].status == Pending && LeaseRuns(s, id, now)
               && s.claims[id].token == token
            then
              o.1 == Ok(if s.claims[id].reserved.Some? then s.claims[id].reserved.value
                          else ReservationFor(s, task, pref, done))
              && if s.claims[id].reserved.Some? then o.0 == s
                 else
                   o.0 ==
                   s.(claims :=
                      s.claims[id := Claim(token, true, now + lease, Some(ReservationFor(s, task, pref, done)))])
            else o.0 == s && o.1.Err?
  {
  }

  /** The token holds the pending candidate's claim until at least `deadline`. */
  predicate ClaimedUntil(s: State, id: CandId, token: nat, deadline: Time) {
    PendingAt(s, id) && id in s.claims && s.claims[id].active && s.claims[id].token == token
    && deadline <= s.claims[id].leaseExpiresAt
  }

  /** An operation of somebody else, made before the deadline. */
  predicate ByOthers(op: Op, id: CandId, token: nat, deadline: Time) {
    match op
    case DoResolve(_, _, _, _, now) => now < deadline
    case DoDismiss(_, _, _, now) => now < deadline
    case DoReconcile(x, _, _, _, now, presented) => now < deadline && (x == id ==> presented != Some(token))
    case DoClaim(_, _, _, _, now) => now < deadline
    case DoBegin(x, _, t, _, _, _, _, now) => now < deadline && (x == id ==> t != token)
    case _ => true
  }

  lemma OthersLeaveTheClaim(s: State, op: Op, id: CandId, token: nat, deadline: Time)
    requires ClaimedUntil(s, id, token, deadline) && ByOthers(op, id, token, deadline)
    ensures PendingAt(Step(s, op), id) && id in Step(s, op).claims && Step(s, op).claims[id] == s.claims[id]
  {
    match op
    case DoCreate(g, k, p, now) => CreateLeavesPending(s, g, k, p, now, id);
    case DoResolve(x, g, links, ok, now) => ResolveLeavesClaimed(s, x, g, links, ok, now, id);
    case DoDismiss(x, st, g, now) => DismissLeavesClaimed(s, x, st, g, now, id);
    case DoReconcile(x, st, g, t, now, presented) => ReconcileLeavesClaimed(s, x, st, g, t, now, presented, id);
    case DoClaim(x, g, lease, resume, now) => PromotionIsClaimedExactlyWhen(s, x, g, lease, resume, now);
    case DoBegin(x, g, t, task, pref, done, lease, now) =>
      PromotionBeginsExactlyWhen(s, x, g, t, task, pref, done, lease, now);
    case _ =>
  }

  lemma CreateLeavesPending(s: State, g: nat, k: string, p: Proposal, now: Time, id: CandId)
    requires PendingAt(s, id)
    ensures PendingAt(Create(s, g, k, p, now).0, id) && Create(s, g, k, p, now).0.claims == s.claims
  {
  }

  lemma ResolveLeavesClaimed(s: State, x: CandId, g: nat, links: Option<(string, string)>, ok: bool, now: Time,
                             id: CandId)
    requires PendingAt(s, id) && LeaseRuns(s, id, now)
    ensures PendingAt(ResolveTask(s, x, g, links, ok, now).0, id)
            && ResolveTask(s, x, g, links, ok, now).0.claims == s.claims
  {
  }

  lemma DismissLeavesClaimed(s: State, x: CandId, st: Status, g: nat, now: Time, id: CandId)
    requires PendingAt(s, id) && LeaseRuns(s, id, now)
    ensures PendingAt(ResolveWithoutMutation(s, x, st, g, now).0, id)
            && ResolveWithoutMutation(s, x, st, g, now).0.claims == s.claims
  {
  }

  lemma ReconcileLeavesClaimed(s: State, x: CandId, st: Status, g: nat, t: Option<TaskId>, now: Time,
                               presented: Option<nat>, id: CandId)
    requires PendingAt(s, id) && LeaseRuns(s, id, now) && (x == id ==> presented != Some(s.claims[id].token))
    ensures var s' := Reconcile(s, x, st, g, t, now, presented).0;
            PendingAt(s', id) && id in s'.claims && s'.claims[id] == s.claims[id]
  {
  }

  ghost predicate AllByOthers(ops: seq<Op>, id: CandId, token: nat, deadline: Time) {
    forall i | 0 <= i < |ops| :: ByOthers(ops[i], id, token, deadline)
  }

  /** A claimed candidate stays pending and claimed for the whole lease, whatever resolvers and other claimants do. */
  lemma {:induction false} ClaimIsHeldUntilExpiry(s: State, ops: seq<Op>, id: CandId, token: nat, deadline: Time)
    requires ClaimedUntil(s, id, token, deadline) && AllByOthers(ops, id, token, deadline)
    ensures ClaimedUntil(Run(s, ops), id, token, deadline) && Run(s, ops).claims[id] == s.claims[id]
    decreases |ops|
  {
    if ops != [] {
      OthersLeaveTheClaim(s, ops[0], id, token, deadline);
      ClaimIsHeldUntilExpiry(Step(s, ops[0]), ops[1..], id, token, deadline);
    }
  }

  /**
   * So a claimant that begins within its lease gets its reservation and then concludes it, whatever others did in
   * between.
   */
  lemma ClaimantConcludes(s: State, ops: seq<Op>, id: CandId, token: nat, deadline: Time, task: TaskId, lease: nat,
                          now: Time)
    requires ClaimedUntil(s, id, token, deadline) && AllByOthers(ops, id, token, deadline) && now < deadline
             && lease > 0
    requires Run(s, ops).generation == id.generation
    ensures var g := id.generation; var b := BeginPromotion(Run(s, ops), id, g, token, task, None, false, lease, now);
            b.1.Ok? && var c := Reconcile(b.0, id, Accepted, g, Some(b.1.value.task), now, Some(token));
                       c.1 == Ok(id) && Promoted(c.0, id, b.1.value)
  {
    var s', g := Run(s, ops), id.generation;
    ClaimIsHeldUntilExpiry(s, ops, id, token, deadline);
    PromotionBeginsExactlyWhen(s', id, g, token, task, None, false, lease, now);
    var b := BeginPromotion(s', id, g, token, task, None, false, lease, now);
    assert Promoting(b.0, id, b.1.value);
    OnlyTheTokenConcludes(b.0, id, b.1.value, Accepted, g, Some(b.1.value.task), now, Some(token));
  }
}
