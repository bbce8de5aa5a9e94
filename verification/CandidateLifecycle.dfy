/** What every run keeps about one candidate: it is resolved once, and a started promotion owns its outcome. */
module CandidateLifecycle {
  import opened Prelude
  import opened Candidates

  predicate Exists(s: State, id: CandId) { id in s.candidates }

  predicate PendingAt(s: State, id: CandId) { id in s.candidates && s.candidates[id].status == Pending }

  predicate SettledAt(s: State, id: CandId) { id in s.candidates && s.candidates[id].status != Pending }

  /** Everything but annotations and the resolution fields. */
  predicate SameWork(a: Candidate, b: Candidate) {
    a.id == b.id && a.createdAt == b.createdAt && a.proposal.kind == b.proposal.kind
    && a.proposal.what == b.proposal.what
    && a.proposal.text == b.proposal.text && a.proposal.source == b.proposal.source
  }

  predicate SameOutcome(a: Candidate, b: Candidate) {
    a.status == b.status && a.task == b.task && a.resolvedAt == b.resolvedAt
  }

  predicate SameClaim(a: State, b: State, id: CandId) {
    (id in a.claims <==> id in b.claims) && (id in a.claims ==> a.claims[id] == b.claims[id])
  }

  /** The promotion of `id` has started with reservation `r` and is not concluded. */
  predicate Promoting(s: State, id: CandId, r: Reservation) {
    PendingAt(s, id) && id in s.claims && s.claims[id].active && s.claims[id].reserved == Some(r)
  }

  /** The promotion of `id` was concluded with reservation `r`. */
  predicate Promoted(s: State, id: CandId, r: Reservation) {
    id in s.candidates && s.candidates[id].status == Accepted && s.candidates[id].task == Some(r.task)
    && id in s.claims && !s.claims[id].active && s.claims[id].reserved == Some(r)
  }

  /** A started claim belongs to a pending candidate, and a consumed one to the candidate it concluded. */
  predicate ClaimFits(s: State, id: CandId) {
    id in s.claims ==>
      id in s.candidates && (Started(s.claims[id]) ==> PendingAt(s, id))
      && (!s.claims[id].active ==> s.claims[id].reserved.Some? && Promoted(s, id, s.claims[id].reserved.value))
  }

  // ---------------------------------------------------------------- how one candidate may change

  predicate Evolves(a: State, b: State, id: CandId) {
    (id in a.candidates ==> id in b.candidates && SameWork(a.candidates[id], b.candidates[id]))
    && (SettledAt(a, id)
        ==> id in b.candidates && SameOutcome(a.candidates[id], b.candidates[id]) && SameClaim(a, b, id))
    && (id in a.claims && a.claims[id].reserved.Some? && Promoting(a, id, a.claims[id].reserved.value)
        ==> Promoting(b, id, a.claims[id].reserved.value) || Promoted(b, id, a.claims[id].reserved.value))
    && (ClaimFits(a, id) ==> ClaimFits(b, id))
    && (id !in a.candidates && id in b.candidates ==> b.candidates[id].id == id)
  }

  lemma EvolvesTransitive(a: State, b: State, c: State, id: CandId)
    requires Evolves(a, b, id) && Evolves(b, c, id)
    ensures Evolves(a, c, id)
  {
  }

  // The five kinds of write that a transaction can make to candidate and claim documents.

  lemma SameDocuments(a: State, b: State, id: CandId)
    requires b.candidates == a.candidates && b.claims == a.claims
    ensures Evolves(a, b, id)
  {
  }

  lemma Resolving(a: State, b: State, x: CandId, c: Candidate, id: CandId)
    requires PendingAt(a, x) && (x in a.claims ==> !Started(a.claims[x]))
    requires b.candidates == a.candidates[x := c] && b.claims == a.claims && SameWork(a.candidates[x], c)
    ensures Evolves(a, b, id)
  {
  }

  lemma Annotating(a: State, b: State, x: CandId, c: Candidate, id: CandId)
    requires x in a.candidates && SameWork(a.candidates[x], c) && SameOutcome(a.candidates[x], c)
    requires b.candidates == a.candidates[x := c] && b.claims == a.claims
    ensures Evolves(a, b, id)
  {
  }

  lemma Inserting(a: State, b: State, x: CandId, c: Candidate, id: CandId)
    requires x !in a.candidates && c.id == x && b.candidates == a.candidates[x := c] && b.claims == a.claims
    ensures Evolves(a, b, id)
  {
  }

  lemma Claiming(a: State, b: State, x: CandId, k: Claim, id: CandId)
    requires PendingAt(a, x) && b.candidates == a.candidates && b.claims == a.claims[x := k]
    requires k.active && (x in a.claims && Started(a.claims[x]) ==> k.reserved == a.claims[x].reserved)
    ensures Evolves(a, b, id)
  {
  }

  lemma Concluding(a: State, b: State, x: CandId, c: Candidate, id: CandId)
    requires PendingAt(a, x) && x in a.claims && Started(a.claims[x]) && SameWork(a.candidates[x], c)
    requires c.status == Accepted && c.task == Some(a.claims[x].reserved.value.task)
    requires b.candidates == a.candidates[x := c] && b.claims == a.claims[x := a.claims[x].(active := false)]
    ensures Evolves(a, b, id)
  {
  }

  lemma CreateEvolves(s: State, g: nat, k: string, p: Proposal, now: Time, id: CandId)
    ensures Evolves(s, Create(s, g, k, p, now).0, id)
  {
    var s' := Create(s, g, k, p, now).0;
    var x, key := CandId(g, k), KeyFor(g, p);
    if s'.candidates == s.candidates {
      SameDocuments(s, s', id);
    } else if s' == Insert(s, x, p, key, now) {
      Inserting(s, s', x, NewCandidate(x, p, now), id);
    } else {
      var at := s.semantic[key.value];
      Annotating(s, s', at, Merged(s.candidates[at], p), id);
    }
  }

  lemma ResolveEvolves(s: State, x: CandId, g: nat, links: Option<(string, string)>, ok: bool, now: Time, id: CandId)
    ensures Evolves(s, ResolveTask(s, x, g, links, ok, now).0, id)
  {
    var s' := ResolveTask(s, x, g, links, ok, now).0;
    if s' == s {
      SameDocuments(s, s', id);
    } else {
      Resolving(s, s', x, s'.candidates[x], id);
    }
  }

  lemma DismissEvolves(s: State, x: CandId, st: Status, g: nat, now: Time, id: CandId)
    ensures Evolves(s, ResolveWithoutMutation(s, x, st, g, now).0, id)
  {
    var s' := ResolveWithoutMutation(s, x, st, g, now).0;
    if s' == s {
      SameDocuments(s, s', id);
    } else {
      Resolving(s, s', x, s'.candidates[x], id);
    }
  }

  lemma ReconcileEvolves(s: State, x: CandId, st: Status, g: nat, t: Option<TaskId>, now: Time, token: Option<nat>,
                         id: CandId)
    ensures Evolves(s, Reconcile(s, x, st, g, t, now, token).0, id)
  {
    var s' := Reconcile(s, x, st, g, t, now, token).0;
    if s' == s {
      SameDocuments(s, s', id);
    } else if Blocks(s, x, now) {
      Concluding(s, s', x, s'.candidates[x], id);
    } else {
      Resolving(s, s', x, s'.candidates[x], id);
    }
  }

  lemma ClaimEvolves(s: State, x: CandId, g: nat, lease: nat, resume: bool, now: Time, id: CandId)
    ensures Evolves(s, ClaimPromotion(s, x, g, lease, resume, now).0, id)
  {
    var s' := ClaimPromotion(s, x, g, lease, resume, now).0;
    if s' == s {
      SameDocuments(s, s', id);
    } else {
      Claiming(s, s', x, s'.claims[x], id);
    }
  }

  lemma BeginEvolves(s: State, x: CandId, g: nat, token: nat, t: TaskId, pref: Option<TaskId>, done: bool, lease: nat,
                     now: Time, id: CandId)
    ensures Evolves(s, BeginPromotion(s, x, g, token, t, pref, done, lease, now).0, id)
  {
    var s' := BeginPromotion(s, x, g, token, t, pref, done, lease, now).0;
    if s' == s {
      SameDocuments(s, s', id);
    } else {
      Claiming(s, s', x, s'.claims[x], id);
    }
  }

  lemma StepEvolves(s: State, op: Op, id: CandId)
    ensures Evolves(s, Step(s, op), id)
  {
    match op
    case DoCreate(g, k, p, now) => CreateEvolves(s, g, k, p, now, id);
    case DoResolve(x, g, links, ok, now) => ResolveEvolves(s, x, g, links, ok, now, id);
    case DoDismiss(x, st, g, now) => DismissEvolves(s, x, st, g, now, id);
    case DoReconcile(x, st, g, t, now, token) => ReconcileEvolves(s, x, st, g, t, now, token, id);
    case DoClaim(x, g, lease, resume, now) => ClaimEvolves(s, x, g, lease, resume, now, id);
    case DoBegin(x, g, token, t, pref, done, lease, now) => BeginEvolves(s, x, g, token, t, pref, done, lease, now, id);
    case NewGeneration(g) => SameDocuments(s, Step(s, op), id);
    case TaskWrite(t, v) => SameDocuments(s, Step(s, op), id);
    case TaskDelete(t) => SameDocuments(s, Step(s, op), id);
  }

  lemma {:induction false} RunEvolves(s: State, ops: seq<Op>, id: CandId)
    ensures Evolves(s, Run(s, ops), id)
    decreases |ops|
  {
    if ops != [] {
      StepEvolves(s, ops[0], id);
      RunEvolves(Step(s, ops[0]), ops[1..], id);
      EvolvesTransitive(s, Step(s, ops[0]), Run(s, ops), id);
    }
  }

  // ---------------------------------------------------------------- a started promotion owns the outcome

  lemma EveryClaimFits(ops: seq<Op>, id: CandId)
    ensures ClaimFits(Run(EMPTY, ops), id)
  {
    RunEvolves(EMPTY, ops, id);
  }

  /**
   * From mutation start on, whatever else runs, the candidate is pending under this reservation or accepted with its
   * task.
   */
  lemma StartedPromotionOwnsTheOutcome(s: State, ops: seq<Op>, id: CandId, r: Reservation)
    requires Promoting(s, id, r)
    ensures Promoting(Run(s, ops), id, r) || Promoted(Run(s, ops), id, r)
  {
    RunEvolves(s, ops, id);
  }

  /** Reclaiming after a lease expiry, and beginning again, returns the reservation that was made first. */
  lemma LaterBeginsReturnTheReservation(s: State, ops: seq<Op>, id: CandId, r: Reservation, g: nat, token: nat,
                                        t: TaskId,
                                        pref: Option<TaskId>, done: bool, lease: nat, now: Time)
    requires Promoting(s, id, r)
    ensures var s' := Run(s, ops); var o := BeginPromotion(s', id, g, token, t, pref, done, lease, now);
            o.0 == s' && (o.1 == Ok(r) || o.1.Err?)
  {
    StartedPromotionOwnsTheOutcome(s, ops, id, r);
  }

  lemma OthersCannotResolve(s: State, id: CandId, r: Reservation, g: nat, links: Option<(string, string)>, ok: bool,
                            st: Status, now: Time)
    requires Promoting(s, id, r)
    ensures ResolveTask(s, id, g, links, ok, now).0 == s && ResolveTask(s, id, g, links, ok, now).1.Err?
    ensures ResolveWithoutMutation(s, id, st, g, now).0 == s && ResolveWithoutMutation(s, id, st, g, now).1.Err?
  {
    assert Blocks(s, id, now);
  }

  /**
   * While the promotion is open, only its live token, accepting its own task, concludes it; every other attempt
   * changes nothing.
   */
  lemma OnlyTheTokenConcludes(s: State, id: CandId, r: Reservation, st: Status, g: nat, t: Option<TaskId>, at: Time,
                              token: Option<nat>)
    requires Promoting(s, id, r)
    ensures var o := Reconcile(s, id, st, g, t, at, token);
            if s.generation == g == id.generation && st == Accepted && t == Some(r.task)
               && token == Some(s.claims[id].token) && at < s.claims[id].leaseExpiresAt
            then Promoted(o.0, id, r) && o.1 == Ok(id)
            else o.0 == s && o.1.Err?
  {
    assert Blocks(s, id, at);
  }

  /** Once any path has resolved the candidate, no promotion can be claimed or begun, however the run goes on. */
  lemma NoMutationAfterResolution(s: State, ops: seq<Op>, id: CandId, g: nat, token: nat, t: TaskId,
                                  pref: Option<TaskId>,
                                  done: bool, resume: bool, lease: nat, now: Time)
    requires SettledAt(s, id)
    ensures var s' := Run(s, ops);
            BeginPromotion(s', id, g, token, t, pref, done, lease, now).0 == s'
            && BeginPromotion(s', id, g, token, t, pref, done, lease, now).1.Err?
            && ClaimPromotion(s', id, g, lease, resume, now).0 == s'
            && ClaimPromotion(s', id, g, lease, resume, now).1.Err?
  {
    RunEvolves(s, ops, id);
  }

  // ---------------------------------------------------------------- a reclaimed token is void

  /** The token was issued, and another one has since taken the claim. */
  predicate Superseded(s: State, id: CandId, token: nat) {
    token < s.nextToken && id in s.claims && s.claims[id].token != token
  }

  /** Claim documents and the token supply change only together: a new token is always one never issued before. */
  predicate TokensMoveOn(a: State, b: State, id: CandId) {
    a.nextToken <= b.nextToken
    && (id in a.claims
        ==> id in b.claims && (b.claims[id].token == a.claims[id].token || a.nextToken <= b.claims[id].token))
  }

  lemma ReconcileTokens(s: State, x: CandId, st: Status, g: nat, t: Option<TaskId>, now: Time, token: Option<nat>,
                        id: CandId)
    ensures TokensMoveOn(s, Reconcile(s, x, st, g, t, now, token).0, id)
  {
  }

  lemma ClaimTokens(s: State, x: CandId, g: nat, lease: nat, resume: bool, now: Time, id: CandId)
    ensures TokensMoveOn(s, ClaimPromotion(s, x, g, lease, resume, now).0, id)
  {
  }

  lemma BeginTokens(s: State, x: CandId, g: nat, token: nat, t: TaskId, pref: Option<TaskId>, done: bool, lease: nat,
                    now: Time, id: CandId)
    ensures TokensMoveOn(s, BeginPromotion(s, x, g, token, t, pref, done, lease, now).0, id)
  {
  }

  lemma StepTokens(s: State, op: Op, id: CandId)
    ensures TokensMoveOn(s, Step(s, op), id)
  {
    match op
    case DoReconcile(x, st, g, t, now, token) => ReconcileTokens(s, x, st, g, t, now, token, id);
    case DoClaim(x, g, lease, resume, now) => ClaimTokens(s, x, g, lease, resume, now, id);
    case DoBegin(x, g, token, t, pref, done, lease, now) => BeginTokens(s, x, g, token, t, pref, done, lease, now, id);
    case _ =>
  }

  lemma {:induction false} SupersededForEver(s: State, ops: seq<Op>, id: CandId, token: nat)
    requires Superseded(s, id, token)
    ensures Superseded(Run(s, ops), id, token)
    decreases |ops|
  {
    if ops != [] {
      StepTokens(s, ops[0], id);
      SupersededForEver(Step(s, ops[0]), ops[1..], id, token);
    }
  }

  /** A worker whose claim was taken over can neither begin nor conclude the promotion, however late it returns. */
  lemma SupersededTokenWritesNothing(s: State, ops: seq<Op>, id: CandId, token: nat, g: nat, st: Status,
                                     t: Option<TaskId>, task: TaskId,
                                     pref: Option<TaskId>, done: bool, lease: nat, now: Time)
    requires Superseded(s, id, token)
    ensures var s' := Run(s, ops);
            Reconcile(s', id, st, g, t, now, Some(token)).0 == s'
            && BeginPromotion(s', id, g, token, task, pref, done, lease, now).0 == s'
            && BeginPromotion(s', id, g, token, task, pref, done, lease, now).1.Err?
  {
    SupersededForEver(s, ops, id, token);
  }

  // ---------------------------------------------------------------- one resolution per candidate

  /** The operation takes the candidate out of pending. */
  predicate Resolves(s: State, op: Op, id: CandId) {
    !SettledAt(s, id) && SettledAt(Step(s, op), id)
  }

  /** The operation reported to its caller that it resolved `id` just now. */
  predicate ReportsNewly(s: State, op: Op, id: CandId) {
    match op
    case DoResolve(x, g, links, ok, now) =>
      (match ResolveTask(s, x, g, links, ok, now).1 case Ok(r) => x == id && r.newlyResolved case Err(_) => false)
    case DoDismiss(x, st, g, now) =>
      (match ResolveWithoutMutation(s, x, st, g, now).1 case Ok(r) => x == id && r.newlyResolved case Err(_) => false)
    case _ => false
  }

  function Resolutions(s: State, ops: seq<Op>, id: CandId): nat
    decreases |ops|
  {
    if ops == [] then 0
    else (if Resolves(s, ops[0], id) then 1 else 0) + Resolutions(Step(s, ops[0]), ops[1..], id)
  }

  function NewReports(s: State, ops: seq<Op>, id: CandId): nat
    decreases |ops|
  {
    if ops == [] then 0
    else (if ReportsNewly(s, ops[0], id) then 1 else 0) + NewReports(Step(s, ops[0]), ops[1..], id)
  }

  lemma AcceptReportMeansResolution(s: State, x: CandId, g: nat, links: Option<(string, string)>, ok: bool, now: Time,
                                    id: CandId)
    ensures var op := DoResolve(x, g, links, ok, now); ReportsNewly(s, op, id) ==> Resolves(s, op, id)
  {
  }

  lemma ReportMeansResolution(s: State, op: Op, id: CandId)
    ensures ReportsNewly(s, op, id) ==> Resolves(s, op, id)
  {
    if op.DoResolve? {
      AcceptReportMeansResolution(s, op.id, op.generation, op.expectedLinks, op.linksValid, op.now, id);
    }
  }

  /** Exactly one resolution if the run ends with the candidate resolved, and none if it does not. */
  lemma {:induction false} ResolvedExactlyOnce(s: State, ops: seq<Op>, id: CandId)
    ensures Resolutions(s, ops, id) == if !SettledAt(s, id) && SettledAt(Run(s, ops), id) then 1 else 0
    decreases |ops|
  {
    if ops != [] {
      StepEvolves(s, ops[0], id);
      RunEvolves(Step(s, ops[0]), ops[1..], id);
      ResolvedExactlyOnce(Step(s, ops[0]), ops[1..], id);
    }
  }

  /** Across all resolvers of any run, "newly resolved" is reported at most once. */
  lemma {:induction false} NewlyResolvedAtMostOnce(s: State, ops: seq<Op>, id: CandId)
    ensures NewReports(s, ops, id) <= Resolutions(s, ops, id) <= 1
    decreases |ops|
  {
    ResolvedExactlyOnce(s, ops, id);
    if ops != [] {
      ReportMeansResolution(s, ops[0], id);
      NewlyResolvedAtMostOnce(Step(s, ops[0]), ops[1..], id);
    }
  }

  /** Every accept after the first returns the outcome recorded then: same task, same time. */
  lemma LaterAcceptsReturnTheSameReceipt(s: State, ops: seq<Op>, id: CandId, g: nat, links: Option<(string, string)>,
                                         ok: bool, now: Time)
    requires id in s.candidates && s.candidates[id].status == Accepted
    ensures var s' := Run(s, ops); var o := ResolveTask(s', id, g, links, ok, now);
            o.0 == s' && o.1 == if s'.generation == g == id.generation then Ok(ReceiptOf(s.candidates[id], false))
                                  else Err(GenerationMismatch)
  {
    RunEvolves(s, ops, id);
  }
}
