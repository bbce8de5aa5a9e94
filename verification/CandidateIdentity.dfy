/** Idempotency aliases and the semantic index: retries return one candidate, and equal work has one open suggestion. */
module CandidateIdentity {
  import opened Prelude
  import opened Candidates
  import opened CandidateLifecycle

  // ---------------------------------------------------------------- invariants

  predicate OwnId(s: State, id: CandId) { id in s.candidates ==> s.candidates[id].id == id }

  predicate AliasResolves(s: State, a: CandId) {
    a in s.aliases ==> s.aliases[a].candidate in s.candidates && s.aliases[a].candidate.generation == a.generation
  }

  predicate Describes(c: Candidate, k: SemanticKey) {
    c.id.generation == k.generation && c.proposal.kind == CreateTask && c.proposal.what == k.identity
  }

  predicate KeyResolves(s: State, k: SemanticKey) {
    k in s.semantic ==> s.semantic[k] in s.candidates && Describes(s.candidates[s.semantic[k]], k)
  }

  /** A suggestion to create a task that a reader at time `now` would show. */
  predicate Open(s: State, id: CandId, now: Time) {
    id in s.candidates && s.candidates[id].status == Pending && !Lapsed(s.candidates[id], now)
    && s.candidates[id].proposal.kind == CreateTask
  }

  function KeyAt(s: State, id: CandId): SemanticKey
    requires id in s.candidates
  {
    SemanticKey(id.generation, s.candidates[id].proposal.what)
  }

  predicate IsHeld(s: State, id: CandId) {
    id in s.candidates && KeyAt(s, id) in s.semantic && s.semantic[KeyAt(s, id)] == id
  }

  predicate OpenIsHeld(s: State, id: CandId, now: Time) { Open(s, id, now) ==> IsHeld(s, id) }

  /** Candidates sit under their own id, and aliases and semantic claims resolve. */
  ghost predicate Indexed(s: State) {
    (forall id | id in s.candidates :: OwnId(s, id)) && (forall a | a in s.aliases :: AliasResolves(s, a))
    && (forall k | k in s.semantic :: KeyResolves(s, k))
  }

  /**
   * Every suggestion open for a reader at this time is the one its semantic claim points at; so there is one per
   * work.
   */
  ghost predicate AllHeld(s: State, reader: Time) { forall id | id in s.candidates :: OpenIsHeld(s, id, reader) }

  // ---------------------------------------------------------------- steps that create nothing

  /** No candidate appears, none becomes pending, a pending one is untouched, and both indexes stay. */
  predicate Quiet(a: State, b: State, id: CandId) {
    b.aliases == a.aliases && b.semantic == a.semantic
    && (id in b.candidates ==> id in a.candidates && (PendingAt(b, id) ==> b.candidates[id] == a.candidates[id]))
  }

  lemma ResolveIsQuiet(s: State, x: CandId, g: nat, links: Option<(string, string)>, ok: bool, now: Time, id: CandId)
    ensures Quiet(s, ResolveTask(s, x, g, links, ok, now).0, id)
  {
  }

  lemma DismissIsQuiet(s: State, x: CandId, st: Status, g: nat, now: Time, id: CandId)
    ensures Quiet(s, ResolveWithoutMutation(s, x, st, g, now).0, id)
  {
  }

  lemma ReconcileIsQuiet(s: State, x: CandId, st: Status, g: nat, t: Option<TaskId>, now: Time, token: Option<nat>,
                         id: CandId)
    ensures Quiet(s, Reconcile(s, x, st, g, t, now, token).0, id)
  {
  }

  lemma PromotionIsQuiet(s: State, x: CandId, g: nat, token: nat, t: TaskId, pref: Option<TaskId>, flag: bool,
                         lease: nat, now: Time, id: CandId)
    ensures Quiet(s, ClaimPromotion(s, x, g, lease, flag, now).0, id)
    ensures Quiet(s, BeginPromotion(s, x, g, token, t, pref, flag, lease, now).0, id)
  {
  }

  lemma StepIsQuiet(s: State, op: Op, id: CandId)
    requires !op.DoCreate?
    ensures Quiet(s, Step(s, op), id)
  {
    match op
    case DoResolve(x, g, links, ok, now) => ResolveIsQuiet(s, x, g, links, ok, now, id);
    case DoDismiss(x, st, g, now) => DismissIsQuiet(s, x, st, g, now, id);
    case DoReconcile(x, st, g, t, now, token) => ReconcileIsQuiet(s, x, st, g, t, now, token, id);
    case DoClaim(x, g, lease, resume, now) =>
      PromotionIsQuiet(s, x, g, 0, ForCandidate(x), None, resume, lease, now, id);
    case DoBegin(x, g, token, t, pref, done, lease, now) =>
      PromotionIsQuiet(s, x, g, token, t, pref, done, lease, now, id);
    case _ =>
  }

  lemma QuietKeepsIndexes(a: State, b: State)
    requires Indexed(a) && forall id :: Quiet(a, b, id) && Evolves(a, b, id)
    ensures Indexed(b)
  {
    forall id | id in b.candidates
      ensures OwnId(b, id)
    {
      assert Quiet(a, b, id) && Evolves(a, b, id) && OwnId(a, id);
    }
    forall x | x in b.aliases
      ensures AliasResolves(b, x)
    {
      assert Quiet(a, b, x) && AliasResolves(a, x) && Evolves(a, b, a.aliases[x].candidate);
    }
    forall k | k in b.semantic
      ensures KeyResolves(b, k)
    {
      assert Quiet(a, b, b.semantic[k]) && KeyResolves(a, k) && Evolves(a, b, a.semantic[k]);
    }
  }

  lemma QuietKeepsHeld(a: State, b: State, reader: Time)
    requires AllHeld(a, reader) && forall id :: Quiet(a, b, id)
    ensures AllHeld(b, reader)
  {
    forall id | id in b.candidates
      ensures OpenIsHeld(b, id, reader)
    {
      assert Quiet(a, b, id) && OpenIsHeld(a, id, reader);
    }
  }

  // ---------------------------------------------------------------- creation: the indexes

  lemma CoalesceKeepsIndexes(s: State, x: CandId, p: Proposal, key: SemanticKey)
    requires Indexed(s) && x !in s.aliases && key in s.semantic && x.generation == key.generation
    requires s.semantic[key] in s.candidates
    ensures Indexed(Coalesce(s, x, s.semantic[key], p, key))
    ensures Coalesce(s, x, s.semantic[key], p, key).semantic == s.semantic
  {
    var at := s.semantic[key];
    var b := Coalesce(s, x, at, p, key);
    assert OwnId(s, at) && KeyResolves(s, key);
    assert b.semantic == s.semantic;
    assert SameWork(s.candidates[at], b.candidates[at]);
    forall id | id in b.candidates
      ensures OwnId(b, id)
    {
      assert OwnId(s, id);
    }
    forall a | a in b.aliases
      ensures AliasResolves(b, a)
    {
      assert a in s.aliases ==> AliasResolves(s, a);
    }
    forall k | k in b.semantic
      ensures KeyResolves(b, k)
    {
      assert KeyResolves(s, k);
    }
  }

  lemma InsertKeepsIndexes(s: State, x: CandId, p: Proposal, now: Time)
    requires Indexed(s) && x !in s.candidates
    ensures Indexed(Insert(s, x, p, KeyFor(x.generation, p), now))
  {
    var b := Insert(s, x, p, KeyFor(x.generation, p), now);
    forall id | id in b.candidates
      ensures OwnId(b, id)
    {
      assert id in s.candidates ==> OwnId(s, id);
    }
    forall a | a in b.aliases
      ensures AliasResolves(b, a)
    {
      assert a in s.aliases ==> AliasResolves(s, a);
    }
    forall k | k in b.semantic
      ensures KeyResolves(b, k)
    {
      assert k in s.semantic ==> KeyResolves(s, k);
    }
  }

  lemma RealiasKeepsIndexes(s: State, x: CandId, p: Proposal)
    requires Indexed(s) && x in s.candidates
    ensures Indexed(s.(aliases := s.aliases[x := Alias(x, p)]))
  {
    var b := s.(aliases := s.aliases[x := Alias(x, p)]);
    forall id | id in b.candidates
      ensures OwnId(b, id)
    {
      assert OwnId(s, id);
    }
    forall a | a in b.aliases
      ensures AliasResolves(b, a)
    {
      assert a in s.aliases ==> AliasResolves(s, a);
    }
    forall k | k in b.semantic
      ensures KeyResolves(b, k)
    {
      assert KeyResolves(s, k);
    }
  }

  // The four ways a creation can go.

  /** The request reaches the semantic index: live generation, a proper key that was never used. */
  predicate Arrives(s: State, g: nat, k: string) {
    !Blank(k) && s.generation == g && CandId(g, k) !in s.aliases && CandId(g, k) !in s.candidates
  }

  predicate Repeats(s: State, g: nat, k: string) {
    !Blank(k) && s.generation == g && CandId(g, k) !in s.aliases && CandId(g, k) in s.candidates
  }

  predicate Coalesces(s: State, g: nat, p: Proposal, now: Time) {
    var h := Holder(s, KeyFor(g, p));
    h.Some? && (ReusablePending(h.value, now) || ReusableAccepted(s, h.value, g))
  }

  lemma CreateByCoalescing(s: State, g: nat, k: string, p: Proposal, now: Time)
    requires Arrives(s, g, k) && Coalesces(s, g, p, now)
    ensures p.kind == CreateTask && SemanticKey(g, p.what) in s.semantic
            && s.semantic[SemanticKey(g, p.what)] in s.candidates
    ensures var key := SemanticKey(g, p.what); var at := s.semantic[key];
            Create(s, g, k, p, now) == (Coalesce(s, CandId(g, k), at, p, key), Ok(s.candidates[at].id))
  {
  }

  lemma CreateByInserting(s: State, g: nat, k: string, p: Proposal, now: Time)
    requires Arrives(s, g, k) && !Coalesces(s, g, p, now)
    ensures Create(s, g, k, p, now) == (Insert(s, CandId(g, k), p, KeyFor(g, p), now), Ok(CandId(g, k)))
  {
  }

  lemma CreateByRepeating(s: State, g: nat, k: string, p: Proposal, now: Time)
    requires Repeats(s, g, k)
    ensures var x := CandId(g, k);
            Create(s, g, k, p, now) == if s.candidates[x].proposal != p then (s, Err(Conflict))
                                       else (s.(aliases := s.aliases[x := Alias(x, p)]), Ok(x))
  {
  }

  lemma CreateOtherwise(s: State, g: nat, k: string, p: Proposal, now: Time)
    requires !Arrives(s, g, k) && !Repeats(s, g, k)
    ensures Create(s, g, k, p, now).0 == s
    ensures Create(s, g, k, p, now).1.Ok? ==>
              !Blank(k) && CandId(g, k) in s.aliases
              && s.aliases[CandId(g, k)] == Alias(Create(s, g, k, p, now).1.value, p)
  {
  }

  lemma CreateKeepsIndexes(s: State, g: nat, k: string, p: Proposal, now: Time)
    requires Indexed(s)
    ensures Indexed(Create(s, g, k, p, now).0)
  {
    if !Arrives(s, g, k) {
      if Repeats(s, g, k) {
        CreateByRepeating(s, g, k, p, now);
        RealiasKeepsIndexes(s, CandId(g, k), p);
      } else {
        CreateOtherwise(s, g, k, p, now);
      }
    } else if Coalesces(s, g, p, now) {
      CreateByCoalescing(s, g, k, p, now);
      CoalesceKeepsIndexes(s, CandId(g, k), p, SemanticKey(g, p.what));
    } else {
      CreateByInserting(s, g, k, p, now);
      InsertKeepsIndexes(s, CandId(g, k), p, now);
    }
  }

  lemma StepKeepsIndexes(s: State, op: Op)
    requires Indexed(s)
    ensures Indexed(Step(s, op))
  {
    if op.DoCreate? {
      CreateKeepsIndexes(s, op.generation, op.idemKey, op.proposal, op.now);
    } else {
      forall id
        ensures Quiet(s, Step(s, op), id) && Evolves(s, Step(s, op), id)
      {
        StepIsQuiet(s, op, id);
        StepEvolves(s, op, id);
      }
      QuietKeepsIndexes(s, Step(s, op));
    }
  }

  /** Whatever the clocks say, both indexes resolve in every run. */
  lemma {:induction false} RunKeepsIndexes(s: State, ops: seq<Op>)
    requires Indexed(s)
    ensures Indexed(Run(s, ops))
    decreases |ops|
  {
    if ops != [] {
      StepKeepsIndexes(s, ops[0]);
      RunKeepsIndexes(Step(s, ops[0]), ops[1..]);
    }
  }

  // ---------------------------------------------------------------- creation: one open suggestion per work

  /** A new suggestion displaces the held one, which has lapsed for the writer but is still open for the reader. */
  predicate DisplacesOpen(s: State, op: Op, reader: Time) {
    op.DoCreate? && Arrives(s, op.generation, op.idemKey) && op.proposal.kind == CreateTask
    && var key := SemanticKey(op.generation, op.proposal.what);
       key in s.semantic && Open(s, s.semantic[key], reader) && Lapsed(s.candidates[s.semantic[key]], op.now)
  }

  lemma CoalesceKeepsHeld(s: State, x: CandId, p: Proposal, key: SemanticKey, reader: Time)
    requires Indexed(s) && AllHeld(s, reader) && x !in s.aliases && x.generation == key.generation
    requires key in s.semantic && s.semantic[key] in s.candidates
    ensures AllHeld(Coalesce(s, x, s.semantic[key], p, key), reader)
  {
    var b := Coalesce(s, x, s.semantic[key], p, key);
    CoalesceKeepsIndexes(s, x, p, key);
    forall id | id in b.candidates
      ensures OpenIsHeld(b, id, reader)
    {
      assert OpenIsHeld(s, id, reader);
    }
  }

  /** The claim may be taken over: whatever it points at is not open for the reader. */
  predicate Vacant(s: State, key: Option<SemanticKey>, reader: Time) {
    key.Some? && key.value in s.semantic ==> !Open(s, s.semantic[key.value], reader)
  }

  lemma InsertKeepsHeld(s: State, x: CandId, p: Proposal, now: Time, reader: Time)
    requires AllHeld(s, reader) && x !in s.candidates && Vacant(s, KeyFor(x.generation, p), reader)
    ensures AllHeld(Insert(s, x, p, KeyFor(x.generation, p), now), reader)
  {
    var b := Insert(s, x, p, KeyFor(x.generation, p), now);
    forall id | id in b.candidates
      ensures OpenIsHeld(b, id, reader)
    {
      assert id in s.candidates ==> OpenIsHeld(s, id, reader);
    }
  }

  lemma InsertionIsVacantOrDisplaces(s: State, op: Op, reader: Time)
    requires Indexed(s) && op.DoCreate? && Arrives(s, op.generation, op.idemKey)
    requires !Coalesces(s, op.generation, op.proposal, op.now)
    ensures !DisplacesOpen(s, op, reader) <==> Vacant(s, KeyFor(op.generation, op.proposal), reader)
  {
    var key := KeyFor(op.generation, op.proposal);
    if key.Some? && key.value in s.semantic {
      assert KeyResolves(s, key.value) && OwnId(s, s.semantic[key.value]);
    }
  }

  /** A lapsed holder is not reused, so a displacing creation inserts. */
  lemma DisplacementInserts(s: State, op: Op, reader: Time)
    requires DisplacesOpen(s, op, reader)
    ensures !Coalesces(s, op.generation, op.proposal, op.now)
  {
  }

  /**
   * After a displacement both suggestions stand under one key: the reader still sees the old one, which nothing
   * holds.
   */
  lemma DisplacedStaysOpen(s: State, op: Op, reader: Time)
    requires Indexed(s) && DisplacesOpen(s, op, reader) && !Coalesces(s, op.generation, op.proposal, op.now)
    ensures var s', x := Step(s, op), CandId(op.generation, op.idemKey);
            var key := SemanticKey(op.generation, op.proposal.what);
            var y := s.semantic[key];
            x != y && Open(s', y, reader) && KeyAt(s', y) == key && !IsHeld(s', y)
            && Open(s', x, reader) && KeyAt(s', x) == key
  {
    var key := SemanticKey(op.generation, op.proposal.what);
    assert KeyResolves(s, key) && OwnId(s, s.semantic[key]);
    CreateByInserting(s, op.generation, op.idemKey, op.proposal, op.now);
  }

  /** A step loses hold of a suggestion open for the reader exactly when it displaces one. */
  lemma HeldExactlyUnlessDisplaced(s: State, op: Op, reader: Time)
    requires Indexed(s) && AllHeld(s, reader)
    ensures AllHeld(Step(s, op), reader) <==> !DisplacesOpen(s, op, reader)
  {
    if !op.DoCreate? {
      forall id
        ensures Quiet(s, Step(s, op), id)
      {
        StepIsQuiet(s, op, id);
      }
      QuietKeepsHeld(s, Step(s, op), reader);
    } else if !Arrives(s, op.generation, op.idemKey) {
      NonArrivalKeepsHeld(s, op, reader);
    } else if Coalesces(s, op.generation, op.proposal, op.now) {
      if DisplacesOpen(s, op, reader) {
        DisplacementInserts(s, op, reader);
      }
      CreateByCoalescing(s, op.generation, op.idemKey, op.proposal, op.now);
      CoalesceKeepsHeld(s, CandId(op.generation, op.idemKey), op.proposal,
                        SemanticKey(op.generation, op.proposal.what), reader);
    } else {
      InsertionIsVacantOrDisplaces(s, op, reader);
      CreateByInserting(s, op.generation, op.idemKey, op.proposal, op.now);
      if DisplacesOpen(s, op, reader) {
        DisplacedStaysOpen(s, op, reader);
        assert !OpenIsHeld(Step(s, op), s.semantic[SemanticKey(op.generation, op.proposal.what)], reader);
      } else {
        InsertKeepsHeld(s, CandId(op.generation, op.idemKey), op.proposal, op.now, reader);
      }
    }
  }

  lemma NonArrivalKeepsHeld(s: State, op: Op, reader: Time)
    requires AllHeld(s, reader) && op.DoCreate? && !Arrives(s, op.generation, op.idemKey)
    ensures AllHeld(Step(s, op), reader)
  {
    if Repeats(s, op.generation, op.idemKey) {
      CreateByRepeating(s, op.generation, op.idemKey, op.proposal, op.now);
    } else {
      CreateOtherwise(s, op.generation, op.idemKey, op.proposal, op.now);
    }
    forall id | id in s.candidates
      ensures OpenIsHeld(Step(s, op), id, reader)
    {
      assert OpenIsHeld(s, id, reader);
    }
  }

  /** Two different suggestions for one work are open for the reader. */
  ghost predicate TwoOpen(s: State, reader: Time) {
    exists x, y | x in s.candidates && y in s.candidates :: AreTwoOpen(s, x, y, reader)
  }

  predicate AreTwoOpen(s: State, x: CandId, y: CandId, reader: Time) {
    x != y && Open(s, x, reader) && Open(s, y, reader) && KeyAt(s, x) == KeyAt(s, y)
  }

  lemma HeldMeansNotTwo(s: State, reader: Time)
    requires AllHeld(s, reader)
    ensures !TwoOpen(s, reader)
  {
    forall x, y | x in s.candidates && y in s.candidates
      ensures !AreTwoOpen(s, x, y, reader)
    {
      assert OpenIsHeld(s, x, reader) && OpenIsHeld(s, y, reader);
    }
  }

  /**
   * A second open suggestion appears for a reader exactly when the held one has lapsed for the writer and not yet for
   * the reader.
   */
  lemma SecondSuggestionExactlyWhen(s: State, op: Op, reader: Time)
    requires Indexed(s) && AllHeld(s, reader)
    ensures TwoOpen(Step(s, op), reader) <==> DisplacesOpen(s, op, reader)
  {
    HeldExactlyUnlessDisplaced(s, op, reader);
    if !DisplacesOpen(s, op, reader) {
      HeldMeansNotTwo(Step(s, op), reader);
    } else {
      DisplacementShowsTwo(s, op, reader);
    }
  }

  lemma DisplacementShowsTwo(s: State, op: Op, reader: Time)
    requires Indexed(s) && DisplacesOpen(s, op, reader)
    ensures TwoOpen(Step(s, op), reader)
  {
    var x, y := CandId(op.generation, op.idemKey), s.semantic[SemanticKey(op.generation, op.proposal.what)];
    DisplacementInserts(s, op, reader);
    DisplacedStaysOpen(s, op, reader);
    assert AreTwoOpen(Step(s, op), x, y, reader);
  }

  // ---------------------------------------------------------------- runs, for any reader and any clocks

  predicate EverDisplaces(s: State, ops: seq<Op>, reader: Time)
    decreases |ops|
  {
    ops != [] && (DisplacesOpen(s, ops[0], reader) || EverDisplaces(Step(s, ops[0]), ops[1..], reader))
  }

  ghost predicate HeldThroughout(s: State, ops: seq<Op>, reader: Time)
    decreases |ops|
  {
    AllHeld(s, reader) && (ops != [] ==> HeldThroughout(Step(s, ops[0]), ops[1..], reader))
  }

  ghost predicate NeverTwoOpen(s: State, ops: seq<Op>, reader: Time)
    decreases |ops|
  {
    !TwoOpen(s, reader) && (ops != [] ==> NeverTwoOpen(Step(s, ops[0]), ops[1..], reader))
  }

  /**
   * Over any run, with any clocks, for any reader: there are never two open suggestions for one work, and the open one
   * is always the one its claim points at, if and only if no creation displaces one that is still open for the reader.
   */
  lemma {:induction false} OneOpenSuggestionExactlyWhen(s: State, ops: seq<Op>, reader: Time)
    requires Indexed(s) && AllHeld(s, reader)
    ensures HeldThroughout(s, ops, reader) <==> !EverDisplaces(s, ops, reader)
    ensures NeverTwoOpen(s, ops, reader) <==> !EverDisplaces(s, ops, reader)
    ensures !EverDisplaces(s, ops, reader) ==> AllHeld(Run(s, ops), reader)
    decreases |ops|
  {
    HeldMeansNotTwo(s, reader);
    if ops != [] {
      StepKeepsIndexes(s, ops[0]);
      HeldExactlyUnlessDisplaced(s, ops[0], reader);
      SecondSuggestionExactlyWhen(s, ops[0], reader);
      if !DisplacesOpen(s, ops[0], reader) {
        OneOpenSuggestionExactlyWhen(Step(s, ops[0]), ops[1..], reader);
      }
    }
  }

  /** No writer's clock was ahead of the reader's. */
  predicate NotAheadOf(ops: seq<Op>, reader: Time) {
    forall i | 0 <= i < |ops| :: ops[i].DoCreate? ==> ops[i].now <= reader
  }

  lemma {:induction false} WritersBehindDisplaceNothing(s: State, ops: seq<Op>, reader: Time)
    requires NotAheadOf(ops, reader)
    ensures !EverDisplaces(s, ops, reader)
    decreases |ops|
  {
    if ops != [] {
      assert ops[0].DoCreate? ==> ops[0].now <= reader;
      WritersBehindDisplaceNothing(Step(s, ops[0]), ops[1..], reader);
    }
  }

  /**
   * For a reader no writer was ahead of, in whatever order the writers' clocks read: two open suggestions for the same
   * work in the same generation are the same candidate, the one the index holds.
   */
  lemma OneOpenSuggestionPerWork(ops: seq<Op>, reader: Time, x: CandId, y: CandId)
    requires NotAheadOf(ops, reader)
    requires var s := Run(EMPTY, ops); Open(s, x, reader) && Open(s, y, reader) && KeyAt(s, x) == KeyAt(s, y)
    ensures x == y && IsHeld(Run(EMPTY, ops), x)
  {
    var s := Run(EMPTY, ops);
    WritersBehindDisplaceNothing(EMPTY, ops, reader);
    OneOpenSuggestionExactlyWhen(EMPTY, ops, reader);
    assert OpenIsHeld(s, x, reader) && OpenIsHeld(s, y, reader);
  }

  // ---------------------------------------------------------------- aliases

  predicate AliasKept(a: State, b: State, x: CandId) {
    x in a.aliases ==> x in b.aliases && b.aliases[x] == a.aliases[x]
  }

  lemma StepKeepsAlias(s: State, op: Op, x: CandId)
    ensures AliasKept(s, Step(s, op), x)
  {
    if !op.DoCreate? {
      StepIsQuiet(s, op, x);
    }
  }

  lemma {:induction false} AliasesAreImmutable(s: State, ops: seq<Op>, x: CandId)
    ensures AliasKept(s, Run(s, ops), x)
    decreases |ops|
  {
    if ops != [] {
      StepKeepsAlias(s, ops[0], x);
      AliasesAreImmutable(Step(s, ops[0]), ops[1..], x);
    }
  }

  /** A request that succeeds leaves its alias bound to its answer, an existing candidate of the generation. */
  predicate Binds(s: State, g: nat, k: string, p: Proposal, c: CandId) {
    CandId(g, k) in s.aliases && s.aliases[CandId(g, k)] == Alias(c, p) && c in s.candidates && c.generation == g
  }

  lemma CoalesceBinds(s: State, g: nat, k: string, p: Proposal)
    requires Indexed(s) && SemanticKey(g, p.what) in s.semantic
    ensures var key := SemanticKey(g, p.what); var at := s.semantic[key];
            at in s.candidates && s.candidates[at].id == at && Binds(Coalesce(s, CandId(g, k), at, p, key), g, k, p, at)
  {
    var key := SemanticKey(g, p.what);
    assert KeyResolves(s, key) && OwnId(s, s.semantic[key]);
  }

  lemma InsertBinds(s: State, g: nat, k: string, p: Proposal, now: Time)
    ensures Binds(Insert(s, CandId(g, k), p, KeyFor(g, p), now), g, k, p, CandId(g, k))
  {
  }

  lemma CreateBindsItsAlias(s: State, g: nat, k: string, p: Proposal, now: Time)
    requires Indexed(s) && Create(s, g, k, p, now).1.Ok?
    ensures !Blank(k) && Binds(Create(s, g, k, p, now).0, g, k, p, Create(s, g, k, p, now).1.value)
  {
    if !Arrives(s, g, k) {
      if Repeats(s, g, k) {
        CreateByRepeating(s, g, k, p, now);
      } else {
        CreateOtherwise(s, g, k, p, now);
        assert AliasResolves(s, CandId(g, k));
      }
    } else if Coalesces(s, g, p, now) {
      CreateByCoalescing(s, g, k, p, now);
      CoalesceBinds(s, g, k, p);
    } else {
      CreateByInserting(s, g, k, p, now);
      InsertBinds(s, g, k, p, now);
    }
  }

  lemma BoundRetryAnswers(s: State, g: nat, k: string, p: Proposal, c: CandId, q: Proposal, later: Time)
    requires !Blank(k) && Binds(s, g, k, p, c)
    ensures Create(s, g, k, q, later) ==
            (s, if s.generation != g then Err(GenerationMismatch) else if q == p then Ok(c) else Err(Conflict))
  {
  }

  /**
   * A retry, however much later, returns the candidate of the first call and changes nothing;
   * another proposal under the same key is refused.
   */
  lemma RetriesReturnTheSameCandidate(s: State, g: nat, k: string, p: Proposal, now: Time, ops: seq<Op>, q: Proposal,
                                      later: Time)
    requires Indexed(s) && Create(s, g, k, p, now).1.Ok?
    ensures var o := Create(s, g, k, p, now); var s' := Run(o.0, ops);
            Create(s', g, k, q, later)
            == (s', if s'.generation != g then Err(GenerationMismatch) else if q == p then o.1 else Err(Conflict))
  {
    var o := Create(s, g, k, p, now);
    CreateBindsItsAlias(s, g, k, p, now);
    AliasesAreImmutable(o.0, ops, CandId(g, k));
    RunEvolves(o.0, ops, o.1.value);
    BoundRetryAnswers(Run(o.0, ops), g, k, p, o.1.value, q, later);
  }

  /** Every alias of every reachable state names an existing candidate of its own generation. */
  lemma EveryAliasResolves(ops: seq<Op>, a: CandId)
    requires a in Run(EMPTY, ops).aliases
    ensures AliasResolves(Run(EMPTY, ops), a)
  {
    RunKeepsIndexes(EMPTY, ops);
  }

  /** The candidate returned for a task creation is one for that very work: coalescing never answers with other work. */
  lemma CreateAnswersWithTheSameWork(s: State, g: nat, k: string, p: Proposal, now: Time)
    requires Indexed(s) && p.kind == CreateTask && CandId(g, k) !in s.aliases && Create(s, g, k, p, now).1.Ok?
    ensures var o := Create(s, g, k, p, now);
            o.1.value in o.0.candidates && Describes(o.0.candidates[o.1.value], SemanticKey(g, p.what))
  {
    if !Arrives(s, g, k) {
      CreateByRepeating(s, g, k, p, now);
      assert OwnId(s, CandId(g, k));
    } else if Coalesces(s, g, p, now) {
      CreateByCoalescing(s, g, k, p, now);
      assert KeyResolves(s, SemanticKey(g, p.what)) && OwnId(s, s.semantic[SemanticKey(g, p.what)]);
    } else {
      CreateByInserting(s, g, k, p, now);
    }
  }

  /** A concrete displacement: a reader whose clock is behind sees two open suggestions for one work. */
  lemma ClockMustNotRunBack(p: Proposal)
    requires p.kind == CreateTask
    ensures var s := Run(EMPTY, [DoCreate(0, "a", p, 0), DoCreate(0, "b", p, SUGGESTION_TTL)]);
            Open(s, CandId(0, "a"), 0) && Open(s, CandId(0, "b"), 0)
            && KeyAt(s, CandId(0, "a")) == KeyAt(s, CandId(0, "b"))
  {
    var first, second := DoCreate(0, "a", p, 0), DoCreate(0, "b", p, SUGGESTION_TTL);
    var s1 := Step(EMPTY, first);
    assert "a"[0] !in " \t\n\r" && "b"[0] !in " \t\n\r";
    assert s1 == Insert(EMPTY, CandId(0, "a"), p, KeyFor(0, p), 0);
    assert [first, second][1..] == [second];
    var s2 := Step(s1, second);
    assert s2 == Insert(s1, CandId(0, "b"), p, KeyFor(0, p), SUGGESTION_TTL);
    assert [second][1..] == [];
    assert Run(EMPTY, [first, second]) == Run(s1, [second]) == Run(s2, []);
  }
}
