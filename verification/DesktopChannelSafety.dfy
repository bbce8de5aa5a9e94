/** What every interleaving of reservations, pauses, admissions, promotions and break-glass operations keeps. */
module DesktopChannelSafety {
  import opened Prelude
  import opened DesktopChannels

  // ---------------------------------------------------------------- the control generation counts changes

  function ControlGen(s: State): nat { if s.control.Some? then s.control.value.generation else 0 }

  predicate ChangesControl(s: State, op: Op) { Step(s, op).control != s.control }

  lemma StepCountsControl(s: State, op: Op)
    ensures ControlGen(Step(s, op)) == ControlGen(s) + if ChangesControl(s, op) then 1 else 0
    ensures s.control.Some? ==> Step(s, op).control.Some?
  {
  }

  function ControlChanges(s: State, ops: seq<Op>): nat
    decreases |ops|
  {
    if ops == [] then 0 else (if ChangesControl(s, ops[0]) then 1 else 0) + ControlChanges(Step(s, ops[0]), ops[1..])
  }

  lemma {:induction false} GenerationCountsControlChanges(s: State, ops: seq<Op>)
    ensures ControlGen(Run(s, ops)) == ControlGen(s) + ControlChanges(s, ops)
    decreases |ops|
  {
    if ops != [] {
      StepCountsControl(s, ops[0]);
      GenerationCountsControlChanges(Step(s, ops[0]), ops[1..]);
    }
  }

  lemma {:induction false} NoChangesMeansSameControl(s: State, ops: seq<Op>, n: nat)
    requires ControlChanges(s, ops) == 0 && n <= |ops|
    ensures Run(s, ops[..n]).control == s.control
    decreases n
  {
    if n > 0 {
      assert ops[..n][1..] == ops[1..][..n - 1];
      NoChangesMeansSameControl(Step(s, ops[0]), ops[1..], n - 1);
    }
  }

  /**
   * If an admission captured in `s` commits after `ops`, no step in between changed the control document, and it is
   * the captured candidate.
   */
  lemma CommitMeansNothingHappened(s: State, tag: ReleaseId, ops: seq<Op>, m: Manifest, n: nat)
    requires var captured := Capture(s, tag); captured.Ok? && Admit(Run(s, ops), m, captured.value.generation).1.None?
    requires n <= |ops|
    ensures ControlChanges(s, ops) == 0 && Run(s, ops[..n]).control == s.control && m.id == tag
  {
    GenerationCountsControlChanges(s, ops);
    NoChangesMeansSameControl(s, ops, n);
    NoChangesMeansSameControl(s, ops, |ops|);
    assert ops[..|ops|] == ops;
  }

  /** And conversely, one change of control in between makes the commit fail and write nothing. */
  lemma AnyChangeVoidsTheCapture(s: State, tag: ReleaseId, ops: seq<Op>, m: Manifest)
    requires Capture(s, tag).Ok? && ControlChanges(s, ops) > 0
    ensures var s' := Run(s, ops);
            Admit(s', m, Capture(s, tag).value.generation).0 == s'
            && Admit(s', m, Capture(s, tag).value.generation).1.Some?
  {
    GenerationCountsControlChanges(s, ops);
  }

  // ---------------------------------------------------------------- reservations roll forward

  predicate NotBehind(from: ReleaseId, target: ReleaseId) {
    from == target
    || (from.Tag? && target.Tag? && from.build < target.build && !LessVersion(target.version, from.version))
  }

  predicate ReservedTag(s: State) {
    s.control.Some? && s.control.value.reserved.Some? ==> s.control.value.reserved.value.Tag?
  }

  predicate Forward(s: State, s': State) {
    (ReservedTag(s) ==> ReservedTag(s'))
    && (ReservedTag(s) && s.control.Some? && s.control.value.reserved.Some? ==>
          s'.control.Some? && s'.control.value.reserved.Some?
          && NotBehind(s.control.value.reserved.value, s'.control.value.reserved.value))
  }

  lemma StepRollsForward(s: State, op: Op)
    ensures Forward(s, Step(s, op))
  {
  }

  lemma LessVersionTrichotomy(a: Version, b: Version, c: Version)
    requires !LessVersion(b, a) && !LessVersion(c, b)
    ensures !LessVersion(c, a)
  {
  }

  lemma NotBehindTransitive(a: ReleaseId, b: ReleaseId, c: ReleaseId)
    requires NotBehind(a, b) && NotBehind(b, c)
    ensures NotBehind(a, c)
  {
    if a != b && b != c {
      LessVersionTrichotomy(a.version, b.version, c.version);
    }
  }

  /**
   * Over any run the reserved tag stays, or is replaced by one with a greater build and no smaller version; it is
   * never withdrawn.
   */
  lemma {:induction false} ReservationsRollForward(s: State, ops: seq<Op>)
    ensures Forward(s, Run(s, ops))
    decreases |ops|
  {
    if ops != [] {
      StepRollsForward(s, ops[0]);
      ReservationsRollForward(Step(s, ops[0]), ops[1..]);
      if ReservedTag(s) && s.control.Some? && s.control.value.reserved.Some? {
        NotBehindTransitive(s.control.value.reserved.value, Step(s, ops[0]).control.value.reserved.value,
                            Run(s, ops).control.value.reserved.value);
      }
    }
  }

  // ---------------------------------------------------------------- a pause lasts until it is lifted

  predicate Paused(s: State) { s.control.Some? && !s.control.value.enabled }

  predicate NoResume(ops: seq<Op>) { forall i | 0 <= i < |ops| :: ops[i] != DoSetEnabled(true) }

  lemma StepStaysPaused(s: State, op: Op)
    requires Paused(s) && op != DoSetEnabled(true)
    ensures Paused(Step(s, op))
    ensures op.DoAdmit? ==> Step(s, op) == s && Admit(s, op.manifest, op.captured).1 != None
    ensures !op.DoBreakGlass? ==> Step(s, op).beta == s.beta
  {
  }

  lemma {:induction false} PauseLasts(s: State, ops: seq<Op>)
    requires Paused(s) && NoResume(ops)
    ensures Paused(Run(s, ops))
    decreases |ops|
  {
    if ops != [] {
      StepStaysPaused(s, ops[0]);
      PauseLasts(Step(s, ops[0]), ops[1..]);
    }
  }

  lemma BreakGlassPauses(s: State, q: Request, op: Operation)
    requires BreakGlassCommit(s, q, op).1.None?
    ensures var s' := BreakGlassCommit(s, q, op).0;
            Paused(s') && ControlGen(s') == ControlGen(s) + 1
              && s'.audits == s.audits[q.id := Audit(op, q, Gen(s'.beta))]
            && q.id !in s.audits && s'.stable == s.stable && s'.beta.Some? && s'.beta.value.release == q.target
  {
  }

  /**
   * After a break-glass, whatever runs short of an explicit resume, no admission commits and only another break-glass
   * moves Beta.
   */
  lemma NoAdmissionUntilResume(s: State, q: Request, how: Operation, ops: seq<Op>, op: Op)
    requires BreakGlassCommit(s, q, how).1.None? && NoResume(ops) && op != DoSetEnabled(true)
    ensures var s' := Run(BreakGlassCommit(s, q, how).0, ops);
            (op.DoAdmit? ==> Step(s', op) == s') && (!op.DoBreakGlass? ==> Step(s', op).beta == s'.beta)
  {
    BreakGlassPauses(s, q, how);
    PauseLasts(BreakGlassCommit(s, q, how).0, ops);
    StepStaysPaused(Run(BreakGlassCommit(s, q, how).0, ops), op);
  }

  // ---------------------------------------------------------------- manifests and pointers

  ghost predicate Grows<K, V>(a: map<K, V>, b: map<K, V>) { forall k | k in a :: k in b && b[k] == a[k] }

  lemma StepRetains(s: State, op: Op)
    ensures Grows(s.manifests, Step(s, op).manifests) && Grows(s.audits, Step(s, op).audits)
  {
  }

  /** No run removes or rewrites a manifest or an audit record. */
  lemma {:induction false} RunRetains(s: State, ops: seq<Op>)
    ensures Grows(s.manifests, Run(s, ops).manifests) && Grows(s.audits, Run(s, ops).audits)
    decreases |ops|
  {
    if ops != [] {
      StepRetains(s, ops[0]);
      RunRetains(Step(s, ops[0]), ops[1..]);
    }
  }

  predicate Resolves(p: Option<Pointer>, ms: map<ReleaseId, Manifest>) {
    p.Some? ==> p.value.release in ms
                && var m := ms[p.value.release];
                  m.id == p.value.release && m.version == p.value.version && m.build == p.value.build
                  && m.platform == MACOS
  }

  /** Stable resolves to normal evidence only. */
  predicate StableOk(s: State) {
    Resolves(s.stable, s.manifests) && (s.stable.Some? ==> NormalEvidence(s.manifests[s.stable.value.release]))
  }

  predicate IsRollout(a: Audit, target: ReleaseId) { a.operation.Rollout? && a.request.target == target }

  /** Beta resolves too; off normal evidence only if an audited emergency rollout put it there. */
  ghost predicate BetaOk(s: State) {
    Resolves(s.beta, s.manifests)
    && (s.beta.Some? && s.manifests[s.beta.value.release].tier == Emergency ==>
          exists k | k in s.audits :: IsRollout(s.audits[k], s.beta.value.release))
  }

  predicate KeyedById(ms: map<ReleaseId, Manifest>) { forall r | r in ms :: ms[r].id == r }

  ghost predicate Inv(s: State) { KeyedById(s.manifests) && StableOk(s) && BetaOk(s) }

  lemma RetainKeepsKeys(ms: map<ReleaseId, Manifest>, m: Manifest)
    requires KeyedById(ms) && Retain(ms, m).Ok?
    ensures KeyedById(Retain(ms, m).value) && Grows(ms, Retain(ms, m).value) && m.id in Retain(ms, m).value
            && Retain(ms, m).value[m.id] == m
  {
  }

  lemma ResolvesGrows(p: Option<Pointer>, a: map<ReleaseId, Manifest>, b: map<ReleaseId, Manifest>)
    requires Resolves(p, a) && Grows(a, b)
    ensures Resolves(p, b) && (p.Some? ==> b[p.value.release] == a[p.value.release])
  {
  }

  lemma BuiltPointerResolves(current: Option<Pointer>, m: Manifest, how: Transition, eg: Option<nat>,
                             ec: Option<ReleaseId>, ms: map<ReleaseId, Manifest>)
    requires m.id in ms && ms[m.id] == m && Resolves(current, ms) && BuildPointer(current, m, how, m.id, eg, ec).Ok?
    ensures var p := BuildPointer(current, m, how, m.id, eg, ec).value;
            Resolves(Some(p), ms) && p.release == m.id && (how != BreakGlass ==> NormalEvidence(m))
  {
  }

  lemma RegisterKeepsInv(s: State, m: Manifest)
    requires Inv(s)
    ensures Inv(Register(s, m).0)
  {
    if Retain(s.manifests, m).Ok? {
      RetainKeepsKeys(s.manifests, m);
      ResolvesGrows(s.stable, s.manifests, Retain(s.manifests, m).value);
      ResolvesGrows(s.beta, s.manifests, Retain(s.manifests, m).value);
    }
  }

  lemma PromoteKeepsInv(s: State, how: Transition, r: ReleaseId, eg: Option<nat>, ec: Option<ReleaseId>)
    requires Inv(s)
    ensures Inv(PromoteStable(s, how, r, eg, ec).0)
  {
    if PromoteStable(s, how, r, eg, ec).1.None? {
      BuiltPointerResolves(s.stable, s.manifests[r], how, eg, ec, s.manifests);
    }
  }

  lemma AdmitKeepsInv(s: State, m: Manifest, g: nat)
    requires Inv(s)
    ensures Inv(Admit(s, m, g).0)
  {
    if Admit(s, m, g).1.None? {
      var ms := Retain(s.manifests, m).value;
      RetainKeepsKeys(s.manifests, m);
      ResolvesGrows(s.stable, s.manifests, ms);
      ResolvesGrows(s.beta, s.manifests, ms);
      BuiltPointerResolves(s.beta, m, Promote, None, None, ms);
    }
  }

  lemma BreakGlassKeepsInv(s: State, q: Request, op: Operation)
    requires Inv(s)
    ensures Inv(BreakGlassCommit(s, q, op).0)
  {
    var s' := BreakGlassCommit(s, q, op).0;
    if BreakGlassCommit(s, q, op).1.None? {
      var (m, ms) := Resolve(s, q, op).value;
      if op.Rollout? {
        RetainKeepsKeys(s.manifests, m);
      }
      ResolvesGrows(s.stable, s.manifests, ms);
      ResolvesGrows(s.beta, s.manifests, ms);
      BuiltPointerResolves(s.beta, m, BreakGlass, Some(q.generation), Some(q.current), ms);
      assert op.Rollout? ==> IsRollout(s'.audits[q.id], q.target);
    }
  }

  lemma StepKeepsInv(s: State, op: Op)
    requires Inv(s)
    ensures Inv(Step(s, op))
  {
    match op
    case DoReserve(_) =>
    case DoSetEnabled(_) =>
    case DoRegister(m) => RegisterKeepsInv(s, m);
    case DoPromote(how, r, eg, ec) => PromoteKeepsInv(s, how, r, eg, ec);
    case DoAdmit(m, g) => AdmitKeepsInv(s, m, g);
    case DoBreakGlass(q, o) => BreakGlassKeepsInv(s, q, o);
  }

  lemma {:induction false} RunKeepsInv(s: State, ops: seq<Op>)
    requires Inv(s)
    ensures Inv(Run(s, ops))
    decreases |ops|
  {
    if ops != [] {
      StepKeepsInv(s, ops[0]);
      RunKeepsInv(Step(s, ops[0]), ops[1..]);
    }
  }

  /**
   * In every reachable state both pointers repeat a retained manifest, Stable never an emergency, Beta an emergency
   * only by audited rollout.
   */
  lemma PointersResolve(ops: seq<Op>)
    ensures var s := Run(EMPTY, ops);
            StableOk(s) && BetaOk(s) && (s.stable.Some? ==> s.manifests[s.stable.value.release].tier != Emergency)
  {
    RunKeepsInv(EMPTY, ops);
  }

  // ---------------------------------------------------------------- pointer generations count moves

  predicate MovesStable(s: State, op: Op) { Step(s, op).stable != s.stable }

  predicate MovesBeta(s: State, op: Op) { Step(s, op).beta != s.beta }

  lemma StepCountsMoves(s: State, op: Op)
    ensures Gen(Step(s, op).stable) == Gen(s.stable) + if MovesStable(s, op) then 1 else 0
    ensures Gen(Step(s, op).beta) == Gen(s.beta) + if MovesBeta(s, op) then 1 else 0
  {
  }

  function StableMoves(s: State, ops: seq<Op>): nat
    decreases |ops|
  {
    if ops == [] then 0 else (if MovesStable(s, ops[0]) then 1 else 0) + StableMoves(Step(s, ops[0]), ops[1..])
  }

  function BetaMoves(s: State, ops: seq<Op>): nat
    decreases |ops|
  {
    if ops == [] then 0 else (if MovesBeta(s, ops[0]) then 1 else 0) + BetaMoves(Step(s, ops[0]), ops[1..])
  }

  lemma {:induction false} GenerationsCountMoves(s: State, ops: seq<Op>)
    ensures Gen(Run(s, ops).stable) == Gen(s.stable) + StableMoves(s, ops)
    ensures Gen(Run(s, ops).beta) == Gen(s.beta) + BetaMoves(s, ops)
    decreases |ops|
  {
    if ops != [] {
      StepCountsMoves(s, ops[0]);
      GenerationsCountMoves(Step(s, ops[0]), ops[1..]);
    }
  }

  /** Of two Stable moves that expect the same generation, the one committed second takes no effect. */
  lemma SecondRacingMoveHasNoEffect(s: State, first: Op, ops: seq<Op>, second: Op, g: nat)
    requires first.DoPromote? && second.DoPromote? && first.expectedGeneration == Some(g) == second.expectedGeneration
    requires MovesStable(s, first)
    ensures !MovesStable(Run(Step(s, first), ops), second)
  {
    StepCountsMoves(s, first);
    GenerationsCountMoves(Step(s, first), ops);
    assert Gen(s.stable) == g;
  }

  /**
   * The same race on Beta between two break-glass requests: once one has moved the pointer, the other is refused
   * whole.
   */
  lemma SecondBreakGlassIsRefused(s: State, first: Op, ops: seq<Op>, second: Op)
    requires first.DoBreakGlass? && second.DoBreakGlass? && first.request.generation == second.request.generation
    requires MovesBeta(s, first)
    ensures Step(Run(Step(s, first), ops), second) == Run(Step(s, first), ops)
  {
    StepCountsMoves(s, first);
    GenerationsCountMoves(Step(s, first), ops);
    assert Gen(s.beta) == first.request.generation;
  }

  // ---------------------------------------------------------------- one audit record per break-glass

  predicate Breaks(s: State, op: Op) { op.DoBreakGlass? && BreakGlassCommit(s, op.request, op.operation).1.None? }

  function BreakCount(s: State, ops: seq<Op>): nat
    decreases |ops|
  {
    if ops == [] then 0 else (if Breaks(s, ops[0]) then 1 else 0) + BreakCount(Step(s, ops[0]), ops[1..])
  }

  /** Each committed break-glass left its own audit record, and nothing else wrote one. */
  lemma {:induction false} AuditsCountBreakGlass(s: State, ops: seq<Op>)
    ensures |Run(s, ops).audits| == |s.audits| + BreakCount(s, ops)
    decreases |ops|
  {
    if ops != [] {
      StepAudits(s, ops[0]);
      AuditsCountBreakGlass(Step(s, ops[0]), ops[1..]);
    }
  }

  lemma StepAudits(s: State, op: Op)
    ensures |Step(s, op).audits| == |s.audits| + if Breaks(s, op) then 1 else 0
  {
    if Breaks(s, op) {
      BreakGlassPauses(s, op.request, op.operation);
      assert Step(s, op).audits.Keys == s.audits.Keys + {op.request.id};
    }
  }

  // ---------------------------------------------------------------- builds roll forward

  function Build(p: Option<Pointer>): nat { if p.Some? then p.value.build else 0 }

  predicate IsRepoint(op: Op) { op.DoPromote? && op.how == Repoint }

  predicate IsRollback(op: Op) { op.DoBreakGlass? && op.operation == Rollback }

  /** Only a repoint takes Stable to a build that is not greater, and only a rollback does so for Beta. */
  lemma StepBuilds(s: State, op: Op)
    ensures s.stable.Some? ==> Step(s, op).stable.Some?
    ensures s.beta.Some? ==> Step(s, op).beta.Some?
    ensures s.stable.Some? && MovesStable(s, op) && !IsRepoint(op) ==> Build(s.stable) < Build(Step(s, op).stable)
    ensures s.beta.Some? && MovesBeta(s, op) && !IsRollback(op) ==> Build(s.beta) < Build(Step(s, op).beta)
  {
  }

  /** Without a repoint, each Stable move of a run raises the build. */
  lemma {:induction false} StableRollsForward(s: State, ops: seq<Op>)
    requires s.stable.Some? && forall i | 0 <= i < |ops| :: !IsRepoint(ops[i])
    ensures Build(s.stable) + StableMoves(s, ops) <= Build(Run(s, ops).stable)
    decreases |ops|
  {
    if ops != [] {
      StepBuilds(s, ops[0]);
      StableRollsForward(Step(s, ops[0]), ops[1..]);
    }
  }

  /** Without a rollback, each Beta move of a run raises the build. */
  lemma {:induction false} BetaRollsForward(s: State, ops: seq<Op>)
    requires s.beta.Some? && forall i | 0 <= i < |ops| :: !IsRollback(ops[i])
    ensures Build(s.beta) + BetaMoves(s, ops) <= Build(Run(s, ops).beta)
    decreases |ops|
  {
    if ops != [] {
      StepBuilds(s, ops[0]);
      BetaRollsForward(Step(s, ops[0]), ops[1..]);
    }
  }

  /** A repoint is a compare-and-swap on both the current release and the generation. */
  lemma RepointMatchedBoth(s: State, op: Op)
    requires IsRepoint(op) && MovesStable(s, op)
    ensures s.stable.Some? && op.expectedCurrent == Some(s.stable.value.release)
            && op.expectedGeneration == Some(s.stable.value.generation)
    ensures Step(s, op).stable.Some? && Step(s, op).stable.value.release == op.release
  {
  }

  predicate EnabledIsReserved(s: State) {
    s.control.Some? && s.control.value.enabled ==> s.control.value.reserved.Some?
  }

  /** Admission is never enabled without a reserved candidate. */
  lemma {:induction false} NeverEnabledWithoutReservation(s: State, ops: seq<Op>)
    requires EnabledIsReserved(s)
    ensures EnabledIsReserved(Run(s, ops))
    decreases |ops|
  {
    if ops != [] {
      assert EnabledIsReserved(Step(s, ops[0]));
      NeverEnabledWithoutReservation(Step(s, ops[0]), ops[1..]);
    }
  }
}
