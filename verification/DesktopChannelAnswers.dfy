/** When each channel operation takes effect, and what it then writes, in terms a caller can check beforehand. */
module DesktopChannelAnswers {
  import opened Prelude
  import opened DesktopChannels
  import opened DesktopChannelSafety

  // ---------------------------------------------------------------- versions, tags and evidence

  function Part(v: Version, i: nat): nat { if i == 0 then v.major else if i == 1 then v.minor else v.patch }

  /** The first part in which the versions differ decides. */
  predicate SmallerAt(a: Version, b: Version, i: nat) {
    i < 3 && Part(a, i) < Part(b, i) && forall j: nat | j < i :: Part(a, j) == Part(b, j)
  }

  lemma VersionsCompareByFirstDifference(a: Version, b: Version)
    ensures LessVersion(a, b) <==> exists i: nat :: SmallerAt(a, b, i)
  {
    assert SmallerAt(a, b, 0) || SmallerAt(a, b, 1) || SmallerAt(a, b, 2) || !LessVersion(a, b);
    forall i: nat | SmallerAt(a, b, i)
      ensures LessVersion(a, b)
    {
      assert i == 0 || i == 1 || i == 2;
      if i >= 1 {
        assert Part(a, 0) == Part(b, 0);
      }
      if i == 2 {
        assert Part(a, 1) == Part(b, 1);
      }
    }
  }

  predicate IsTag(id: ReleaseId) { id.Tag? && 1 <= id.build }

  /** A macOS release qualified on the normal path: passed T2, or a signed smoke build, which never claims a pass. */
  predicate Qualified(m: Manifest) {
    m.platform == MACOS
    && match m.tier case T2 => m.passed case SignedSmoke => !m.passed case Emergency => false
  }

  // ---------------------------------------------------------------- Beta admission control

  /** The tag may follow the reservation: a greater build, and a version that is not smaller. */
  ghost predicate MayFollow(reserved: ReleaseId, tag: ReleaseId) {
    reserved.Tag? && tag.Tag? && reserved.build < tag.build
    && !exists i: nat :: SmallerAt(tag.version, reserved.version, i)
  }

  /**
   * A reservation succeeds exactly for a canonical tag that is first, repeated, or follows; only then is it recorded.
   */
  lemma ReservationTakesEffect(c: Option<Control>, tag: ReleaseId)
    requires c.Some? && c.value.reserved.Some? ==> c.value.reserved.value.Tag?
    ensures Reserve(c, tag).Ok? <==>
              IsTag(tag) && (c.None? || c.value.reserved.None? || c.value.reserved == Some(tag)
                             || MayFollow(c.value.reserved.value, tag))
    ensures Reserve(c, tag).Ok? ==>
              var r := Reserve(c, tag).value;
              r.reserved == Some(tag) && (c.None? ==> !r.enabled && r.generation == 1)
              && (c.Some? ==> r.enabled == c.value.enabled
                              && r.generation == c.value.generation + if c.value.reserved == Some(tag) then 0 else 1)
  {
    if tag.Tag? && c.Some? && c.value.reserved.Some? {
      VersionsCompareByFirstDifference(tag.version, c.value.reserved.value.version);
    }
  }

  /** A pause always succeeds; a resume needs a reservation, unless admission is enabled already. */
  lemma PauseAndResumeTakeEffect(c: Option<Control>, enabled: bool)
    ensures SetEnabled(c, enabled).Ok? <==> !enabled || (c.Some? && (c.value.enabled || c.value.reserved.Some?))
    ensures SetEnabled(c, enabled).Ok? ==>
              var r := SetEnabled(c, enabled).value;
              r.enabled == enabled && (c.None? ==> r.reserved.None? && r.generation == 1)
              && (c.Some? ==> r.reserved == c.value.reserved
                              && r.generation == c.value.generation + if c.value.enabled == enabled then 0 else 1)
  {
  }

  /** A capture succeeds exactly for the reserved tag while admission is enabled, and returns the document as stored. */
  lemma CaptureSucceedsExactlyWhen(s: State, tag: ReleaseId)
    ensures Capture(s, tag).Ok? <==>
              IsTag(tag) && s.control.Some? && s.control.value.enabled && s.control.value.reserved == Some(tag)
    ensures Capture(s, tag).Ok? ==> Some(Capture(s, tag).value) == s.control
  {
  }

  // ---------------------------------------------------------------- moving a pointer

  predicate PointsAt(p: Option<Pointer>, r: ReleaseId) { p.Some? && p.value.release == r }

  predicate RaisesBuild(p: Option<Pointer>, m: Manifest) { p.Some? ==> p.value.build < m.build }

  /** The pointer an effective move leaves behind. */
  predicate MovedTo(before: Option<Pointer>, after: Option<Pointer>, m: Manifest, r: ReleaseId) {
    after.Some? && after.value.release == r && after.value.version == m.version && after.value.build == m.build
    && after.value.generation == (if before.Some? then before.value.generation else 0) + 1
  }

  predicate ExpectationsMet(p: Option<Pointer>, generation: Option<nat>, current: Option<ReleaseId>) {
    (generation.Some? ==> generation.value == if p.Some? then p.value.generation else 0)
    && (current.Some? ==> PointsAt(p, current.value))
  }

  /**
   * A promotion of a retained, qualified release that is not current moves Stable if and only if its expectations hold
   * and it raises the build; otherwise it is refused and nothing is written.
   */
  lemma PromotionMovesExactlyForward(s: State, r: ReleaseId, eg: Option<nat>, ec: Option<ReleaseId>)
    requires r in s.manifests && Qualified(s.manifests[r]) && !PointsAt(s.stable, r)
    ensures var o := PromoteStable(s, Promote, r, eg, ec);
            if ExpectationsMet(s.stable, eg, ec) && RaisesBuild(s.stable, s.manifests[r])
            then o.1 == None && MovedTo(s.stable, o.0.stable, s.manifests[r], r) && o.0.(stable := s.stable) == s
            else o.0 == s && o.1.Some? && (ExpectationsMet(s.stable, eg, ec) ==> o.1 == Some(NotForward))
  {
  }

  /** A repoint may go either way, but only from the release and the generation it names. */
  lemma RepointMovesExactlyWhenMatched(s: State, r: ReleaseId, eg: Option<nat>, ec: Option<ReleaseId>)
    requires r in s.manifests && Qualified(s.manifests[r]) && !PointsAt(s.stable, r)
    ensures var o := PromoteStable(s, Repoint, r, eg, ec);
            if eg.Some? && ec.Some? && ExpectationsMet(s.stable, eg, ec)
            then o.1 == None && MovedTo(s.stable, o.0.stable, s.manifests[r], r) && o.0.(stable := s.stable) == s
            else o.0 == s && o.1.Some?
  {
  }

  /**
   * Promoting or repointing to the current release is an acknowledged retry, whatever generation the caller guessed.
   */
  lemma CurrentReleaseIsAcknowledged(s: State, how: Transition, r: ReleaseId, eg: Option<nat>, ec: Option<ReleaseId>)
    requires how == Promote || (how == Repoint && eg.Some? && ec.Some?)
    requires r in s.manifests && Qualified(s.manifests[r]) && PointsAt(s.stable, r)
    ensures PromoteStable(s, how, r, eg, ec) == (s, None)
  {
  }

  /** A release that is not retained, or not qualified, and the private transition are refused. */
  lemma UnqualifiedIsRefused(s: State, how: Transition, r: ReleaseId, eg: Option<nat>, ec: Option<ReleaseId>)
    requires how == BreakGlass || r !in s.manifests || !Qualified(s.manifests[r])
    ensures PromoteStable(s, how, r, eg, ec).0 == s && PromoteStable(s, how, r, eg, ec).1.Some?
  {
  }

  // ---------------------------------------------------------------- admitting to Beta

  /** The manifest is new under its id, or the very one retained. */
  predicate Fits(s: State, m: Manifest) { m.id in s.manifests ==> s.manifests[m.id] == m }

  predicate AdmissionOpen(s: State, m: Manifest, captured: nat) {
    IsTag(m.id) && s.control.Some? && s.control.value.enabled && s.control.value.generation == captured
    && s.control.value.reserved == Some(m.id)
  }

  /**
   * An admission commits exactly for the reserved candidate at the captured generation, qualified and forward or
   * current.
   */
  lemma AdmissionCommitsExactlyWhen(s: State, m: Manifest, captured: nat)
    ensures Admit(s, m, captured).1 == None <==>
              AdmissionOpen(s, m, captured) && Fits(s, m) && Qualified(m)
              && (PointsAt(s.beta, m.id) || RaisesBuild(s.beta, m))
    ensures Admit(s, m, captured).1.Some? ==> Admit(s, m, captured).0 == s
    ensures Admit(s, m, captured).1 == None ==>
              var s' := Admit(s, m, captured).0;
              s'.manifests == s.manifests[m.id := m] && s'.(manifests := s.manifests, beta := s.beta) == s
              && (if PointsAt(s.beta, m.id) then s'.beta == s.beta else MovedTo(s.beta, s'.beta, m, m.id))
  {
    if m.id in s.manifests && s.manifests[m.id] == m {
      assert s.manifests[m.id := m] == s.manifests;
    }
  }

  /**
   * A captured candidate still commits after any run that left the control document alone, if it is qualified and
   * forward.
   */
  lemma UndisturbedCaptureCommits(s: State, tag: ReleaseId, ops: seq<Op>, m: Manifest)
    requires Capture(s, tag).Ok? && ControlChanges(s, ops) == 0 && m.id == tag
    ensures var s' := Run(s, ops);
            Admit(s', m, Capture(s, tag).value.generation).1 == None
            <==> Fits(s', m) && Qualified(m) && (PointsAt(s'.beta, m.id) || RaisesBuild(s'.beta, m))
  {
    NoChangesMeansSameControl(s, ops, |ops|);
    assert ops[..|ops|] == ops;
    CaptureSucceedsExactlyWhen(s, tag);
    AdmissionCommitsExactlyWhen(Run(s, ops), m, Capture(s, tag).value.generation);
  }

  // ---------------------------------------------------------------- break glass

  /** The incident request names the Beta pointer as it stands, and was not used before. */
  predicate RequestHolds(s: State, q: Request) {
    q.id !in s.audits && s.control.Some? && PointsAt(s.beta, q.current) && s.beta.value.generation == q.generation
  }

  predicate RollbackTarget(s: State, q: Request) {
    q.target in s.manifests && s.manifests[q.target].tier != Emergency && s.manifests[q.target].platform == MACOS
  }

  predicate RolloutTarget(s: State, q: Request, m: Manifest) {
    m.id == q.target && Fits(s, m) && m.tier == Emergency && !m.passed && m.platform == MACOS && RaisesBuild(s.beta, m)
  }

  /**
   * What a committed break-glass leaves of the rest: admission paused under a new generation, one audit record,
   * Stable as it was.
   */
  predicate PausedFor(s: State, s': State, q: Request, op: Operation) {
    s.control.Some? && s'.control == Some(Control(false, s.control.value.reserved, s.control.value.generation + 1))
    && s'.stable == s.stable && s'.beta.Some? && s'.audits == s.audits[q.id := Audit(op, q, s'.beta.value.generation)]
  }

  lemma RollbackCommitsExactlyWhen(s: State, q: Request)
    ensures BreakGlassCommit(s, q, Rollback).1 == None <==> RequestHolds(s, q) && RollbackTarget(s, q)
    ensures BreakGlassCommit(s, q, Rollback).1.Some? ==> BreakGlassCommit(s, q, Rollback).0 == s
    ensures BreakGlassCommit(s, q, Rollback).1 == None ==>
              var s' := BreakGlassCommit(s, q, Rollback).0;
              PausedFor(s, s', q, Rollback) && s'.manifests == s.manifests
              && (if q.target == q.current then s'.beta == s.beta
                    else MovedTo(s.beta, s'.beta, s.manifests[q.target], q.target))
  {
  }

  lemma RolloutCommitsExactlyWhen(s: State, q: Request, m: Manifest)
    requires KeyedById(s.manifests) && Resolves(s.beta, s.manifests)
    ensures BreakGlassCommit(s, q, Rollout(m)).1 == None <==> RequestHolds(s, q) && RolloutTarget(s, q, m)
    ensures BreakGlassCommit(s, q, Rollout(m)).1.Some? ==> BreakGlassCommit(s, q, Rollout(m)).0 == s
    ensures BreakGlassCommit(s, q, Rollout(m)).1 == None ==>
              var s' := BreakGlassCommit(s, q, Rollout(m)).0;
              PausedFor(s, s', q, Rollout(m)) && s'.manifests == s.manifests[m.id := m]
                && MovedTo(s.beta, s'.beta, m, m.id)
  {
    if m.id in s.manifests && s.manifests[m.id] == m {
      assert s.manifests[m.id := m] == s.manifests;
    }
  }

  /** A manifest is retained exactly if its id is new or it is the one already there. */
  lemma RegistrationTakesEffect(s: State, m: Manifest)
    ensures Register(s, m).1 == None <==> Fits(s, m)
    ensures Register(s, m).0 == if Fits(s, m) then s.(manifests := s.manifests[m.id := m]) else s
  {
    if m.id in s.manifests && s.manifests[m.id] == m {
      assert s.manifests[m.id := m] == s.manifests;
    }
  }
}
