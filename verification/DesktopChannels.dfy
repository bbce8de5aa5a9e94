/**
 * macOS release channels: immutable manifests, the Stable and Beta pointers, the Beta admission control,
 * and the break-glass transaction. Every transaction is one atomic step.
 */
module DesktopChannels {
  import opened Prelude

  datatype Version = Version(major: nat, minor: nat, patch: nat)

  /** A canonical tag spells a version and a build number; different spellings of one version are different tags. */
  datatype ReleaseId = Tag(spelling: string, version: Version, build: nat) | Other(name: string)

  datatype Tier = T2 | SignedSmoke | Emergency
  datatype Manifest = Manifest(id: ReleaseId, platform: string, version: string, build: nat, tier: Tier, passed: bool,
                               payload: string)

  datatype Pointer = Pointer(release: ReleaseId, version: string, build: nat, generation: nat)
  datatype Control = Control(enabled: bool, reserved: Option<ReleaseId>, generation: nat)

  /** A rollout brings its own emergency manifest; a rollback targets a retained one. */
  datatype Operation = Rollback | Rollout(emergency: Manifest)
  /** A validated incident request; `id` names one workflow attempt. */
  datatype Request = Request(id: string, current: ReleaseId, target: ReleaseId, generation: nat, actor: string,
                             reason: string)
  datatype Audit = Audit(operation: Operation, request: Request, resulting: nat)

  datatype State = State(control: Option<Control>, stable: Option<Pointer>, beta: Option<Pointer>,
                         manifests: map<ReleaseId, Manifest>, audits: map<string, Audit>)
  const EMPTY := State(None, None, None, map[], map[])

  datatype Error = BadTag | NoControl | Disabled | GenerationChanged | WrongReservation | NotForward
      | NoReservation | Collision
                 | NoManifest | BadManifest | CurrentMismatch | UsedRequest | Invalid

  const MACOS := "macos"

  predicate LessVersion(a: Version, b: Version) {
    a.major < b.major || (a.major == b.major && (a.minor < b.minor || (a.minor == b.minor && a.patch < b.patch)))
  }

  predicate Canonical(id: ReleaseId) { id.Tag? && id.build > 0 }

  // ---------------------------------------------------------------- Beta admission control

  predicate RollsForward(from: Option<ReleaseId>, target: ReleaseId) {
    target.Tag?
    && (from.Some? && from.value.Tag?
        ==> from.value.build < target.build && !LessVersion(target.version, from.value.version))
  }

  function Reserve(c: Option<Control>, tag: ReleaseId): Result<Control, Error> {
    if !Canonical(tag) then Err(BadTag)
    else if c.None? then Ok(Control(false, Some(tag), 1))
    else if c.value.reserved == Some(tag) then Ok(c.value)
    else if !RollsForward(c.value.reserved, tag) then Err(NotForward)
    else Ok(c.value.(reserved := Some(tag), generation := c.value.generation + 1))
  }

  function SetEnabled(c: Option<Control>, enabled: bool): Result<Control, Error> {
    if c.None? then (if enabled then Err(NoReservation) else Ok(Control(false, None, 1)))
    else if c.value.enabled == enabled then Ok(c.value)
    else if enabled && c.value.reserved.None? then Err(NoReservation)
    else Ok(c.value.(enabled := enabled, generation := c.value.generation + 1))
  }

  /** Read-only: the control document a candidate must still find at commit. */
  function Capture(s: State, tag: ReleaseId): Result<Control, Error> {
    if !Canonical(tag) then Err(BadTag)
    else if s.control.None? then Err(NoControl)
    else if !s.control.value.enabled then Err(Disabled)
    else if s.control.value.reserved != Some(tag) then Err(WrongReservation)
    else Ok(s.control.value)
  }

  // ---------------------------------------------------------------- pointers

  datatype Transition = Promote | Repoint | BreakGlass

  predicate NormalEvidence(m: Manifest) { (m.tier == T2 && m.passed) || (m.tier == SignedSmoke && !m.passed) }

  function Gen(p: Option<Pointer>): nat { if p.Some? then p.value.generation else 0 }

  function BuildPointer(current: Option<Pointer>, m: Manifest, how: Transition, release: ReleaseId,
                        expectedGeneration: Option<nat>, expectedCurrent: Option<ReleaseId>): Result<Pointer, Error>
  {
    var cur := if current.Some? then Some(current.value.release) else None;
    if m.platform != MACOS then Err(BadManifest)
    else if how != BreakGlass && !NormalEvidence(m) then Err(BadManifest)
    else if cur == Some(release) then Ok(current.value)
    else if (how != Promote || expectedCurrent.Some?) && cur != expectedCurrent then Err(CurrentMismatch)
    else if expectedGeneration.Some? && expectedGeneration.value != Gen(current) then Err(GenerationChanged)
    else if how == Promote && current.Some? && m.build <= current.value.build then Err(NotForward)
    else Ok(Pointer(release, m.version, m.build, Gen(current) + 1))
  }

  /** Create-if-absent; an exact repeat is accepted, different content is refused. */
  function Retain(manifests: map<ReleaseId, Manifest>, m: Manifest): Result<map<ReleaseId, Manifest>, Error> {
    if m.id in manifests then (if manifests[m.id] == m then Ok(manifests) else Err(Collision))
    else Ok(manifests[m.id := m])
  }

  function Register(s: State, m: Manifest): (State, Option<Error>) {
    match Retain(s.manifests, m)
    case Err(e) => (s, Some(e))
    case Ok(ms) => (s.(manifests := ms), None)
  }

  /** The generic operation moves Stable only. */
  function PromoteStable(s: State, how: Transition, release: ReleaseId, expectedGeneration: Option<nat>,
                         expectedCurrent: Option<ReleaseId>)
    : (State, Option<Error>)
  {
    if how == BreakGlass || (how == Repoint && (expectedCurrent.None? || expectedGeneration.None?))
      then (s, Some(Invalid))
    else if release !in s.manifests then (s, Some(NoManifest))
    else match BuildPointer(s.stable, s.manifests[release], how, release, expectedGeneration, expectedCurrent)
      case Err(e) => (s, Some(e))
      case Ok(p) => (s.(stable := Some(p)), None)
  }

  /** Commits a Beta admission against the captured control generation. */
  function Admit(s: State, m: Manifest, captured: nat): (State, Option<Error>) {
    if s.control.None? then (s, Some(NoControl))
    else if !Canonical(m.id) then (s, Some(BadTag))
    else if !s.control.value.enabled then (s, Some(Disabled))
    else if s.control.value.generation != captured then (s, Some(GenerationChanged))
    else if s.control.value.reserved != Some(m.id) then (s, Some(WrongReservation))
    else match Retain(s.manifests, m)
      case Err(e) => (s, Some(e))
      case Ok(ms) =>
        match BuildPointer(s.beta, m, Promote, m.id, None, None)
        case Err(e) => (s, Some(e))
        case Ok(p) => (s.(manifests := ms, beta := Some(p)), None)
  }

  // ---------------------------------------------------------------- break glass

  /** The manifest a break-glass request resolves to, and the manifests retained with it. */
  function Resolve(s: State, q: Request, op: Operation): Result<(Manifest, map<ReleaseId, Manifest>), Error> {
    match op
    case Rollback =>
      if q.target !in s.manifests then Err(NoManifest)
      else if s.manifests[q.target].tier == Emergency then Err(BadManifest)
      else Ok((s.manifests[q.target], s.manifests))
    case Rollout(m) =>
      match Retain(s.manifests, m)
      case Err(e) => Err(e)
      case Ok(ms) =>
        if m.tier != Emergency || m.passed then Err(BadManifest)
        else if s.beta.None? || m.build <= s.beta.value.build then Err(NotForward)
        else Ok((m, ms))
  }

  /** Pointer, audit record and admission pause commit together or not at all. */
  function BreakGlassCommit(s: State, q: Request, op: Operation): (State, Option<Error>) {
    if op.Rollout? && op.emergency.id != q.target then (s, Some(Invalid))
    else if q.id in s.audits then (s, Some(UsedRequest))
    else if s.control.None? then (s, Some(NoControl))
    else if s.beta.None? || s.beta.value.release != q.current then (s, Some(CurrentMismatch))
    else if s.beta.value.generation != q.generation then (s, Some(GenerationChanged))
    else match Resolve(s, q, op)
      case Err(e) => (s, Some(e))
      case Ok((m, ms)) =>
        match BuildPointer(s.beta, m, BreakGlass, q.target, Some(q.generation), Some(q.current))
        case Err(e) => (s, Some(e))
        case Ok(p) =>
          var c := s.control.value;
          (s.(control := Some(c.(enabled := false, generation := c.generation + 1)), beta := Some(p), manifests := ms,
              audits := s.audits[q.id := Audit(op, q, p.generation)]), None)
  }

  // ---------------------------------------------------------------- runs

  datatype Op =
    | DoReserve(tag: ReleaseId)
    | DoSetEnabled(enabled: bool)
    | DoRegister(manifest: Manifest)
    | DoPromote(how: Transition, release: ReleaseId, expectedGeneration: Option<nat>,
                expectedCurrent: Option<ReleaseId>)
    | DoAdmit(manifest: Manifest, captured: nat)
    | DoBreakGlass(request: Request, operation: Operation)

  function WithControl(s: State, r: Result<Control, Error>): State {
    match r case Ok(c) => s.(control := Some(c)) case Err(_) => s
  }

  function Step(s: State, op: Op): State {
    match op
    case DoReserve(tag) => WithControl(s, Reserve(s.control, tag))
    case DoSetEnabled(e) => WithControl(s, SetEnabled(s.control, e))
    case DoRegister(m) => Register(s, m).0
    case DoPromote(how, r, eg, ec) => PromoteStable(s, how, r, eg, ec).0
    case DoAdmit(m, g) => Admit(s, m, g).0
    case DoBreakGlass(q, op) => BreakGlassCommit(s, q, op).0
  }

  function Run(s: State, ops: seq<Op>): State
    decreases |ops|
  {
    if ops == [] then s else Run(Step(s, ops[0]), ops[1..])
  }
}
