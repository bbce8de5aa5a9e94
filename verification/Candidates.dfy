/**
 * Candidate records, their idempotency aliases, semantic coalescing, resolution, and the two-phase
 * legacy promotion claim. Every transaction is one atomic step on one user's store.
 */
module Candidates {
  import opened Prelude

  type Time = int

  const SUGGESTION_TTL := 172800
  const MAX_EVIDENCE := 20

  /** Candidate ids and alias ids hash (generation, idempotency key); the hash is taken to be injective. */
  datatype CandId = CandId(generation: nat, key: string)
  datatype TaskId = ForCandidate(cand: CandId) | Named(name: string)

  /** The task fields that identify the proposed work; the description is already normalised. */
  datatype Identity = Identity(description: string, owner: string, due: Option<Time>, recurrence: string,
                               parent: string,
                               goal: string, workstream: string)

  datatype Compat = Compat(metadata: Option<string>, category: Option<string>, relevance: Option<int>)

  /** Annotations: merged on coalescing, never part of the identity. */
  datatype Notes = Notes(capture: int, ownership: int, evidence: seq<string>, dueConfidence: Option<int>,
                         priority: Option<nat>, compat: Option<Compat>)

  /** A change of an existing task: the fields it sets, and the liveness that its action or status implies. */
  datatype Patch = Patch(active: Option<bool>, description: Option<string>, owner: Option<string>,
                         due: Option<Option<Time>>,
                         recurrence: Option<string>, parent: Option<string>,
                         dueConfidence: Option<Option<int>>, priority: Option<Option<nat>>)

  datatype Kind = CreateTask | ChangeTask(task: TaskId, patch: Patch) | CreateWorkstream
  datatype Proposal = Proposal(kind: Kind, what: Identity, text: string, source: string, notes: Notes)

  datatype Status = Pending | Accepted | Rejected | Expired
  datatype Candidate = Candidate(id: CandId, proposal: Proposal, status: Status, createdAt: Time,
                                 expiresAt: Option<Time>,
                                 task: Option<TaskId>, resolvedAt: Option<Time>)

  datatype Alias = Alias(candidate: CandId, request: Proposal)
  datatype SemanticKey = SemanticKey(generation: nat, identity: Identity)

  datatype Reservation = Reservation(task: TaskId, kind: ReservationKind)
  datatype ReservationKind = Creates | UsesExisting | AlreadyCommitted
  /** A resolution claim; `reserved` is present from mutation start on. */
  datatype Claim = Claim(token: nat, active: bool, leaseExpiresAt: Time, reserved: Option<Reservation>)

  datatype Task = Task(candidate: Option<CandId>, generation: nat, active: bool, what: Identity, notes: Notes)
  datatype OutboxRow = OutboxRow(candidate: CandId, task: TaskId, generation: nat, attempts: nat)

  datatype State = State(
    generation: nat,                          // account generation of the workflow control document
    candidates: map<CandId, Candidate>,
    aliases: map<CandId, Alias>,
    semantic: map<SemanticKey, CandId>,
    claims: map<CandId, Claim>,
    tasks: map<TaskId, Task>,
    outbox: map<CandId, OutboxRow>,
    nextToken: nat)                           // uuid tokens are fresh

  datatype Error = NotFound | Conflict | GenerationMismatch | ResolverUnavailable | Invalid

  // ---------------------------------------------------------------- identity, lapse and claim predicates

  function SemanticIdentity(p: Proposal): Option<Identity> {
    if p.kind == CreateTask then Some(p.what) else None
  }

  function Deadline(c: Candidate): Time {
    match c.expiresAt case Some(t) => t case None => c.createdAt + SUGGESTION_TTL
  }

  predicate Lapsed(c: Candidate, now: Time) {
    c.status == Pending && Deadline(c) <= now
  }

  predicate OwnerActive(k: Claim, now: Time) {
    k.active && k.leaseExpiresAt > now
  }

  predicate Started(k: Claim) {
    k.active && k.reserved.Some?
  }

  predicate Blocks(s: State, id: CandId, now: Time) {
    id in s.claims && (Started(s.claims[id]) || OwnerActive(s.claims[id], now))
  }

  // ---------------------------------------------------------------- merging annotations

  /** First occurrences, in order, up to a cap. */
  function FirstDistinct(refs: seq<string>, kept: seq<string>, cap: nat): seq<string>
    decreases |refs|
  {
    if refs == [] || |kept| >= cap then kept
    else FirstDistinct(refs[1..], if refs[0] in kept then kept else kept + [refs[0]], cap)
  }

  function Max(a: int, b: int): int { if a < b then b else a }

  function MaxOption(a: Option<int>, b: Option<int>): Option<int> {
    if a.None? then b else if b.None? then a else Some(Max(a.value, b.value))
  }

  function Strongest(a: Option<nat>, b: Option<nat>): Option<nat> {
    if a.None? then b else if b.None? then a else if a.value < b.value then b else a
  }

  function Prefer<T>(newer: Option<T>, older: Option<T>): Option<T> { if newer.Some? then newer else older }

  function MergeCompat(older: Option<Compat>, newer: Option<Compat>): Option<Compat> {
    if newer.None? then older
    else
      var base := if older.Some? then older.value else Compat(None, None, None);
      Some(Compat(Prefer(newer.value.metadata, base.metadata), Prefer(newer.value.category, base.category),
                  Prefer(newer.value.relevance, base.relevance)))
  }

  /** Task-change annotations merge only between two create payloads. */
  function MergeNotes(older: Proposal, newer: Proposal): Notes {
    var a, b := older.notes, newer.notes;
    var both := older.kind == CreateTask && newer.kind == CreateTask;
    Notes(Max(a.capture, b.capture), Max(a.ownership, b.ownership),
          FirstDistinct(a.evidence + b.evidence, [], MAX_EVIDENCE),
          if both then MaxOption(a.dueConfidence, b.dueConfidence) else a.dueConfidence,
          if both then Strongest(a.priority, b.priority) else a.priority,
          MergeCompat(a.compat, b.compat))
  }

  function Merged(c: Candidate, newer: Proposal): Candidate {
    c.(proposal := c.proposal.(notes := MergeNotes(c.proposal, newer)))
  }

  function MergedTask(t: Task, notes: Notes): Task {
    t.(notes :=
       t.notes.(capture := Max(t.notes.capture, notes.capture), ownership := Max(t.notes.ownership, notes.ownership),
                         evidence :=
                           FirstDistinct(t.notes.evidence + notes.evidence, [], |t.notes.evidence| + |notes.evidence|),
                         dueConfidence := MaxOption(t.notes.dueConfidence, notes.dueConfidence),
                         priority := Strongest(t.notes.priority, notes.priority)))
  }

  // ---------------------------------------------------------------- creation

  predicate Blank(key: string) {
    forall i :: 0 <= i < |key| ==> key[i] in " \t\n\r"
  }

  function NewCandidate(id: CandId, p: Proposal, now: Time): Candidate {
    Candidate(id, p, Pending, now, Some(now + SUGGESTION_TTL), None, None)
  }

  function KeyFor(generation: nat, p: Proposal): Option<SemanticKey> {
    match SemanticIdentity(p)
    case None => None
    case Some(i) => Some(SemanticKey(generation, i))
  }

  /** The candidate the semantic claim points at, if the claim resolves. */
  function Holder(s: State, k: Option<SemanticKey>): Option<Candidate> {
    if k.Some? && k.value in s.semantic && s.semantic[k.value] in s.candidates
       && s.semantic[k.value].generation == k.value.generation
    then Some(s.candidates[s.semantic[k.value]]) else None
  }

  predicate ReusablePending(c: Candidate, now: Time) {
    c.status == Pending && !Lapsed(c, now)
  }

  predicate IsActiveFor(t: Task, generation: nat) {
    (t.generation == 0 || t.generation == generation) && t.active
  }

  /** The task still is the work the candidate proposed. */
  predicate Matches(t: Task, c: Candidate) {
    c.proposal.kind == CreateTask && t.what == c.proposal.what
  }

  predicate ReusableAccepted(s: State, c: Candidate, generation: nat) {
    c.status == Accepted && c.task.Some? && c.task.value in s.tasks
    && IsActiveFor(s.tasks[c.task.value], generation) && Matches(s.tasks[c.task.value], c)
  }

  /** Folds a repeated proposal into the stored candidate `at`, and into its task once accepted. */
  function Coalesce(s: State, id: CandId, at: CandId, p: Proposal, key: SemanticKey): State
    requires at in s.candidates
  {
    var holder := s.candidates[at];
    var merged := Merged(holder, p);
    s.(candidates := s.candidates[at := merged],
       aliases := s.aliases[id := Alias(holder.id, p)],
       semantic := s.semantic[key := holder.id],
       tasks := if ReusableAccepted(s, holder, id.generation)
                then s.tasks[holder.task.value := MergedTask(s.tasks[holder.task.value], merged.proposal.notes)]
                else s.tasks)
  }

  function Insert(s: State, id: CandId, p: Proposal, key: Option<SemanticKey>, now: Time): State {
    s.(candidates := s.candidates[id := NewCandidate(id, p, now)],
       aliases := s.aliases[id := Alias(id, p)],
       semantic := if key.Some? then s.semantic[key.value := id] else s.semantic)
  }

  function Create(s: State, generation: nat, idemKey: string, p: Proposal, now: Time): (State, Result<CandId, Error>) {
    var id := CandId(generation, idemKey);
    if Blank(idemKey) then (s, Err(Invalid))
    else if s.generation != generation then (s, Err(GenerationMismatch))
    else if id in s.aliases then
      if s.aliases[id].request != p || s.aliases[id].candidate !in s.candidates
         || s.aliases[id].candidate.generation != generation then (s, Err(Conflict))
      else (s, Ok(s.aliases[id].candidate))
    else if id in s.candidates then
      if s.candidates[id].proposal != p then (s, Err(Conflict))
      else (s.(aliases := s.aliases[id := Alias(id, p)]), Ok(id))
    else
      var key := KeyFor(generation, p);
      var holder := Holder(s, key);
      if holder.Some? && (ReusablePending(holder.value, now) || ReusableAccepted(s, holder.value, generation)) then
        (Coalesce(s, id, s.semantic[key.value], p, key.value), Ok(holder.value.id))
      else (Insert(s, id, p, key, now), Ok(id))
  }

  // ---------------------------------------------------------------- resolution

  datatype Receipt = Receipt(candidate: CandId, status: Status, task: Option<TaskId>, newlyResolved: bool,
                             resolvedAt: Time)

  /** Guards shared by every resolver: live generation and an existing candidate of that generation. */
  function Refusal(s: State, id: CandId, generation: nat): Option<Error> {
    if s.generation != generation then Some(GenerationMismatch)
    else if id !in s.candidates then Some(NotFound)
    else if id.generation != generation then Some(GenerationMismatch)
    else None
  }

  function Resolved(c: Candidate, status: Status, task: Option<TaskId>, at: Time): Candidate {
    c.(status := status, task := if task.Some? then task else c.task, resolvedAt := Some(at), expiresAt := None)
  }

  function ReceiptOf(c: Candidate, newly: bool): Receipt {
    Receipt(c.id, c.status, if c.status == Accepted then c.task else None, newly,
            match c.resolvedAt case Some(t) => t case None => 0)
  }

  function CreatedTask(c: Candidate): Task {
    Task(Some(c.id), c.id.generation, true, c.proposal.what, c.proposal.notes)
  }

  function ChangedTask(t: Task, c: Candidate): Task
    requires c.proposal.kind.ChangeTask?
  {
    var p, q := c.proposal, c.proposal.kind.patch;
    t.(generation := c.id.generation,
       active := OrElse(q.active, t.active),
       what :=
         Identity(OrElse(q.description, t.what.description), OrElse(q.owner, t.what.owner), OrElse(q.due, t.what.due),
                        OrElse(q.recurrence, t.what.recurrence), OrElse(q.parent, t.what.parent),
                        if p.what.goal != "" then p.what.goal else t.what.goal,
                        if p.what.workstream != "" then p.what.workstream else t.what.workstream),
       notes :=
         t.notes.(evidence :=
                  FirstDistinct(t.notes.evidence + p.notes.evidence, [], |t.notes.evidence| + |p.notes.evidence|),
                         dueConfidence := OrElse(q.dueConfidence, t.notes.dueConfidence),
                         priority := OrElse(q.priority, t.notes.priority)))
  }

  function AcceptCreate(s: State, id: CandId, now: Time): State
    requires id in s.candidates
  {
    var c := s.candidates[id];
    var task := ForCandidate(id);
    s.(candidates := s.candidates[id := Resolved(c, Accepted, Some(task), now)],
       tasks := if task in s.tasks then s.tasks else s.tasks[task := CreatedTask(c)],
       outbox := s.outbox[id := OutboxRow(id, task, id.generation, 0)])
  }

  function AcceptChange(s: State, id: CandId, now: Time): State
    requires id in s.candidates && s.candidates[id].proposal.kind.ChangeTask?
             && s.candidates[id].proposal.kind.task in s.tasks
  {
    var c := s.candidates[id];
    var task := c.proposal.kind.task;
    s.(candidates := s.candidates[id := Resolved(c, Accepted, Some(task), now)],
       tasks := s.tasks[task := ChangedTask(s.tasks[task], c)])
  }

  /** `linksValid` is the verdict of the goal and workstream relationship check, made in the same transaction. */
  function ResolveTask(s: State, id: CandId, generation: nat, expectedLinks: Option<(string, string)>,
                       linksValid: bool, now: Time)
    : (State, Result<Receipt, Error>)
  {
    var refusal := Refusal(s, id, generation);
    if refusal.Some? then (s, Err(refusal.value))
    else
      var c := s.candidates[id];
      if c.status == Accepted then (s, Ok(ReceiptOf(c, false)))
      else if c.status != Pending || Blocks(s, id, now) then (s, Err(Conflict))
      else match c.proposal.kind
        case CreateWorkstream => (s, Err(ResolverUnavailable))
        case CreateTask =>
          if !linksValid || (ForCandidate(id) in s.tasks && s.tasks[ForCandidate(id)].candidate != Some(id))
            then (s, Err(Conflict))
          else (AcceptCreate(s, id, now), Ok(ReceiptOf(Resolved(c, Accepted, Some(ForCandidate(id)), now), true)))
        case ChangeTask(task, _) =>
          if task !in s.tasks then (s, Err(NotFound))
          else if s.tasks[task].generation != 0 && s.tasks[task].generation != generation
                 then (s, Err(GenerationMismatch))
          else if (expectedLinks.Some?
                   && expectedLinks.value != (s.tasks[task].what.goal, s.tasks[task].what.workstream)) || !linksValid
            then (s, Err(Conflict))
          else (AcceptChange(s, id, now), Ok(ReceiptOf(Resolved(c, Accepted, Some(task), now), true)))
  }

  function ResolveWithoutMutation(s: State, id: CandId, status: Status, generation: nat, now: Time)
    : (State, Result<Receipt, Error>)
  {
    if status != Rejected && status != Expired then (s, Err(Invalid))
    else
      var refusal := Refusal(s, id, generation);
      if refusal.Some? then (s, Err(refusal.value))
      else
        var c := s.candidates[id];
        if c.status == status then (s, Ok(ReceiptOf(c, false)))
        else if c.status != Pending || Blocks(s, id, now) then (s, Err(Conflict))
        else
          var c' := Resolved(c, status, None, now);
          (s.(candidates := s.candidates[id := c']), Ok(ReceiptOf(c', true)))
  }

  /** What a claim token must show to resolve a claimed candidate. */
  predicate TokenMayReconcile(k: Claim, token: nat, status: Status, task: Option<TaskId>, at: Time) {
    k.token == token && OwnerActive(k, at) && Started(k) && status == Accepted && task == Some(k.reserved.value.task)
  }

  function Reconcile(s: State, id: CandId, status: Status, generation: nat, task: Option<TaskId>, at: Time,
                     token: Option<nat>)
    : (State, Result<CandId, Error>)
  {
    if status == Pending || (status == Accepted && task.None?) then (s, Err(Invalid))
    else
      var refusal := Refusal(s, id, generation);
      if refusal.Some? then (s, Err(refusal.value))
      else
        var c := s.candidates[id];
        if c.status == status then (s, Ok(id))
        else if c.status != Pending then (s, Err(Conflict))
        else if Blocks(s, id, at) then
          if token.None? || !TokenMayReconcile(s.claims[id], token.value, status, task, at) then (s, Err(Conflict))
          else (s.(candidates := s.candidates[id := Resolved(c, status, task, at)],
                   claims := s.claims[id := s.claims[id].(active := false)]), Ok(id))
        else if token.Some? then (s, Err(Conflict))
        else (s.(candidates := s.candidates[id := Resolved(c, status, task, at)]), Ok(id))
  }

  // ---------------------------------------------------------------- legacy promotion

  function ClaimPromotion(s: State, id: CandId, generation: nat, lease: nat, resume: bool, now: Time)
    : (State, Result<nat, Error>)
  {
    var refusal := Refusal(s, id, generation);
    if refusal.Some? then (s, Err(refusal.value))
    else if s.candidates[id].status != Pending then (s, Err(Conflict))
    else if id in s.claims && OwnerActive(s.claims[id], now) then
      (s, if resume then Ok(s.claims[id].token) else Err(Conflict))
    else if id in s.claims && Started(s.claims[id]) then
      (s.(claims := s.claims[id := s.claims[id].(token := s.nextToken, leaseExpiresAt := now + lease)],
          nextToken := s.nextToken + 1), Ok(s.nextToken))
    else
      (s.(claims := s.claims[id := Claim(s.nextToken, true, now + lease, None)], nextToken := s.nextToken + 1),
       Ok(s.nextToken))
  }

  function ReservationFor(s: State, task: TaskId, preferred: Option<TaskId>, committed: bool): Reservation {
    if committed then Reservation(task, AlreadyCommitted)
    else if preferred.Some? && preferred.value in s.tasks && s.tasks[preferred.value].active
      then Reservation(preferred.value, UsesExisting)
    else Reservation(task, Creates)
  }

  function BeginPromotion(s: State, id: CandId, generation: nat, token: nat, task: TaskId, preferred: Option<TaskId>,
                          committed: bool, lease: nat, now: Time): (State, Result<Reservation, Error>)
  {
    var refusal := Refusal(s, id, generation);
    if refusal.Some? then (s, Err(refusal.value))
    else if s.candidates[id].status != Pending || id !in s.claims || !s.claims[id].active || s.claims[id].token != token
            || !OwnerActive(s.claims[id], now) then (s, Err(Conflict))
    else if s.claims[id].reserved.Some? then (s, Ok(s.claims[id].reserved.value))
    else
      var r := ReservationFor(s, task, preferred, committed);
      (s.(claims := s.claims[id := s.claims[id].(reserved := Some(r), leaseExpiresAt := now + lease)]), Ok(r))
  }

  // ---------------------------------------------------------------- runs

  datatype Op =
    | DoCreate(generation: nat, idemKey: string, proposal: Proposal, now: Time)
    | DoResolve(id: CandId, generation: nat, expectedLinks: Option<(string, string)>, linksValid: bool, now: Time)
    | DoDismiss(id: CandId, status: Status, generation: nat, now: Time)
    | DoReconcile(id: CandId, status: Status, generation: nat, result: Option<TaskId>, now: Time,
                  presented: Option<nat>)
    | DoClaim(id: CandId, generation: nat, lease: nat, resume: bool, now: Time)
    | DoBegin(id: CandId, generation: nat, token: nat, task: TaskId, preferred: Option<TaskId>, committed: bool,
              lease: nat, now: Time)
    | NewGeneration(generation: nat)                 // account cut-over
    | TaskWrite(task: TaskId, value: Task)           // any other writer of a task document
    | TaskDelete(task: TaskId)

  function Step(s: State, op: Op): State {
    match op
    case DoCreate(g, k, p, now) => Create(s, g, k, p, now).0
    case DoResolve(id, g, links, ok, now) => ResolveTask(s, id, g, links, ok, now).0
    case DoDismiss(id, st, g, now) => ResolveWithoutMutation(s, id, st, g, now).0
    case DoReconcile(id, st, g, task, now, token) => Reconcile(s, id, st, g, task, now, token).0
    case DoClaim(id, g, lease, resume, now) => ClaimPromotion(s, id, g, lease, resume, now).0
    case DoBegin(id, g, token, task, pref, done, lease, now) =>
      BeginPromotion(s, id, g, token, task, pref, done, lease, now).0
    case NewGeneration(g) => s.(generation := g)
    case TaskWrite(task, value) => s.(tasks := s.tasks[task := value])
    case TaskDelete(task) => s.(tasks := s.tasks - {task})
  }

  function Run(s: State, ops: seq<Op>): State
    decreases |ops|
  {
    if ops == [] then s else Run(Step(s, ops[0]), ops[1..])
  }

  const EMPTY := State(0, map[], map[], map[], map[], map[], map[], 0)
}
