/** Accepting a task creation commits exactly one task and one outbox row, bound to the candidate. */
module CandidateTasks {
  import opened Prelude
  import opened Candidates
  import opened CandidateLifecycle

  // ---------------------------------------------------------------- bindings

  function RowOf(id: CandId): OutboxRow { OutboxRow(id, ForCandidate(id), id.generation, 0) }

  /** An outbox row says that its candidate was accepted with the task derived from it. */
  predicate RowBound(s: State, id: CandId) {
    id in s.outbox ==>
      s.outbox[id] == RowOf(id) && SettledAt(s, id)
      && s.candidates[id].status == Accepted && s.candidates[id].task == Some(ForCandidate(id))
  }

  /** A task under a candidate's own task id belongs to that candidate, which is resolved. */
  predicate TaskBound(s: State, id: CandId) {
    (ForCandidate(id) in s.tasks ==> s.tasks[ForCandidate(id)].candidate == Some(id) && SettledAt(s, id))
    && (id in s.candidates ==> s.candidates[id].id == id)
  }

  predicate SameRow(a: State, b: State, id: CandId) {
    (id in a.outbox <==> id in b.outbox) && (id in a.outbox ==> b.outbox[id] == a.outbox[id])
  }

  /** No task appears under the candidate's task id, and one that is there keeps its binding. */
  predicate KeepsTask(a: State, b: State, id: CandId) {
    ForCandidate(id) in b.tasks ==>
      ForCandidate(id) in a.tasks && b.tasks[ForCandidate(id)].candidate == a.tasks[ForCandidate(id)].candidate
  }

  /** The operation writes neither the task id derived from this candidate nor rebinds such a task. */
  predicate Civil(s: State, op: Op, id: CandId) {
    op.TaskWrite? && op.task == ForCandidate(id) ==>
      op.task in s.tasks && op.value.candidate == s.tasks[op.task].candidate
  }

  predicate AllCivil(s: State, ops: seq<Op>, id: CandId)
    decreases |ops|
  {
    ops == [] || (Civil(s, ops[0], id) && AllCivil(Step(s, ops[0]), ops[1..], id))
  }

  lemma CreateKeeps(s: State, g: nat, k: string, p: Proposal, now: Time, id: CandId)
    ensures KeepsTask(s, Create(s, g, k, p, now).0, id) && SameRow(s, Create(s, g, k, p, now).0, id)
  {
  }

  /** The operation accepted `id` as a task creation and reported it as new. */
  predicate AcceptsCreation(s: State, op: Op, id: CandId) {
    op.DoResolve? && ReportsNewly(s, op, id) && id in s.candidates && s.candidates[id].proposal.kind == CreateTask
  }

  lemma ResolveKeeps(s: State, x: CandId, g: nat, links: Option<(string, string)>, ok: bool, now: Time, id: CandId)
    requires !AcceptsCreation(s, DoResolve(x, g, links, ok, now), id)
    ensures var s' := ResolveTask(s, x, g, links, ok, now).0; KeepsTask(s, s', id) && SameRow(s, s', id)
  {
    var s' := ResolveTask(s, x, g, links, ok, now).0;
    if s' != s && s.candidates[x].proposal.kind.ChangeTask? {
      assert s'.outbox == s.outbox;
    }
  }

  lemma OthersKeep(s: State, op: Op, id: CandId)
    requires !op.DoCreate? && !op.DoResolve?
    ensures SameRow(s, Step(s, op), id) && (Civil(s, op, id) ==> KeepsTask(s, Step(s, op), id))
  {
  }

  /**
   * Accepting a creation, in any state: one new outbox row, one changed candidate, and one task bound to the candidate,
   * new unless a task of this candidate was already stored under its task id; nothing else changes.
   */
  lemma AcceptanceWritesOneTaskAndOneRow(s: State, id: CandId, g: nat, links: Option<(string, string)>, ok: bool,
                                         now: Time)
    requires AcceptsCreation(s, DoResolve(id, g, links, ok, now), id) && s.candidates[id].id == id && RowBound(s, id)
    ensures var s' := ResolveTask(s, id, g, links, ok, now).0; var c := s.candidates[id]; var x := ForCandidate(id);
            (forall y | y != x :: (y in s'.tasks <==> y in s.tasks) && (y in s.tasks ==> s'.tasks[y] == s.tasks[y]))
            && x in s'.tasks && s'.tasks[x].candidate == Some(id) && (x in s.tasks ==> s'.tasks[x] == s.tasks[x])
            && (x !in s.tasks ==> s'.tasks[x].what == c.proposal.what && s'.tasks[x].active
                                  && s'.tasks[x].generation == id.generation && s'.tasks[x].notes == c.proposal.notes)
            && id !in s.outbox && s'.outbox == s.outbox[id := RowOf(id)]
            && s'.candidates == s.candidates[id := Resolved(c, Accepted, Some(x), now)]
            && s'.aliases == s.aliases && s'.semantic == s.semantic && s'.claims == s.claims
  {
  }

  /** A field the patch sets takes that value; a field it leaves unset is kept. */
  predicate Follows<T(==)>(given: Option<T>, before: T, after: T) {
    (given.None? ==> after == before) && (given.Some? ==> after == given.value)
  }

  predicate LinkFollows(link: string, before: string, after: string) {
    (link == "" ==> after == before) && (link != "" ==> after == link)
  }

  predicate FollowsPatch(t: Task, t': Task, p: Proposal) {
    p.kind.ChangeTask?
    && Follows(p.kind.patch.active, t.active, t'.active)
    && Follows(p.kind.patch.description, t.what.description, t'.what.description)
    && Follows(p.kind.patch.owner, t.what.owner, t'.what.owner) && Follows(p.kind.patch.due, t.what.due, t'.what.due)
    && Follows(p.kind.patch.recurrence, t.what.recurrence, t'.what.recurrence)
    && Follows(p.kind.patch.parent, t.what.parent, t'.what.parent)
    && Follows(p.kind.patch.dueConfidence, t.notes.dueConfidence, t'.notes.dueConfidence)
    && Follows(p.kind.patch.priority, t.notes.priority, t'.notes.priority)
    && LinkFollows(p.what.goal, t.what.goal, t'.what.goal)
    && LinkFollows(p.what.workstream, t.what.workstream, t'.what.workstream)
    && t'.candidate == t.candidate && t'.notes.capture == t.notes.capture && t'.notes.ownership == t.notes.ownership
    && t'.notes.compat == t.notes.compat
  }

  /** Accepting a change rewrites that one existing task as patched, keeps all else of it, and writes no outbox row. */
  lemma AcceptedChangeRewritesOneTask(s: State, id: CandId, g: nat, links: Option<(string, string)>, ok: bool,
                                      now: Time)
    requires ReportsNewly(s, DoResolve(id, g, links, ok, now), id) && id in s.candidates && s.candidates[id].id == id
    requires s.candidates[id].proposal.kind.ChangeTask?
    ensures var s' := ResolveTask(s, id, g, links, ok, now).0; var p := s.candidates[id].proposal; var x := p.kind.task;
            x in s.tasks && s'.tasks.Keys == s.tasks.Keys && s'.outbox == s.outbox
            && (forall y | y in s.tasks && y != x :: s'.tasks[y] == s.tasks[y])
            && FollowsPatch(s.tasks[x], s'.tasks[x], p) && s'.tasks[x].generation == id.generation
            && (s.tasks[x].generation == 0 || s.tasks[x].generation == g)
  {
  }

  lemma StepKeepsOrAccepts(s: State, op: Op, id: CandId)
    requires !AcceptsCreation(s, op, id)
    ensures SameRow(s, Step(s, op), id) && (Civil(s, op, id) ==> KeepsTask(s, Step(s, op), id))
  {
    match op
    case DoCreate(g, k, p, now) => CreateKeeps(s, g, k, p, now, id);
    case DoResolve(x, g, links, ok, now) => ResolveKeeps(s, x, g, links, ok, now, id);
    case _ => OthersKeep(s, op, id);
  }

  lemma AcceptanceBinds(s: State, op: Op, id: CandId)
    requires AcceptsCreation(s, op, id)
    ensures RowBound(Step(s, op), id) && id in Step(s, op).outbox
    ensures s.candidates[id].id == id ==> TaskBound(Step(s, op), id)
  {
  }

  lemma StepKeepsRowBound(s: State, op: Op, id: CandId)
    requires RowBound(s, id)
    ensures RowBound(Step(s, op), id)
    ensures AcceptsCreation(s, op, id) <==> id !in s.outbox && id in Step(s, op).outbox
    ensures id in s.outbox ==> id in Step(s, op).outbox
  {
    StepEvolves(s, op, id);
    if AcceptsCreation(s, op, id) {
      AcceptanceBinds(s, op, id);
      ReportMeansResolution(s, op, id);
    } else {
      StepKeepsOrAccepts(s, op, id);
    }
  }

  lemma StepKeepsTaskBound(s: State, op: Op, id: CandId)
    requires TaskBound(s, id) && Civil(s, op, id)
    ensures TaskBound(Step(s, op), id)
  {
    StepEvolves(s, op, id);
    if AcceptsCreation(s, op, id) {
      AcceptanceBinds(s, op, id);
    } else {
      StepKeepsOrAccepts(s, op, id);
    }
  }

  function CreationsAccepted(s: State, ops: seq<Op>, id: CandId): nat
    decreases |ops|
  {
    if ops == [] then 0
    else (if AcceptsCreation(s, ops[0], id) then 1 else 0) + CreationsAccepted(Step(s, ops[0]), ops[1..], id)
  }

  lemma {:induction false} RunCountsRows(s: State, ops: seq<Op>, id: CandId)
    requires RowBound(s, id)
    ensures RowBound(Run(s, ops), id)
    ensures CreationsAccepted(s, ops, id) == if id in Run(s, ops).outbox && id !in s.outbox then 1 else 0
    ensures id in s.outbox ==> id in Run(s, ops).outbox
    decreases |ops|
  {
    if ops != [] {
      StepKeepsRowBound(s, ops[0], id);
      RunCountsRows(Step(s, ops[0]), ops[1..], id);
    }
  }

  /** Over any run, an outbox row exists exactly when one acceptance of that creation was reported as new. */
  lemma OneRowPerAcceptedCreation(ops: seq<Op>, id: CandId)
    ensures CreationsAccepted(EMPTY, ops, id) == if id in Run(EMPTY, ops).outbox then 1 else 0
    ensures RowBound(Run(EMPTY, ops), id)
  {
    RunCountsRows(EMPTY, ops, id);
  }

  lemma {:induction false} RunKeepsTaskBound(s: State, ops: seq<Op>, id: CandId)
    requires TaskBound(s, id) && AllCivil(s, ops, id)
    ensures TaskBound(Run(s, ops), id)
    decreases |ops|
  {
    if ops != [] {
      StepKeepsTaskBound(s, ops[0], id);
      RunKeepsTaskBound(Step(s, ops[0]), ops[1..], id);
    }
  }

  /**
   * While other writers leave its derived task id alone, a pending candidate has no task yet: its acceptance makes
   * the task.
   */
  lemma PendingCandidateHasNoTask(ops: seq<Op>, id: CandId)
    requires AllCivil(EMPTY, ops, id) && PendingAt(Run(EMPTY, ops), id)
    ensures ForCandidate(id) !in Run(EMPTY, ops).tasks && id !in Run(EMPTY, ops).outbox
  {
    RunKeepsTaskBound(EMPTY, ops, id);
    RunCountsRows(EMPTY, ops, id);
  }
}
