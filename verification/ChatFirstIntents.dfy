/**
 * Proactive intents of one user: delivery, dead-lettering, a single requeue, and accounting of agent turns.
 *
 * All documents of one intent share its id, so a transaction on an intent is a function on the `Row` of that id.
 */
module ChatFirstIntents {
  import opened Prelude

  type Time = int

  const FETCH_BUDGET := 20
  const REJECTION_BUDGET := 3
  const REPAIR_AGE := 6 * 3600
  const DEFERRAL_BUDGET := 7 * 24 * 3600
  const DEFERRAL_DUE_AFTER := 24 * 3600

  datatype Source = DailyOpener | CaptureArrival | DeferralReraise | AgentJudgment | ColdStartRich | ColdStartSparse

  /** Intent ids hash (generation, source key, continuity key); the hash is taken to be injective. */
  datatype SourceKey = Of(source: Source) | ColdStartKey
  datatype IntentId = IntentId(generation: nat, key: SourceKey, continuity: string)

  datatype DeliveryState = Ready | PendingKernelReceipt | Delivered | DeadLetter
  datatype Reason = Unacknowledged | AfterRequeue | DeferredBeyondBudget | PermanentRejection(code: string)
  /** A kernel receipt, or the synthetic one written when the chat row was found by reconciliation. */
  datatype Receipt = Kernel(id: string) | Synthetic

  datatype Intent = Intent(source: Source, subject: Option<string>, blocks: seq<string>, state: DeliveryState,
                           createdAt: Time,
                           deliveredAt: Option<Time>, receipt: Option<Receipt>, reason: Option<Reason>)

  /** Delivery bookkeeping, kept beside the intent and never reset except by a requeue. */
  datatype Attempt = Attempt(fetches: nat, lastFetched: Option<Time>, requeues: nat, rejections: nat,
                             lastCode: Option<string>,
                             lastRejected: Option<Time>, firstDeferred: Option<Time>, lastDeferred: Option<Time>)
  const NO_ATTEMPT := Attempt(0, None, 0, 0, None, None, None, None)

  datatype Tombstone = Tombstone(intent: Intent, attempt: Attempt)

  /** The documents of one intent id, and how many times the turn budget was charged for it. */
  datatype Row = Row(active: Option<Intent>, dead: Option<Tombstone>, attempt: Option<Attempt>, charged: nat)
  const BLANK := Row(None, None, None, 0)

  datatype Error = GenerationChanged | WrongGeneration | NotReady | Conflict | BudgetExhausted | Invalid

  predicate Live(i: Intent) { i.state == Ready || i.state == PendingKernelReceipt }

  predicate Transient(r: Reason) { r == Unacknowledged || r == PermanentRejection("kernel_materialization_failed") }

  predicate PermanentCode(code: string) { code == "invalid_intent" || code == "identity_conflict" }

  predicate ConsumesBudget(i: Intent) { i.source == AgentJudgment }

  function Attempts(r: Row): Attempt { OrElse(r.attempt, NO_ATTEMPT) }

  function Charge(i: Intent): nat { if ConsumesBudget(i) then 1 else 0 }

  // ---------------------------------------------------------------- creation

  predicate SameContent(i: Intent, source: Source, subject: Option<string>, blocks: seq<string>) {
    i.source == source && i.subject == subject && i.blocks == blocks
  }

  function NewIntent(source: Source, subject: Option<string>, blocks: seq<string>, state: DeliveryState, now: Time)
    : Intent
  {
    Intent(source, subject, blocks, state, now, None, None, None)
  }

  /** `admits` is the verdict of the turn budget, asked only when the intent would consume it. */
  function CreateRow(r: Row, source: Source, subject: Option<string>, blocks: seq<string>, admits: bool, now: Time)
    : (Row, Result<(Intent, bool), Error>)
  {
    var i := NewIntent(source, subject, blocks, Ready, now);
    if r.active.Some? then
      (r, if SameContent(r.active.value, source, subject, blocks) then Ok((r.active.value, false)) else Err(Conflict))
    else if r.dead.Some? then
      (r, if SameContent(r.dead.value.intent, source, subject, blocks) then Ok((r.dead.value.intent, false))
            else Err(Conflict))
    else if ConsumesBudget(i) && !admits then (r, Err(BudgetExhausted))
    else (r.(active := Some(i)), Ok((i, true)))
  }

  /** The cold start looks at the active collection only. */
  function ColdStartRow(r: Row, source: Source, subject: Option<string>, blocks: seq<string>, now: Time)
    : (Row, Result<(Intent, bool), Error>)
  {
    if source != ColdStartRich && source != ColdStartSparse then (r, Err(Invalid))
    else if r.active.Some? then
      (r, if r.active.value.source == ColdStartRich || r.active.value.source == ColdStartSparse
            then Ok((r.active.value, false)) else Err(Conflict))
    else
      var i := NewIntent(source, subject, blocks, PendingKernelReceipt, now);
      (r.(active := Some(i)), Ok((i, true)))
  }

  // ---------------------------------------------------------------- delivery

  function Buried(r: Row, i: Intent, a: Attempt, reason: Reason, now: Time): Row {
    var tomb := Tombstone(i.(state := DeadLetter, reason := Some(reason)),
                          a.(lastFetched := if a.lastFetched.Some? then a.lastFetched else Some(now)));
    r.(active := None, dead := Some(tomb), attempt := Some(a))
  }

  function DeliveredRow(r: Row, i: Intent, receipt: Receipt, now: Time): Row {
    r.(active := Some(i.(state := Delivered, deliveredAt := Some(now), receipt := Some(receipt), reason := None)),
       charged := r.charged + Charge(i))
  }

  datatype Fetched = Nothing | HandedOut(intent: Intent) | Parked(reason: Reason) | Reconciled

  function FetchRow(r: Row, now: Time, reconcile: bool): (Row, Fetched) {
    if r.active.None? || !Live(r.active.value) then (r, Nothing)
    else
      var a := Attempts(r).(fetches := Attempts(r).fetches + 1, lastFetched := Some(now));
      var reason := if a.requeues > 0 then AfterRequeue else Unacknowledged;
      if reconcile then (DeliveredRow(r, r.active.value, Synthetic, now).(attempt := Some(a)), Reconciled)
      else if a.fetches >= FETCH_BUDGET then (Buried(r, r.active.value, a, reason, now), Parked(reason))
      else (r.(attempt := Some(a)), HandedOut(r.active.value))
  }

  function RejectRow(r: Row, code: string, now: Time): (Row, Option<Reason>) {
    if r.active.None? || !Live(r.active.value) || !PermanentCode(code) then (r, None)
    else
      var a :=
        Attempts(r).(rejections := Attempts(r).rejections + 1, lastCode := Some(code), lastRejected := Some(now));
      if a.rejections >= REJECTION_BUDGET
        then (Buried(r, r.active.value, a, PermanentRejection(code), now), Some(PermanentRejection(code)))
      else (r.(attempt := Some(a)), None)
  }

  function DeferRow(r: Row, now: Time): Row {
    if r.active.None? || !Live(r.active.value) then r
    else
      var first := OrElse(Attempts(r).firstDeferred, now);
      var a := Attempts(r).(firstDeferred := Some(first), lastDeferred := Some(now));
      if now - first >= DEFERRAL_BUDGET then Buried(r, r.active.value, a, DeferredBeyondBudget, now)
      else r.(attempt := Some(a))
  }

  /** A dead letter left in place in the active collection may still be acknowledged once. */
  predicate RepairableInPlace(i: Intent, a: Attempt) {
    i.state == DeadLetter && i.reason.Some? && Transient(i.reason.value) && a.requeues == 0
  }

  function AckRow(r: Row, receipt: string, now: Time): (Row, Result<Intent, Error>) {
    if r.active.None? then (r, Err(NotReady))
    else
      var i := r.active.value;
      if i.state == Delivered then
        (r, if i.receipt == Some(Kernel(receipt)) || i.receipt == Some(Synthetic) then Ok(i) else Err(Conflict))
      else if i.state == DeadLetter && !RepairableInPlace(i, Attempts(r)) then (r, Ok(i))
      else
        var r' := DeliveredRow(r, i, Kernel(receipt), now);
        (if i.state == DeadLetter then r'.(attempt := Some(Attempts(r).(requeues := 1))) else r', Ok(r'.active.value))
  }

  // ---------------------------------------------------------------- repair

  predicate Requeueable(r: Row, now: Time) {
    r.dead.Some?
    && var a := OrElse(r.attempt, r.dead.value.attempt);
       r.dead.value.intent.reason.Some? && Transient(r.dead.value.intent.reason.value) && a.requeues == 0
       && (if a.lastRejected.Some? then now - a.lastRejected.value >= REPAIR_AGE
           else a.lastFetched.Some? && now - a.lastFetched.value >= REPAIR_AGE)
  }

  function RequeueRow(r: Row, now: Time): Row {
    if !Requeueable(r, now) then r
    else r.(active := Some(r.dead.value.intent.(state := Ready, reason := None)), dead := None,
            attempt :=
              Some(Attempts(r).(fetches := 0, requeues := 1, rejections := 0, lastCode := None, lastRejected := None)))
  }

  // ---------------------------------------------------------------- deferred questions

  datatype DeferralId = DeferralId(generation: nat, continuity: string)
  datatype Deferral = Deferral(subject: string, question: string, createdAt: Time, dueAt: Time, pending: bool)

  function ReleasedIntent(d: Deferral, now: Time): Intent {
    NewIntent(DeferralReraise, Some(d.subject), [d.question], Ready, now)
  }

  // ---------------------------------------------------------------- the store as a whole

  datatype State = State(generation: nat, rows: map<IntentId, Row>, deferrals: map<DeferralId, Deferral>)
  const EMPTY := State(0, map[], map[])

  function At(s: State, id: IntentId): Row { if id in s.rows then s.rows[id] else BLANK }

  function Put(s: State, id: IntentId, r: Row): State { s.(rows := s.rows[id := r]) }

  /** `Guarded` transactions read the control document; the others only compare the intent's own generation. */
  predicate Guarded(s: State, id: IntentId, g: nat) { s.generation == g && id.generation == g }

  function RecordDeferral(s: State, g: nat, k: string, subject: string, question: string, now: Time): State {
    var d := DeferralId(g, k);
    if s.generation != g || d in s.deferrals then s
    else s.(deferrals := s.deferrals[d := Deferral(subject, question, now, now + DEFERRAL_DUE_AFTER, true)])
  }

  function ReraiseId(d: DeferralId): IntentId { IntentId(d.generation, Of(DeferralReraise), d.continuity) }

  function Release(s: State, d: DeferralId, g: nat, now: Time): State {
    if s.generation != g || d.generation != g || d !in s.deferrals || !s.deferrals[d].pending then s
    else
      var r, released := At(s, ReraiseId(d)), s.(deferrals := s.deferrals[d := s.deferrals[d].(pending := false)]);
      if r.active.Some? then (if r.active.value.source == DeferralReraise then released else s)
      else Put(released, ReraiseId(d), r.(active := Some(ReleasedIntent(s.deferrals[d], now))))
  }

  datatype Op =
    | DoCreate(generation: nat, source: Source, continuity: string, subject: Option<string>, blocks: seq<string>,
               admits: bool, now: Time)
    | DoColdStart(generation: nat, source: Source, continuity: string, subject: Option<string>, blocks: seq<string>,
                  now: Time)
    | DoRecordDeferral(generation: nat, continuity: string, about: string, question: string, now: Time)
    | DoRelease(deferral: DeferralId, generation: nat, now: Time)
    | DoFetch(id: IntentId, generation: nat, reconcile: bool, now: Time)
    | DoReject(id: IntentId, generation: nat, code: string, now: Time)
    | DoDefer(id: IntentId, generation: nat, now: Time)
    | DoAck(id: IntentId, generation: nat, receipt: string, now: Time)
    | DoRequeue(id: IntentId, generation: nat, now: Time)
    | NewGeneration(generation: nat)

  /** The intent an operation is about. */
  function Target(op: Op): Option<IntentId> {
    match op
    case DoCreate(g, source, k, _, _, _, _) => Some(IntentId(g, Of(source), k))
    case DoColdStart(g, _, k, _, _, _) => Some(IntentId(g, ColdStartKey, k))
    case DoRelease(d, _, _) => Some(ReraiseId(d))
    case DoFetch(id, _, _, _) => Some(id)
    case DoReject(id, _, _, _) => Some(id)
    case DoDefer(id, _, _) => Some(id)
    case DoAck(id, _, _, _) => Some(id)
    case DoRequeue(id, _, _) => Some(id)
    case _ => None
  }

  /** The row of the targeted intent after an operation other than a release. */
  function RowAfter(s: State, op: Op, r: Row): Row {
    match op
    case DoCreate(g, source, _, subject, blocks, admits, now) =>
      if s.generation == g then CreateRow(r, source, subject, blocks, admits, now).0 else r
    case DoColdStart(g, source, _, subject, blocks, now) =>
      if s.generation == g then ColdStartRow(r, source, subject, blocks, now).0 else r
    case DoFetch(id, g, reconcile, now) => if id.generation == g then FetchRow(r, now, reconcile).0 else r
    case DoReject(id, g, code, now) => if Guarded(s, id, g) then RejectRow(r, code, now).0 else r
    case DoDefer(id, g, now) => if Guarded(s, id, g) then DeferRow(r, now) else r
    case DoAck(id, g, receipt, now) => if Guarded(s, id, g) then AckRow(r, receipt, now).0 else r
    case DoRequeue(id, g, now) => if id.generation == g then RequeueRow(r, now) else r
    case _ => r
  }

  function Step(s: State, op: Op): State {
    match op
    case NewGeneration(g) => s.(generation := g)
    case DoRecordDeferral(g, k, subject, question, now) => RecordDeferral(s, g, k, subject, question, now)
    case DoRelease(d, g, now) => Release(s, d, g, now)
    case _ => Put(s, Target(op).value, RowAfter(s, op, At(s, Target(op).value)))
  }

  function Run(s: State, ops: seq<Op>): State
    decreases |ops|
  {
    if ops == [] then s else Run(Step(s, ops[0]), ops[1..])
  }
}
