/** The intent transactions, statement by statement, over separate collections that are updated in place. */
module ChatFirstStore {
  import opened Prelude
  import opened ChatFirstIntents

  function Find<K, V>(m: map<K, V>, k: K): Option<V> { if k in m then Some(m[k]) else None }

  class Store {
    var generation: nat
    var intents: map<IntentId, Intent>
    var deadLetters: map<IntentId, Tombstone>
    var attempts: map<IntentId, Attempt>
    var deferrals: map<DeferralId, Deferral>
    var charges: map<IntentId, nat>          // turns the budget has counted, by intent

    /** The documents stored under one intent id. */
    ghost function RowOf(id: IntentId): Row
      reads this
    {
      Row(Find(intents, id), Find(deadLetters, id), Find(attempts, id), if id in charges then charges[id] else 0)
    }

    constructor ()
      ensures generation == 0 && deferrals == map[] && forall id :: RowOf(id) == BLANK
    {
      generation := 0;
      intents, deadLetters, attempts, deferrals, charges := map[], map[], map[], map[], map[];
    }

    method AccountMaterialization(id: IntentId)
      modifies `charges
      ensures RowOf(id) == old(RowOf(id)).(charged := old(RowOf(id)).charged + 1)
      ensures forall x | x != id :: RowOf(x) == old(RowOf(x))
    {
      charges := charges[id := (if id in charges then charges[id] else 0) + 1];
    }

    method MoveToDeadLetters(id: IntentId, intent: Intent, attempt: Attempt, reason: Reason, terminalAt: Time)
      modifies `intents, `deadLetters, `attempts
      ensures RowOf(id) == Buried(old(RowOf(id)), intent, attempt, reason, terminalAt)
      ensures forall x | x != id :: RowOf(x) == old(RowOf(x))
    {
      var payload := if attempt.lastFetched.None? then attempt.(lastFetched := Some(terminalAt)) else attempt;
      deadLetters := deadLetters[id := Tombstone(intent.(state := DeadLetter, reason := Some(reason)), payload)];
      intents := intents - {id};
      attempts := attempts[id := attempt];
    }

    method CreateIntent(accountGeneration: nat, source: Source, continuity: string, subject: Option<string>,
                        blocks: seq<string>,
                        admits: bool, now: Time) returns (r: Result<(Intent, bool), Error>)
      modifies `intents
      ensures var id := IntentId(accountGeneration, Of(source), continuity);
              if generation != accountGeneration then r == Err(GenerationChanged) && RowOf(id) == old(RowOf(id))
              else (RowOf(id), r) == CreateRow(old(RowOf(id)), source, subject, blocks, admits, now)
      ensures forall x | x != IntentId(accountGeneration, Of(source), continuity) :: RowOf(x) == old(RowOf(x))
    {
      var id := IntentId(accountGeneration, Of(source), continuity);
      if generation != accountGeneration {
        return Err(GenerationChanged);
      }
      if id in intents {
        return if SameContent(intents[id], source, subject, blocks) then Ok((intents[id], false)) else Err(Conflict);
      }
      if id in deadLetters {
        var existing := deadLetters[id].intent;
        return if SameContent(existing, source, subject, blocks) then Ok((existing, false)) else Err(Conflict);
      }
      var intent := NewIntent(source, subject, blocks, Ready, now);
      if ConsumesBudget(intent) && !admits {
        return Err(BudgetExhausted);
      }
      intents := intents[id := intent];
      return Ok((intent, true));
    }

    method GetOrCreateColdStartIntent(accountGeneration: nat, source: Source, continuity: string,
                                      subject: Option<string>, blocks: seq<string>,
                                      now: Time) returns (r: Result<(Intent, bool), Error>)
      modifies `intents
      ensures var id := IntentId(accountGeneration, ColdStartKey, continuity);
              if source != ColdStartRich && source != ColdStartSparse
                then r == Err(Invalid) && RowOf(id) == old(RowOf(id))
              else if generation != accountGeneration then r == Err(GenerationChanged) && RowOf(id) == old(RowOf(id))
              else (RowOf(id), r) == ColdStartRow(old(RowOf(id)), source, subject, blocks, now)
      ensures forall x | x != IntentId(accountGeneration, ColdStartKey, continuity) :: RowOf(x) == old(RowOf(x))
    {
      var id := IntentId(accountGeneration, ColdStartKey, continuity);
      if source != ColdStartRich && source != ColdStartSparse {
        return Err(Invalid);
      }
      if generation != accountGeneration {
        return Err(GenerationChanged);
      }
      if id in intents {
        var existing := intents[id];
        return if existing.source == ColdStartRich || existing.source == ColdStartSparse then Ok((existing, false))
                 else Err(Conflict);
      }
      var intent := NewIntent(source, subject, blocks, PendingKernelReceipt, now);
      intents := intents[id := intent];
      return Ok((intent, true));
    }

    method AdvanceFetchedIntent(id: IntentId, accountGeneration: nat, now: Time, reconcile: bool) returns (r: Fetched)
      modifies `intents, `deadLetters, `attempts, `charges
      ensures (RowOf(id), r) == if id.generation == accountGeneration then FetchRow(old(RowOf(id)), now, reconcile)
                                  else (old(RowOf(id)), Nothing)
      ensures forall x | x != id :: RowOf(x) == old(RowOf(x))
    {
      if id !in intents {
        return Nothing;
      }
      var intent := intents[id];
      var attempt := if id in attempts then attempts[id] else NO_ATTEMPT;
      if id.generation != accountGeneration || (intent.state != Ready && intent.state != PendingKernelReceipt) {
        return Nothing;
      }
      attempt := attempt.(fetches := attempt.fetches + 1, lastFetched := Some(now));
      if reconcile {
        if ConsumesBudget(intent) {
          AccountMaterialization(id);
        }
        intents :=
          intents[id :=
                  intent.(state := Delivered, deliveredAt := Some(now), receipt := Some(Synthetic), reason := None)];
        attempts := attempts[id := attempt];
        return Reconciled;
      }
      if attempt.fetches >= FETCH_BUDGET {
        var reason := if attempt.requeues > 0 then AfterRequeue else Unacknowledged;
        MoveToDeadLetters(id, intent, attempt, reason, now);
        return Parked(reason);
      }
      attempts := attempts[id := attempt];
      return HandedOut(intent);
    }

    method RecordMaterializationRejection(id: IntentId, accountGeneration: nat, code: string, now: Time)
      returns (r: Result<Option<Reason>, Error>)
      modifies `intents, `deadLetters, `attempts
      ensures if generation != accountGeneration then r == Err(GenerationChanged) && RowOf(id) == old(RowOf(id))
              else if id in old(intents) && id.generation != accountGeneration
                     then r == Err(WrongGeneration) && RowOf(id) == old(RowOf(id))
              else r.Ok? && (RowOf(id), r.value) == RejectRow(old(RowOf(id)), code, now)
      ensures forall x | x != id :: RowOf(x) == old(RowOf(x))
    {
      if generation != accountGeneration {
        return Err(GenerationChanged);
      }
      if id !in intents {
        return Ok(None);
      }
      var intent := intents[id];
      var attempt := if id in attempts then attempts[id] else NO_ATTEMPT;
      if id.generation != accountGeneration {
        return Err(WrongGeneration);
      }
      if intent.state == DeadLetter || intent.state == Delivered {
        return Ok(None);
      }
      if !PermanentCode(code) {
        return Ok(None);
      }
      attempt := attempt.(rejections := attempt.rejections + 1, lastCode := Some(code), lastRejected := Some(now));
      if attempt.rejections >= REJECTION_BUDGET {
        MoveToDeadLetters(id, intent, attempt, PermanentRejection(code), now);
        return Ok(Some(PermanentRejection(code)));
      }
      attempts := attempts[id := attempt];
      return Ok(None);
    }

    method RecordMaterializationDeferral(id: IntentId, accountGeneration: nat, now: Time) returns (r: Result<(), Error>)
      modifies `intents, `deadLetters, `attempts
      ensures if generation != accountGeneration then r == Err(GenerationChanged) && RowOf(id) == old(RowOf(id))
              else if id in old(intents) && id.generation != accountGeneration
                     then r == Err(WrongGeneration) && RowOf(id) == old(RowOf(id))
              else r.Ok? && RowOf(id) == DeferRow(old(RowOf(id)), now)
      ensures forall x | x != id :: RowOf(x) == old(RowOf(x))
    {
      if generation != accountGeneration {
        return Err(GenerationChanged);
      }
      if id !in intents {
        return Ok(());
      }
      var intent := intents[id];
      var attempt := if id in attempts then attempts[id] else NO_ATTEMPT;
      if id.generation != accountGeneration {
        return Err(WrongGeneration);
      }
      if intent.state != Ready && intent.state != PendingKernelReceipt {
        return Ok(());
      }
      var first := if attempt.firstDeferred.Some? then attempt.firstDeferred.value else now;
      attempt := attempt.(firstDeferred := Some(first), lastDeferred := Some(now));
      if now - first >= DEFERRAL_BUDGET {
        MoveToDeadLetters(id, intent, attempt, DeferredBeyondBudget, now);
        return Ok(());
      }
      attempts := attempts[id := attempt];
      return Ok(());
    }

    method AcknowledgeMaterialization(id: IntentId, accountGeneration: nat, receipt: string, now: Time)
      returns (r: Result<Intent, Error>)
      modifies `intents, `attempts, `charges
      ensures if generation != accountGeneration then r == Err(GenerationChanged) && RowOf(id) == old(RowOf(id))
              else if id in old(intents) && id.generation != accountGeneration
                     then r == Err(WrongGeneration) && RowOf(id) == old(RowOf(id))
              else (RowOf(id), r) == AckRow(old(RowOf(id)), receipt, now)
      ensures forall x | x != id :: RowOf(x) == old(RowOf(x))
    {
      if generation != accountGeneration {
        return Err(GenerationChanged);
      }
      if id !in intents {
        return Err(NotReady);
      }
      var intent := intents[id];
      var attempt := if id in attempts then attempts[id] else NO_ATTEMPT;
      if id.generation != accountGeneration {
        return Err(WrongGeneration);
      }
      if intent.state == Delivered {
        if intent.receipt != Some(Kernel(receipt)) && intent.receipt != Some(Synthetic) {
          return Err(Conflict);
        }
        return Ok(intent);
      }
      var repair := intent.state == DeadLetter && intent.reason.Some? && Transient(intent.reason.value)
        && attempt.requeues == 0;
      if intent.state == DeadLetter && !repair {
        return Ok(intent);
      }
      var delivered :=
        intent.(state := Delivered, deliveredAt := Some(now), receipt := Some(Kernel(receipt)), reason := None);
      if ConsumesBudget(intent) {
        AccountMaterialization(id);
      }
      intents := intents[id := delivered];
      if repair {
        attempts := attempts[id := attempt.(requeues := 1)];
      }
      return Ok(delivered);
    }

    method RequeueTransientDeadLetter(id: IntentId, accountGeneration: nat, now: Time) returns (requeued: bool)
      modifies `intents, `deadLetters, `attempts
      ensures requeued == (id.generation == accountGeneration && Requeueable(old(RowOf(id)), now))
      ensures RowOf(id) == if requeued then RequeueRow(old(RowOf(id)), now) else old(RowOf(id))
      ensures forall x | x != id :: RowOf(x) == old(RowOf(x))
    {
      if id !in deadLetters {
        return false;
      }
      var intent := deadLetters[id].intent;
      var attempt := if id in attempts then attempts[id] else deadLetters[id].attempt;
      if id.generation != accountGeneration || intent.reason.None? || !Transient(intent.reason.value)
        || attempt.requeues != 0 {
        return false;
      }
      var terminalAt := if attempt.lastRejected.Some? then attempt.lastRejected else attempt.lastFetched;
      if terminalAt.None? || now - terminalAt.value < REPAIR_AGE {
        return false;
      }
      intents := intents[id := intent.(state := Ready, reason := None)];
      var stored := if id in attempts then attempts[id] else NO_ATTEMPT;
      attempts :=
        attempts[id := stored.(fetches := 0, requeues := 1, rejections := 0, lastCode := None, lastRejected := None)];
      deadLetters := deadLetters - {id};
      return true;
    }

    /** A deferral is recorded once; a repeat with the same content returns the stored one, other content is refused. */
    method RecordDeferral(accountGeneration: nat, continuity: string, subject: string, question: string, now: Time)
      returns (r: Result<(Deferral, bool), Error>)
      modifies `deferrals
      ensures var d := DeferralId(accountGeneration, continuity);
              if generation != accountGeneration then r == Err(GenerationChanged) && deferrals == old(deferrals)
              else if d in old(deferrals) then
                deferrals == old(deferrals)
                && r == (if old(deferrals)[d].subject == subject && old(deferrals)[d].question == question
                         then Ok((old(deferrals)[d], false)) else Err(Conflict))
              else
                r.Ok? && r.value.1 && r.value.0.pending && r.value.0.dueAt == now + DEFERRAL_DUE_AFTER
                && deferrals == old(deferrals)[d := r.value.0]
      ensures var was := State(generation, map[], old(deferrals));
              deferrals
              == ChatFirstIntents.RecordDeferral(was, accountGeneration, continuity, subject, question, now).deferrals
    {
      var d := DeferralId(accountGeneration, continuity);
      if generation != accountGeneration {
        return Err(GenerationChanged);
      }
      if d in deferrals {
        var existing := deferrals[d];
        if existing.subject != subject || existing.question != question {
          return Err(Conflict);
        }
        return Ok((existing, false));
      }
      var deferral := Deferral(subject, question, now, now + DEFERRAL_DUE_AFTER, true);
      deferrals := deferrals[d := deferral];
      return Ok((deferral, true));
    }

    method ReleaseDeferral(d: DeferralId, accountGeneration: nat, now: Time) returns (released: bool)
      modifies `intents, `deferrals
      ensures var ready := generation == accountGeneration == d.generation && d in old(deferrals)
              && old(deferrals)[d].pending; var r := old(RowOf(ReraiseId(d)));
              released == (ready && (r.active.Some? ==> r.active.value.source == DeferralReraise))
              && RowOf(ReraiseId(d))
                == (if ready && r.active.None? then r.(active := Some(ReleasedIntent(old(deferrals)[d], now))) else r)
      ensures deferrals == if released then old(deferrals)[d := old(deferrals)[d].(pending := false)]
                             else old(deferrals)
      ensures forall x | x != ReraiseId(d) :: RowOf(x) == old(RowOf(x))
    {
      if generation != accountGeneration || d !in deferrals {
        return false;
      }
      var current := deferrals[d];
      if d.generation != accountGeneration || !current.pending {
        return false;
      }
      var id := ReraiseId(d);
      if id in intents {
        if intents[id].source != DeferralReraise {
          return false;
        }
        deferrals := deferrals[d := current.(pending := false)];
        return true;
      }
      intents := intents[id := ReleasedIntent(current, now)];
      deferrals := deferrals[d := current.(pending := false)];
      return true;
    }
  }
}
