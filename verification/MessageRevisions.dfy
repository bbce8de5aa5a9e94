/** Saving a chat message under a client message id: idempotent retries and monotonic journal revisions. */
module MessageRevisions {
  import opened Prelude

  /** What every write of one message must agree on; a write may leave the session to be acquired. */
  datatype Sender = Sender(sender: string, app: Option<string>, source: string)

  datatype Write = Write(from: Sender, session: Option<string>, text: string, metadata: Option<string>,
                         blocks: Option<string>,
                         revision: Option<nat>, acquired: string)

  /** The payload fingerprint hashes exactly these fields; the hash is taken to be injective. */
  datatype Fingerprint = Fingerprint(from: Sender, session: Option<string>, text: string, metadata: Option<string>,
                                     blocks: Option<string>)

  datatype Message = Message(from: Sender, session: string, text: string, metadata: Option<string>,
                             blocks: Option<string>,
                             fingerprint: Fingerprint, revision: Option<nat>)

  datatype Outcome = Created | Updated | Kept | Conflict

  function FingerprintOf(w: Write): Fingerprint { Fingerprint(w.from, w.session, w.text, w.metadata, w.blocks) }

  function SessionOf(w: Write): string { match w.session case Some(x) => x case None => w.acquired }

  function NewMessage(w: Write): Message {
    Message(w.from, SessionOf(w), w.text, w.metadata, w.blocks, FingerprintOf(w), w.revision)
  }

  /** A row without a revision, or with revision zero, counts as revision one. */
  function StoredRevision(m: Message): nat { if m.revision.None? || m.revision.value == 0 then 1 else m.revision.value }

  predicate SameIdentity(m: Message, w: Write) {
    m.from == w.from && (w.session.Some? ==> w.session.value == m.session)
  }

  function Patched(m: Message, w: Write): Message {
    m.(text := w.text, metadata := w.metadata, fingerprint := FingerprintOf(w), revision := w.revision,
       blocks := if w.blocks.Some? then w.blocks else m.blocks)
  }

  /** Arbitration against an existing message. */
  function Arbitrate(m: Message, w: Write): (Message, Outcome) {
    if !SameIdentity(m, w) then (m, Conflict)
    else if w.revision.Some? && w.revision.value < StoredRevision(m) then (m, Kept)
    else if w.revision.None? || w.revision.value == StoredRevision(m)
           then (m, if m.fingerprint == FingerprintOf(w) then Kept else Conflict)
    else (Patched(m, w), Updated)
  }

  function Save(m: Option<Message>, w: Write): (Message, Outcome) {
    if m.None? then (NewMessage(w), Created) else Arbitrate(m.value, w)
  }

  function SaveAll(m: Option<Message>, ws: seq<Write>): Option<Message>
    decreases |ws|
  {
    if ws == [] then m else SaveAll(Some(Save(m, ws[0]).0), ws[1..])
  }

  function Count(m: Option<Message>, ws: seq<Write>, o: Outcome): nat
    decreases |ws|
  {
    if ws == [] then 0 else (if Save(m, ws[0]).1 == o then 1 else 0) + Count(Some(Save(m, ws[0]).0), ws[1..], o)
  }

  // ---------------------------------------------------------------- writes of one message

  function Rev(w: Write): nat { if w.revision.Some? then w.revision.value else 0 }

  /**
   * Two writes of one message: one identity, numbered revisions, and equal content whenever the revisions are equal.
   */
  predicate Compatible(a: Write, b: Write) {
    a.from == b.from && a.session == b.session && Rev(a) >= 1 && Rev(b) >= 1
    && (Rev(a) == Rev(b) ==> FingerprintOf(a) == FingerprintOf(b))
  }

  predicate Coherent(ws: seq<Write>) { forall i, j | 0 <= i < |ws| && 0 <= j < |ws| :: Compatible(ws[i], ws[j]) }

  /** The message says exactly what this write said; of the blocks only if the write brought any. */
  predicate Carries(m: Message, w: Write) {
    m.text == w.text && m.metadata == w.metadata && m.fingerprint == FingerprintOf(w) && m.revision == w.revision
    && Rev(w) >= 1
    && m.from == w.from && (w.session.Some? ==> m.session == w.session.value)
    && (w.blocks.Some? ==> m.blocks == w.blocks)
  }

  predicate Tops(t: Write, ws: seq<Write>) { t in ws && forall w | w in ws :: Rev(w) <= Rev(t) }

  lemma CreateCarries(w: Write)
    requires Rev(w) >= 1
    ensures Carries(NewMessage(w), w)
  {
  }

  lemma ArbitrateCarries(m: Message, t: Write, w: Write)
    requires Carries(m, t) && Compatible(t, w)
    ensures var o := Arbitrate(m, w);
            o.1 == (if Rev(t) < Rev(w) then Updated else Kept) && Carries(o.0, if Rev(t) < Rev(w) then w else t)
  {
  }

  /** From a message that carries `t`: no write conflicts or creates, and the highest revision wins. */
  lemma {:induction false} ArbitrationKeepsTheTop(m: Message, t: Write, ws: seq<Write>, top: Write)
    requires Carries(m, t) && Coherent([t] + ws) && Tops(top, [t] + ws)
    ensures var m' := SaveAll(Some(m), ws); m'.Some? && Carries(m'.value, top)
    ensures Count(Some(m), ws, Created) == 0 == Count(Some(m), ws, Conflict)
    decreases |ws|
  {
    if ws == [] {
      assert top == t;
    } else {
      var w := ws[0];
      assert ([t] + ws)[0] == t && ([t] + ws)[1] == w;
      ArbitrateCarries(m, t, w);
      var t' := if Rev(t) < Rev(w) then w else t;
      forall x | x in [t'] + ws[1..]
        ensures x in [t] + ws
      {
      }
      CoherentSubset([t] + ws, [t'] + ws[1..]);
      if top in [t'] + ws[1..] {
        ArbitrationKeepsTheTop(Arbitrate(m, w).0, t', ws[1..], top);
      } else {
        // The top write lost its place to an equal revision, which carries the same content.
        TopSurvives(t, ws, top, t');
        ArbitrationKeepsTheTop(Arbitrate(m, w).0, t', ws[1..], t');
      }
    }
  }

  lemma CoherentSubset(all: seq<Write>, some: seq<Write>)
    requires Coherent(all) && forall x | x in some :: x in all
    ensures Coherent(some)
  {
    forall i, j | 0 <= i < |some| && 0 <= j < |some|
      ensures Compatible(some[i], some[j])
    {
      assert some[i] in all && some[j] in all;
    }
  }

  lemma TopSurvives(t: Write, ws: seq<Write>, top: Write, t': Write)
    requires |ws| > 0 && Coherent([t] + ws) && Tops(top, [t] + ws) && t' == (if Rev(t) < Rev(ws[0]) then ws[0] else t)
    requires top !in [t'] + ws[1..]
    ensures Tops(t', [t'] + ws[1..]) && Rev(t') == Rev(top) && FingerprintOf(t') == FingerprintOf(top)
  {
    var all := [t] + ws;
    assert all[0] == t && all[1] == ws[0];
    assert top == t || top == ws[0];
    assert ([t'] + ws[1..])[0] == t';
    assert t in all && ws[0] in all;
    forall x | x in [t'] + ws[1..]
      ensures Rev(x) <= Rev(t')
    {
      assert x in all;
    }
    assert Compatible(t, ws[0]);
  }

  /**
   * In any arrival order, with any repeats, the stored message ends as the highest revision, created once and never
   * refused.
   */
  lemma HighestRevisionWins(ws: seq<Write>, top: Write)
    requires Coherent(ws) && Tops(top, ws)
    ensures var m := SaveAll(None, ws); m.Some? && Carries(m.value, top)
    ensures Count(None, ws, Created) == 1 && Count(None, ws, Conflict) == 0
  {
    assert ws == [ws[0]] + ws[1..];
    assert Compatible(ws[0], ws[0]);
    CreateCarries(ws[0]);
    ArbitrationKeepsTheTop(NewMessage(ws[0]), ws[0], ws[1..], top);
  }

  // ---------------------------------------------------------------- what a write is answered

  /** A row without a revision, or with revision zero, counts as revision one. */
  predicate HasRevision(m: Message, n: nat) {
    match m.revision case None => n == 1 case Some(r) => n == if r == 0 then 1 else r
  }

  /** The writer, application, source and, if the write names one, session are those of the stored row. */
  predicate SameRow(m: Message, w: Write) {
    m.from.sender == w.from.sender && m.from.app == w.from.app && m.from.source == w.from.source
    && (w.session.None? || w.session == Some(m.session))
  }

  /**
   * Sender, application, source, requested session, text, metadata and blocks are those the stored row was written
   * with.
   */
  predicate SamePayload(m: Message, w: Write) {
    m.fingerprint.from == w.from && m.fingerprint.session == w.session && m.fingerprint.text == w.text
    && m.fingerprint.metadata == w.metadata && m.fingerprint.blocks == w.blocks
  }

  /** A write to an existing row updates it exactly if it is of the same identity and carries a greater revision. */
  lemma UpdatesExactlyWhenNewer(m: Message, w: Write, n: nat)
    requires HasRevision(m, n)
    ensures Arbitrate(m, w).1 == Updated <==> SameRow(m, w) && w.revision.Some? && n < w.revision.value
    ensures Arbitrate(m, w).1 != Updated ==> Arbitrate(m, w).0 == m
    ensures Arbitrate(m, w).1 == Updated ==>
              var m' := Arbitrate(m, w).0;
              m'.text == w.text && m'.metadata == w.metadata && m'.revision == w.revision && SamePayload(m', w)
              && m'.from == m.from && m'.session == m.session
              && m'.blocks == (if w.blocks.Some? then w.blocks else m.blocks)
  {
  }

  /** It conflicts exactly on another identity, or on other content under an equal revision or under none. */
  lemma ConflictsExactlyWhen(m: Message, w: Write, n: nat)
    requires HasRevision(m, n)
    ensures Arbitrate(m, w).1 == Conflict <==>
              !SameRow(m, w) || ((w.revision.None? || w.revision == Some(n)) && !SamePayload(m, w))
    ensures Arbitrate(m, w).1 != Created
  {
  }

  /** The first write of an id creates the row as sent, in the requested or the acquired session. */
  lemma FirstWriteCreates(w: Write)
    ensures var o := Save(None, w);
            o.1 == Created && o.0.text == w.text && o.0.metadata == w.metadata && o.0.blocks == w.blocks
            && o.0.revision == w.revision && o.0.from == w.from && SamePayload(o.0, w)
            && (w.session.Some? ==> o.0.session == w.session.value) && (w.session.None? ==> o.0.session == w.acquired)
  {
  }

  // ---------------------------------------------------------------- content blocks

  function Blocks(ws: seq<Write>): Option<string> {
    match SaveAll(None, ws) case Some(m) => m.blocks case None => None
  }

  /** The winning write brought blocks, or no write did. */
  predicate BlocksSettled(ws: seq<Write>, top: Write) { top.blocks.Some? || forall w | w in ws :: w.blocks.None? }

  lemma {:induction false} NoBlocksAppear(m: Message, ws: seq<Write>)
    requires m.blocks.None? && forall w | w in ws :: w.blocks.None?
    ensures var m' := SaveAll(Some(m), ws); m'.Some? && m'.value.blocks.None?
    decreases |ws|
  {
    if ws != [] {
      NoBlocksAppear(Arbitrate(m, ws[0]).0, ws[1..]);
    }
  }

  lemma {:induction false} BlocksNeverVanish(m: Message, ws: seq<Write>)
    requires m.blocks.Some?
    ensures var m' := SaveAll(Some(m), ws); m'.Some? && m'.value.blocks.Some?
    decreases |ws|
  {
    if ws != [] {
      BlocksNeverVanish(Arbitrate(m, ws[0]).0, ws[1..]);
    }
  }

  lemma {:induction false} NothingFollowsTheTop(m: Message, top: Write, ws: seq<Write>)
    requires Carries(m, top) && forall w | w in ws :: Compatible(top, w) && Rev(w) <= Rev(top)
    ensures SaveAll(Some(m), ws) == Some(m)
    decreases |ws|
  {
    if ws != [] {
      assert ws[0] in ws;
      NothingFollowsTheTop(m, top, ws[1..]);
    }
  }

  lemma SettledBlocksAreTheTops(ws: seq<Write>, top: Write)
    requires Coherent(ws) && Tops(top, ws) && BlocksSettled(ws, top)
    ensures Blocks(ws) == top.blocks
  {
    if top.blocks.Some? {
      HighestRevisionWins(ws, top);
    } else {
      assert ws[0] in ws;
      NoBlocksAppear(NewMessage(ws[0]), ws[1..]);
    }
  }

  ghost predicate Reorders(p: seq<Write>, ws: seq<Write>) { multiset(p) == multiset(ws) }

  lemma ReorderedMembers(p: seq<Write>, ws: seq<Write>, w: Write)
    requires Reorders(p, ws)
    ensures w in p <==> w in ws
  {
    assert w in p <==> w in multiset(p);
    assert w in ws <==> w in multiset(ws);
  }

  lemma ReorderedIsCoherent(p: seq<Write>, ws: seq<Write>, top: Write)
    requires Reorders(p, ws) && Coherent(ws) && Tops(top, ws)
    ensures Coherent(p) && Tops(top, p) && (BlocksSettled(ws, top) ==> BlocksSettled(p, top))
  {
    forall w
      ensures w in p <==> w in ws
    {
      ReorderedMembers(p, ws, w);
    }
    CoherentSubset(ws, p);
  }

  function MoveFirst(ws: seq<Write>, i: nat): seq<Write>
    requires i < |ws|
  {
    [ws[i]] + ws[..i] + ws[i + 1..]
  }

  lemma MoveFirstReorders(ws: seq<Write>, i: nat)
    requires i < |ws|
    ensures Reorders(MoveFirst(ws, i), ws) && MoveFirst(ws, i)[0] == ws[i]
  {
    assert ws == ws[..i] + [ws[i]] + ws[i + 1..];
  }

  lemma TopFirstLeavesItsBlocks(p: seq<Write>, top: Write)
    requires Coherent(p) && Tops(top, p) && p[0] == top
    ensures Blocks(p) == top.blocks
  {
    CreateCarries(top);
    forall w | w in p[1..]
      ensures Compatible(top, w) && Rev(w) <= Rev(top)
    {
      assert w in p;
    }
    NothingFollowsTheTop(NewMessage(top), top, p[1..]);
  }

  lemma UnsettledBlocksDependOnOrder(ws: seq<Write>, top: Write) returns (p: seq<Write>, q: seq<Write>)
    requires Coherent(ws) && Tops(top, ws) && !BlocksSettled(ws, top)
    ensures Reorders(p, ws) && Reorders(q, ws) && Blocks(p) != Blocks(q)
  {
    var i :| 0 <= i < |ws| && ws[i] == top;
    var j :| 0 <= j < |ws| && ws[j].blocks.Some?;
    p, q := MoveFirst(ws, i), MoveFirst(ws, j);
    MoveFirstReorders(ws, i);
    MoveFirstReorders(ws, j);
    ReorderedIsCoherent(p, ws, top);
    TopFirstLeavesItsBlocks(p, top);
    BlocksNeverVanish(NewMessage(ws[j]), q[1..]);
  }

  /**
   * Unlike text, metadata and revision, the blocks are independent of the arrival order exactly when they are
   * settled.
   */
  lemma BlocksConvergeExactlyWhenSettled(ws: seq<Write>, top: Write)
    requires Coherent(ws) && Tops(top, ws)
    ensures BlocksSettled(ws, top) <==> forall p, q | Reorders(p, ws) && Reorders(q, ws) :: Blocks(p) == Blocks(q)
  {
    if BlocksSettled(ws, top) {
      forall p, q | Reorders(p, ws) && Reorders(q, ws)
        ensures Blocks(p) == Blocks(q)
      {
        ReorderedIsCoherent(p, ws, top);
        ReorderedIsCoherent(q, ws, top);
        SettledBlocksAreTheTops(p, top);
        SettledBlocksAreTheTops(q, top);
      }
    } else {
      var p, q := UnsettledBlocksDependOnOrder(ws, top);
    }
  }

  // ---------------------------------------------------------------- the store

  class MessageStore {
    var messages: map<string, Message>
    var sessionCounts: map<string, nat>        // message_count of the sessions that exist

    constructor ()
      ensures messages == map[] && sessionCounts == map[]
    {
      messages, sessionCounts := map[], map[];
    }

    /** Only a creation bumps the counter of its session. */
    method SaveMessage(id: string, w: Write) returns (o: Outcome)
      modifies this
      ensures var was := if id in old(messages) then Some(old(messages)[id]) else None;
              messages == old(messages)[id := Save(was, w).0] && o == Save(was, w).1
      ensures sessionCounts == if o == Created && SessionOf(w) in old(sessionCounts)
                               then old(sessionCounts)[SessionOf(w) := old(sessionCounts)[SessionOf(w)] + 1]
                               else old(sessionCounts)
    {
      if id in messages {
        o := ApplyExistingRevision(id, w);
        return;
      }
      var session := if w.session.Some? then w.session.value else w.acquired;
      messages := messages[id := Message(w.from, session, w.text, w.metadata, w.blocks, FingerprintOf(w), w.revision)];
      if session in sessionCounts {
        sessionCounts := sessionCounts[session := sessionCounts[session] + 1];
      }
      return Created;
    }

    method ApplyExistingRevision(id: string, w: Write) returns (o: Outcome)
      requires id in messages
      modifies `messages
      ensures messages == old(messages)[id := Arbitrate(old(messages)[id], w).0]
              && o == Arbitrate(old(messages)[id], w).1
      ensures o != Created
    {
      var existing := messages[id];
      if existing.from != w.from || (w.session.Some? && existing.session != w.session.value) {
        return Conflict;
      }
      var stored := if existing.revision.Some? && existing.revision.value != 0 then existing.revision.value else 1;
      if w.revision.None? {
        return if existing.fingerprint == FingerprintOf(w) then Kept else Conflict;
      }
      if w.revision.value < stored {
        return Kept;
      }
      if w.revision.value == stored {
        return if existing.fingerprint == FingerprintOf(w) then Kept else Conflict;
      }
      var patched :=
        existing.(text := w.text, metadata := w.metadata, fingerprint := FingerprintOf(w), revision := w.revision);
      if w.blocks.Some? {
        patched := patched.(blocks := w.blocks);
      }
      messages := messages[id := patched];
      return Updated;
    }
  }
}
