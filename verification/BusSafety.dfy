/** Safety of the bus: exclusive access to every envelope, sound claims and
    reservations, and in-order delivery, in every interleaving. */
module BusSafety {
  import opened Options
  import opened SlotIndex
  import opened Bus

  // ---------------------------------------------------------------- invariant

  /** The stored and cached consumer positions trail the cursor, and the claimed
      positions never run more than a lap ahead of it. */
  ghost predicate Positions(s: State) {
    && s.WellFormed()
    && s.cachedPos <= s.consumerPos <= s.Cursor() <= s.producerPos <= s.Cursor() + s.cfg.depth
    && |s.content| == s.producerPos
    && (s.Consuming() ==> s.Cursor() < s.producerPos)
    && BatchCount(s.consumer, s.consumerPos)
  }

  /** Inside a batch the cursor is ahead of the stored position by the messages done. */
  ghost predicate BatchCount(c: Consumer, stored: nat) {
    match c
    case Claim(pos, n) => pos == stored + n
    case ReadHeader(pos, n) => pos == stored + n
    case ReadPayload(pos, n, _) => pos == stored + n
    case Release(pos, n) => pos == stored + n
    case StorePos(pos, n) => pos == stored + n
    case _ => true
  }

  /** A position not claimed yet: its slot is free for exactly that position. */
  ghost predicate FreeAt(s: State, q: nat)
    requires s.WellFormed()
  {
    s.At(q).sequence == q
  }

  /** A claimed position not consumed yet: being filled, published, being consumed,
      or reserved by an evictor. A published or consumed slot holds the content. */
  ghost predicate ActiveAt(s: State, q: nat)
    requires s.WellFormed() && q < |s.content|
  {
    var slot, depth := s.At(q), s.cfg.depth;
    if s.Consuming() && q == s.Cursor() then
      slot.sequence == q + 1 + depth && s.content[q] == Some(slot.envelope)
    else
      || (slot.sequence == q && s.content[q].None?)
      || (slot.sequence == q + 1 && s.content[q] == Some(slot.envelope)
          && slot.priority == slot.envelope.header.priority)
      || (slot.sequence == q + 1 + 2 * depth && s.content[q].Some?)
  }

  ghost predicate Window(s: State)
    requires Positions(s)
  {
    && (forall q :: s.producerPos <= q < s.Cursor() + s.cfg.depth ==> FreeAt(s, q))
    && (forall q :: s.Cursor() <= q < s.producerPos ==> ActiveAt(s, q))
  }

  /** The position whose envelope a call may write, if any. */
  function Holds(call: Call): Option<nat> {
    match call
    case Own(_, pos, _, _) => Some(pos)
    case EvictVerify(_, _, cons, i) => Some(cons + i)
    case EvictRestore(_, _, cons, i) => Some(cons + i)
    case _ => None
  }

  /** What a call has already written into the slot it owns. */
  ghost predicate Filled(slot: Slot, req: Request, stage: Stage) {
    match stage
    case TakeId => true
    case PutHeader(_) => true
    case PutPayload(id) => slot.envelope.header == HeaderOf(req, id)
    case PutPriority(id) => slot.envelope == EnvelopeOf(req, id)
    case PutSequence(id) => slot.envelope == EnvelopeOf(req, id) && slot.priority == req.priority
  }

  ghost predicate Scanning(s: State, req: Request, cons: nat, i: nat) {
    req.priority == High && cons <= s.consumerPos && 1 <= i
  }

  /** What a call knows. Only the holder of a slot knows anything about its fields. */
  ghost predicate CallFacts(s: State, call: Call)
    requires Positions(s)
  {
    var depth := s.cfg.depth;
    match call
    case StoreCached(_, _, cons) => cons <= s.consumerPos
    case CountRecheck(_, _, cons) => cons <= s.consumerPos
    case ClaimSequence(_, _, pos) => pos <= s.producerPos
    case ClaimFull(_, _, pos) => pos <= s.producerPos
    case ClaimExchange(_, _, pos) => pos < s.producerPos || (pos == s.producerPos && pos < s.Cursor() + depth)
    case Own(req, pos, evicting, stage) =>
      && s.Cursor() <= pos < s.producerPos
      && s.At(pos).sequence == (if evicting then pos + 1 + 2 * depth else pos)
      && Filled(s.At(pos), req, stage)
      && (evicting ==> req.priority == High && s.content[pos].Some? && s.content[pos].value.header.priority != High)
    case EvictLoadProd(req) => req.priority == High
    case EvictLoadCons(req, _) => req.priority == High
    case EvictScan(req, _, cons, i) => Scanning(s, req, cons, i)
    case EvictPeek(req, _, cons, i) => Scanning(s, req, cons, i) && i < depth
    case EvictReserve(req, _, cons, i) => Scanning(s, req, cons, i) && i < depth
    case EvictVerify(req, _, cons, i) => Scanning(s, req, cons, i) && i < depth && ReservedAt(s, cons + i)
    case EvictRestore(req, _, cons, i) => Scanning(s, req, cons, i) && i < depth && ReservedAt(s, cons + i)
    case _ => true
  }

  /** Reserved and not overwritten yet. */
  ghost predicate ReservedAt(s: State, q: nat)
    requires Positions(s)
  {
    && s.Cursor() <= q < s.producerPos
    && s.At(q).sequence == q + 1 + 2 * s.cfg.depth
    && s.content[q] == Some(s.At(q).envelope)
    && s.At(q).priority == s.At(q).envelope.header.priority
  }

  ghost predicate AllCalls(s: State)
    requires Positions(s)
  {
    forall t :: t in s.calls ==> CallFacts(s, s.calls[t])
  }

  ghost predicate Exclusive(s: State) {
    forall t, u :: t in s.calls && u in s.calls && t != u && Holds(s.calls[t]).Some? ==>
                     Holds(s.calls[t]) != Holds(s.calls[u])
  }

  /** Positions 0, 1, 2, ... were handed over in order, each once. */
  ghost predicate History(s: State)
    requires Positions(s)
  {
    && |s.delivered| == s.Cursor() + (if s.consumer.Release? then 1 else 0)
    && (forall i :: 0 <= i < |s.delivered| ==> s.content[i] == Some(s.delivered[i]))
    && (s.consumer.ReadPayload? ==> s.consumer.header == s.At(s.Cursor()).envelope.header)
    && (forall e :: e in s.evicted ==> e.header.priority != High)
  }

  ghost predicate Inv(s: State) {
    Positions(s) && Window(s) && AllCalls(s) && Exclusive(s) && History(s)
  }

  lemma InitInv(cfg: Config)
    requires cfg.Valid()
    ensures Inv(Init(cfg))
  {
    var s := Init(cfg);
    forall q | s.producerPos <= q < s.Cursor() + s.cfg.depth
      ensures FreeAt(s, q)
    {
      assert Index(q, cfg.depth) == q;
    }
  }

  // ---------------------------------------------------------------- slots of the window

  /** Writing the slot of one window position leaves the other positions alone. */
  lemma PutFrame(s: State, p: nat, slot: Slot, q: nat)
    requires s.WellFormed()
    requires p != q && p < q + s.cfg.depth && q < p + s.cfg.depth
    ensures s.Put(p, slot).WellFormed()
    ensures s.Put(p, slot).At(p) == slot
    ensures s.Put(p, slot).At(q) == s.At(q)
  {
    if p < q { DistinctSlots(p, q, s.cfg.depth); } else { DistinctSlots(q, p, s.cfg.depth); }
  }

  // ---------------------------------------------------------------- what other calls know

  /** `s'` is a later state in which position `q` is still active and untouched. */
  ghost predicate Untouched(s: State, s': State, q: nat)
    requires Positions(s) && Positions(s') && q < s.producerPos <= s'.producerPos && s'.cfg == s.cfg
  {
    s'.Cursor() <= q && s'.At(q) == s.At(q) && s'.content[q] == s.content[q]
  }

  ghost predicate Later(s: State, s': State) {
    && s'.cfg == s.cfg
    && s.producerPos <= s'.producerPos && s.consumerPos <= s'.consumerPos && s.Cursor() <= s'.Cursor()
  }

  /** What a call knows stays true as long as nobody touches the slot it holds. */
  lemma FactsStable(s: State, s': State, call: Call)
    requires Positions(s) && Positions(s') && Later(s, s') && CallFacts(s, call)
    requires Holds(call).Some? ==> Holds(call).value < s.producerPos && Untouched(s, s', Holds(call).value)
    ensures CallFacts(s', call)
  {}

  lemma HolderFacts(s: State, call: Call, q: nat)
    requires Positions(s) && CallFacts(s, call) && Holds(call) == Some(q)
    ensures s.Cursor() <= q < s.producerPos && s.At(q).sequence in {q, q + 1 + 2 * s.cfg.depth}
  {}

  lemma HeldIsActive(s: State, t: nat)
    requires Positions(s) && AllCalls(s) && t in s.calls && Holds(s.calls[t]).Some?
    ensures var q := Holds(s.calls[t]).value;
            s.Cursor() <= q < s.producerPos && s.At(q).sequence in {q, q + 1 + 2 * s.cfg.depth}
  {
    HolderFacts(s, s.calls[t], Holds(s.calls[t]).value);
  }

  /** All calls but `t` keep what they know, and `t` knows what its next step needs. */
  lemma CallsStable(s: State, s': State, t: nat)
    requires Positions(s) && Positions(s') && Later(s, s') && AllCalls(s)
    requires forall u :: u in s'.calls && u != t ==> u in s.calls && s'.calls[u] == s.calls[u]
    requires forall u :: u in s'.calls && u != t && Holds(s.calls[u]).Some? ==>
               Holds(s.calls[u]).value < s.producerPos && Untouched(s, s', Holds(s.calls[u]).value)
    requires t in s'.calls ==> CallFacts(s', s'.calls[t])
    ensures AllCalls(s')
  {
    forall u | u in s'.calls ensures CallFacts(s', s'.calls[u]) {
      if u != t {
        assert CallFacts(s, s.calls[u]);
        FactsStable(s, s', s.calls[u]);
      }
    }
  }

  // ---------------------------------------------------------------- calls that only move on

  /** `s'` has the same ring, positions, consumer and contents as `s`; calls and
      counters may differ. */
  ghost predicate SameShared(s: State, s': State) {
    && s'.cfg == s.cfg && s'.ring == s.ring && s'.producerPos == s.producerPos && s'.consumerPos == s.consumerPos
    && s'.cachedPos <= s'.consumerPos && s'.consumer == s.consumer && s'.content == s.content
    && s'.evicted == s.evicted && s'.delivered == s.delivered
  }

  lemma SharedFacts(s: State, s': State)
    requires Positions(s) && Window(s) && History(s) && SameShared(s, s')
    ensures Positions(s') && Window(s') && History(s')
  {
    forall q | s'.producerPos <= q < s'.Cursor() + s'.cfg.depth ensures FreeAt(s', q) {
      assert FreeAt(s, q);
    }
    forall q | s'.Cursor() <= q < s'.producerPos ensures ActiveAt(s', q) {
      assert ActiveAt(s, q);
    }
  }

  /** A call that changes no shared state keeps the invariant when it knows what its
      next step needs and holds no slot it did not hold before. */
  lemma MoveInv(s: State, s': State, t: nat, call: Call)
    requires Inv(s) && SameShared(s, s') && s'.calls == s.calls[t := call]
    requires CallFacts(s, call)
    requires Holds(call) == None || (t in s.calls && Holds(call) == Holds(s.calls[t]))
    ensures Inv(s')
  {
    SharedFacts(s, s');
    assert CallFacts(s', call) by { SharedCallFacts(s, s', call); }
    SharedCalls(s, s', t);
    ExclusiveKept(s, s', t);
  }

  lemma SharedCallFacts(s: State, s': State, call: Call)
    requires Positions(s) && Positions(s') && SameShared(s, s') && CallFacts(s, call)
    ensures CallFacts(s', call)
  {}

  lemma SharedCalls(s: State, s': State, t: nat)
    requires Positions(s) && Positions(s') && SameShared(s, s') && AllCalls(s)
    requires forall u :: u in s'.calls && u != t ==> u in s.calls && s'.calls[u] == s.calls[u]
    requires t in s'.calls ==> CallFacts(s', s'.calls[t])
    ensures AllCalls(s')
  {
    forall u | u in s'.calls ensures CallFacts(s', s'.calls[u]) {
      if u != t {
        assert CallFacts(s, s.calls[u]);
        SharedCallFacts(s, s', s.calls[u]);
      }
    }
  }

  /** A call that moves on without taking a slot it did not hold. */
  lemma ExclusiveKept(s: State, s': State, t: nat)
    requires Exclusive(s)
    requires forall u :: u in s'.calls && u != t ==> u in s.calls && s'.calls[u] == s.calls[u]
    requires t in s'.calls ==> Holds(s'.calls[t]) == None || (t in s.calls && Holds(s'.calls[t]) == Holds(s.calls[t]))
    ensures Exclusive(s')
  {}

  lemma EndInv(s: State, e: State, t: nat, next: Option<Call>)
    requires Inv(s) && SameShared(s, e) && e.calls == s.calls
    requires next.Some? ==> CallFacts(s, next.value) && Holds(next.value) == None
    ensures Inv(e.End(t, next))
  {
    var s' := e.End(t, next);
    if next.Some? {
      MoveInv(s, s', t, next.value);
    } else {
      SharedFacts(s, s');
      SharedCalls(s, s', t);
      ExclusiveKept(s, s', t);
    }
  }

  lemma AdmissionInv(s: State, t: nat, weak: bool)
    requires Inv(s) && t in s.calls && s.calls[t].Admitting()
    ensures Inv(StepCall(s, t, weak))
  {
    var call := s.calls[t];
    assert CallFacts(s, call);
    EndInv(s, AdmissionEffect(s, call), t, AdmissionNext(s, call));
  }

  lemma CountInv(s: State, t: nat, weak: bool)
    requires Inv(s) && t in s.calls && s.calls[t].Counting()
    ensures Inv(StepCall(s, t, weak))
  {
    CountingStep(s, t, weak);
    EndInv(s, CountEffect(s, s.calls[t]), t, CountNext(s.calls[t]));
  }

  lemma CountingStep(s: State, t: nat, weak: bool)
    requires s.WellFormed() && s.cachedPos <= s.consumerPos && t in s.calls && s.calls[t].Counting()
    ensures var e := CountEffect(s, s.calls[t]);
            SameShared(s, e) && e.calls == s.calls && StepCall(s, t, weak) == e.End(t, CountNext(s.calls[t]))
  {}

  // ---------------------------------------------------------------- claiming

  /** A free-looking sequence number is one: if the queue were a full lap ahead, the
      slot would still carry the oldest position, whose markers all differ. */
  lemma SequenceMatchMeansFree(s: State, pos: nat)
    requires Inv(s) && pos <= s.producerPos && s.At(pos).sequence == pos
    ensures pos < s.producerPos || pos < s.Cursor() + s.cfg.depth
  {
    NextLap(s.Cursor(), s.cfg.depth);
    assert s.Cursor() < s.producerPos ==> ActiveAt(s, s.Cursor());
  }

  lemma ClaimInv(s: State, t: nat, weak: bool)
    requires Inv(s) && t in s.calls && s.calls[t].Claiming()
    ensures Inv(StepCall(s, t, weak))
  {
    var call := s.calls[t];
    assert CallFacts(s, call);
    if ClaimSucceeds(s, call, weak) {
      ClaimedInv(s, t);
    } else {
      if call.ClaimSequence? && s.At(call.pos).sequence == call.pos { SequenceMatchMeansFree(s, call.pos); }
      MoveInv(s, StepCall(s, t, weak), t, ClaimNext(s, call, weak));
    }
  }

  /** The claiming exchange only succeeds on a slot that is free for that position. */
  lemma ClaimFindsFreeSlot(s: State, t: nat)
    requires Inv(s) && t in s.calls && s.calls[t].ClaimExchange? && s.calls[t].pos == s.producerPos
    ensures s.At(s.calls[t].pos).sequence == s.calls[t].pos
    ensures s.producerPos < s.Cursor() + s.cfg.depth
    ensures forall u :: u in s.calls ==> Holds(s.calls[u]) != Some(s.calls[t].pos)
  {
    assert CallFacts(s, s.calls[t]);
    assert FreeAt(s, s.producerPos);
    forall u | u in s.calls ensures Holds(s.calls[u]) != Some(s.producerPos) {
      if Holds(s.calls[u]).Some? { HeldIsActive(s, u); }
    }
  }

  lemma ClaimedWindow(s: State, s': State)
    requires Positions(s) && Window(s) && History(s)
    requires s.producerPos < s.Cursor() + s.cfg.depth && s.At(s.producerPos).sequence == s.producerPos
    requires s'.cfg == s.cfg && s'.ring == s.ring
    requires s'.producerPos == s.producerPos + 1 && s'.content == s.content + [None]
    requires s'.consumerPos == s.consumerPos && s'.cachedPos == s.cachedPos && s'.consumer == s.consumer
    requires s'.delivered == s.delivered && s'.evicted == s.evicted
    ensures Positions(s') && Window(s') && History(s')
  {
    forall q | s'.producerPos <= q < s'.Cursor() + s'.cfg.depth ensures FreeAt(s', q) {
      assert FreeAt(s, q);
    }
    forall q | s'.Cursor() <= q < s'.producerPos ensures ActiveAt(s', q) {
      if q < s.producerPos { assert ActiveAt(s, q); }
    }
  }

  lemma ClaimedInv(s: State, t: nat)
    requires Inv(s) && t in s.calls && s.calls[t].ClaimExchange? && s.calls[t].pos == s.producerPos
    ensures Inv(StepCall(s, t, false))
  {
    ClaimFindsFreeSlot(s, t);
    var s' := StepCall(s, t, false);
    ClaimedWindow(s, s');
    forall u | u in s'.calls && u != t && Holds(s.calls[u]).Some?
      ensures Holds(s.calls[u]).value < s.producerPos && Untouched(s, s', Holds(s.calls[u]).value)
    {
      HeldIsActive(s, u);
    }
    CallsStable(s, s', t);
  }

  // ---------------------------------------------------------------- writing a slot

  /** `s'` differs from `s` in the slot and content of active position `p`, and in
      calls, ids and history that the ring does not depend on. */
  ghost predicate WritesOnly(s: State, s': State, p: nat, slot: Slot)
    requires Positions(s)
  {
    && s.Cursor() <= p < s.producerPos
    && (s.Consuming() ==> p != s.Cursor())
    && s'.cfg == s.cfg && s'.ring == s.ring[Index(p, s.cfg.depth) := slot]
    && s'.producerPos == s.producerPos && s'.consumerPos == s.consumerPos && s'.cachedPos == s.cachedPos
    && s'.consumer == s.consumer && s'.delivered == s.delivered
    && |s'.content| == |s.content| && (forall q :: 0 <= q < |s.content| && q != p ==> s'.content[q] == s.content[q])
  }

  lemma WriteFrame(s: State, s': State, p: nat, slot: Slot, q: nat)
    requires Positions(s) && WritesOnly(s, s', p, slot) && s.Cursor() <= q < s.Cursor() + s.cfg.depth
    ensures Positions(s')
    ensures s'.At(q) == if q == p then slot else s.At(q)
  {
    if q != p { PutFrame(s, p, slot, q); }
  }

  lemma WriteWindow(s: State, s': State, p: nat, slot: Slot)
    requires Positions(s) && Window(s) && WritesOnly(s, s', p, slot) && Positions(s') && ActiveAt(s', p)
    ensures Window(s')
  {
    forall q | s'.producerPos <= q < s'.Cursor() + s'.cfg.depth ensures FreeAt(s', q) {
      WriteFrame(s, s', p, slot, q);
      assert FreeAt(s, q);
    }
    forall q | s'.Cursor() <= q < s'.producerPos ensures ActiveAt(s', q) {
      WriteFrame(s, s', p, slot, q);
      assert ActiveAt(s, q);
    }
  }

  lemma WriteHistory(s: State, s': State, p: nat, slot: Slot)
    requires Positions(s) && History(s) && WritesOnly(s, s', p, slot) && Positions(s')
    requires forall e :: e in s'.evicted ==> e.header.priority != High
    ensures History(s')
  {
    WriteFrame(s, s', p, slot, s.Cursor());
  }

  /** A slot write keeps the invariant when the written position stays well formed,
      only `t` can hold it, and `t` knows what its next step needs. */
  lemma WriteInv(s: State, s': State, t: nat, p: nat, slot: Slot, call: Call)
    requires Inv(s) && WritesOnly(s, s', p, slot) && Positions(s') && ActiveAt(s', p)
    requires s'.calls == s.calls[t := call]
    requires Holds(call) == None || Holds(call) == Some(p)
    requires CallFacts(s', call)
    requires forall u :: u in s.calls && u != t ==> Holds(s.calls[u]) != Some(p)
    requires forall e :: e in s'.evicted ==> e.header.priority != High
    ensures Inv(s')
  {
    WriteWindow(s, s', p, slot);
    WriteHistory(s, s', p, slot);
    forall u | u in s'.calls && u != t && Holds(s.calls[u]).Some?
      ensures Holds(s.calls[u]).value < s.producerPos && Untouched(s, s', Holds(s.calls[u]).value)
    {
      HeldIsActive(s, u);
      WriteFrame(s, s', p, slot, Holds(s.calls[u]).value);
    }
    CallsStable(s, s', t);
  }

  /** Nobody else holds the slot a call holds, and the consumer is not in it. */
  lemma HolderAlone(s: State, t: nat, p: nat)
    requires Inv(s) && t in s.calls && Holds(s.calls[t]) == Some(p)
    ensures s.Cursor() <= p < s.producerPos
    ensures s.Consuming() ==> p != s.Cursor()
    ensures forall u :: u in s.calls && u != t ==> Holds(s.calls[u]) != Some(p)
  {
    HeldIsActive(s, t);
    assert ActiveAt(s, p);
  }

  lemma FillFacts(s: State, s': State, call: Call)
    requires Positions(s) && Positions(s') && CallFacts(s, call) && call.Own?
    requires !call.stage.TakeId? && !call.stage.PutSequence?
    requires s'.cfg == s.cfg && s'.producerPos == s.producerPos && s'.content == s.content
    requires s'.consumer == s.consumer && s'.consumerPos == s.consumerPos
    requires s.Consuming() ==> call.pos != s.Cursor()
    requires s'.At(call.pos) == Fill(s.At(call.pos), call.req, call.pos, call.stage) && ActiveAt(s, call.pos)
    ensures CallFacts(s', OwnNext(s, call)) && ActiveAt(s', call.pos)
  {}

  /** Writing header, payload or slot priority. */
  lemma FillInv(s: State, t: nat, weak: bool)
    requires Inv(s) && t in s.calls && s.calls[t].Own?
    requires !s.calls[t].stage.TakeId? && !s.calls[t].stage.PutSequence?
    ensures s.calls[t].pos < |s.content| && Inv(StepCall(s, t, weak))
  {
    var call := s.calls[t];
    var p := call.pos;
    HolderAlone(s, t, p);
    assert CallFacts(s, call) && ActiveAt(s, p);
    var s' := StepCall(s, t, weak);
    var slot := Fill(s.At(p), call.req, p, call.stage);
    WriteFrame(s, s', p, slot, p);
    FillFacts(s, s', call);
    WriteInv(s, s', t, p, slot, OwnNext(s, call));
  }

  /** Storing the published sequence number. */
  lemma PublishInv(s: State, t: nat, weak: bool)
    requires Inv(s) && t in s.calls && s.calls[t].Own? && s.calls[t].stage.PutSequence?
    ensures s.calls[t].pos < |s.content| && Inv(StepCall(s, t, weak))
  {
    var call := s.calls[t];
    var p := call.pos;
    HolderAlone(s, t, p);
    assert CallFacts(s, call);
    var s' := StepCall(s, t, weak);
    var slot := s.At(p).(sequence := p + 1);
    WriteFrame(s, s', p, slot, p);
    WriteInv(s, s', t, p, slot, OwnNext(s, call));
  }

  lemma OwnInv(s: State, t: nat, weak: bool)
    requires Inv(s) && t in s.calls && s.calls[t].Own?
    ensures s.calls[t].pos < |s.content| && Inv(StepCall(s, t, weak))
  {
    HolderAlone(s, t, s.calls[t].pos);
    if s.calls[t].stage.TakeId? {
      assert CallFacts(s, s.calls[t]);
      MoveInv(s, StepCall(s, t, weak), t, OwnNext(s, s.calls[t]));
    } else if s.calls[t].stage.PutSequence? {
      PublishInv(s, t, weak);
    } else {
      FillInv(s, t, weak);
    }
  }

  // ---------------------------------------------------------------- evicting

  /** A slot that carries the published number of a position not beyond the window is
      published for that position, although a slot being consumed one lap earlier carries
      the same number. */
  lemma MatchIsPublished(s: State, p: nat)
    requires Positions(s) && Window(s) && p < s.Cursor() + s.cfg.depth && s.At(p).sequence == p + 1
    ensures s.Cursor() <= p < s.producerPos
    ensures s.Consuming() ==> p != s.Cursor()
    ensures s.content[p] == Some(s.At(p).envelope) && s.At(p).priority == s.At(p).envelope.header.priority
  {
    // the window position that uses this slot; it is `p` itself
    var q := PositionIn(s.Cursor(), p, s.cfg.depth);
    assert s.At(q) == s.At(p);
    assert if q < s.producerPos then ActiveAt(s, q) else FreeAt(s, q);
    assert q == p;
  }

  /** The reserving exchange only succeeds on a slot published for exactly the scanned
      position. */
  lemma ReserveFindsPublished(s: State, t: nat)
    requires Inv(s) && t in s.calls && ReserveSucceeds(s, s.calls[t])
    ensures var p := s.calls[t].cons + s.calls[t].i;
            && s.Cursor() <= p < s.producerPos
            && (s.Consuming() ==> p != s.Cursor())
            && s.content[p] == Some(s.At(p).envelope)
            && s.At(p).priority == s.At(p).envelope.header.priority
            && (forall u :: u in s.calls ==> Holds(s.calls[u]) != Some(p))
  {
    assert CallFacts(s, s.calls[t]);
    var p := s.calls[t].cons + s.calls[t].i;
    MatchIsPublished(s, p);
    forall u | u in s.calls ensures Holds(s.calls[u]) != Some(p) {
      if Holds(s.calls[u]).Some? { HeldIsActive(s, u); }
    }
  }

  lemma ReserveStep(s: State, t: nat, weak: bool, p: nat, slot: Slot)
    requires s.WellFormed() && t in s.calls && ReserveSucceeds(s, s.calls[t])
    requires p == s.calls[t].cons + s.calls[t].i && slot == s.At(p).(sequence := p + 1 + 2 * s.cfg.depth)
    ensures StepCall(s, t, weak) == s.Put(p, slot).Go(t, EvictNext(s, s.calls[t]))
  {}

  lemma ReservedFacts(s: State, s': State, call: Call, p: nat, slot: Slot)
    requires Positions(s) && CallFacts(s, call) && ReserveSucceeds(s, call) && p == call.cons + call.i
    requires Positions(s') && WritesOnly(s, s', p, slot) && s'.At(p) == slot && s'.content == s.content
    requires slot == s.At(p).(sequence := p + 1 + 2 * s.cfg.depth) && s.content[p] == Some(s.At(p).envelope)
    requires s.At(p).priority == s.At(p).envelope.header.priority
    ensures ActiveAt(s', p) && CallFacts(s', EvictNext(s, call))
  {}

  lemma ReservedWrite(s: State, t: nat, p: nat, slot: Slot)
    requires Inv(s) && t in s.calls && ReserveSucceeds(s, s.calls[t]) && p == s.calls[t].cons + s.calls[t].i
    requires slot == s.At(p).(sequence := p + 1 + 2 * s.cfg.depth)
    ensures Inv(s.Put(p, slot).Go(t, EvictNext(s, s.calls[t])))
  {
    var s' := s.Put(p, slot).Go(t, EvictNext(s, s.calls[t]));
    assert CallFacts(s, s.calls[t]);
    ReserveFindsPublished(s, t);
    WriteFrame(s, s', p, slot, p);
    ReservedFacts(s, s', s.calls[t], p, slot);
    WriteInv(s, s', t, p, slot, EvictNext(s, s.calls[t]));
  }

  lemma ReservedInv(s: State, t: nat, weak: bool)
    requires Inv(s) && t in s.calls && ReserveSucceeds(s, s.calls[t])
    ensures Inv(StepCall(s, t, weak))
  {
    var p := s.calls[t].cons + s.calls[t].i;
    var slot := s.At(p).(sequence := p + 1 + 2 * s.cfg.depth);
    ReserveStep(s, t, weak, p, slot);
    ReservedWrite(s, t, p, slot);
  }

  lemma RestoreInv(s: State, t: nat, weak: bool)
    requires Inv(s) && t in s.calls && s.calls[t].EvictRestore?
    ensures Inv(StepCall(s, t, weak))
  {
    var call := s.calls[t];
    var p := call.cons + call.i;
    var s' := StepCall(s, t, weak);
    assert CallFacts(s, call);
    HolderAlone(s, t, p);
    var slot := s.At(p).(sequence := p + 1);
    WriteFrame(s, s', p, slot, p);
    WriteInv(s, s', t, p, slot, EvictNext(s, call));
  }

  /** The steps of the scan that write nothing. Under the reserve the slot priority is
      that of the content: a HIGH message found there is put back, anything else is
      about to be replaced. */
  lemma ScanInv(s: State, t: nat, weak: bool)
    requires Inv(s) && t in s.calls && s.calls[t].Evicting()
    requires !ReserveSucceeds(s, s.calls[t]) && !s.calls[t].EvictRestore?
    ensures Inv(StepCall(s, t, weak))
  {
    assert CallFacts(s, s.calls[t]);
    ScanFacts(s, s.calls[t]);
    MoveInv(s, StepCall(s, t, weak), t, EvictNext(s, s.calls[t]));
  }

  lemma ScanFacts(s: State, call: Call)
    requires Positions(s) && call.Evicting() && CallFacts(s, call) && !ReserveSucceeds(s, call) && !call.EvictRestore?
    ensures CallFacts(s, EvictNext(s, call))
    ensures Holds(EvictNext(s, call)) == None || Holds(EvictNext(s, call)) == Holds(call)
  {}

  lemma EvictInv(s: State, t: nat, weak: bool)
    requires Inv(s) && t in s.calls && s.calls[t].Evicting()
    ensures Inv(StepCall(s, t, weak))
  {
    var call := s.calls[t];
    if ReserveSucceeds(s, call) {
      ReservedInv(s, t, weak);
    } else if call.EvictRestore? {
      RestoreInv(s, t, weak);
    } else {
      ScanInv(s, t, weak);
    }
  }

  // ---------------------------------------------------------------- consuming

  /** The consumer moves on without touching the ring. */
  lemma ConsumerMoveInv(s: State, s': State)
    requires Inv(s) && Positions(s') && History(s')
    requires s'.cfg == s.cfg && s'.ring == s.ring && s'.calls == s.calls && s'.content == s.content
    requires s'.producerPos == s.producerPos && s'.Cursor() == s.Cursor() && s.consumerPos <= s'.consumerPos
    requires s'.Consuming() == s.Consuming()
    ensures Inv(s')
  {
    forall q | s'.producerPos <= q < s'.Cursor() + s'.cfg.depth ensures FreeAt(s', q) {
      assert FreeAt(s, q);
    }
    forall q | s'.Cursor() <= q < s'.producerPos ensures ActiveAt(s', q) {
      assert ActiveAt(s, q);
    }
    forall u | u in s'.calls ensures CallFacts(s', s'.calls[u]) {
      assert CallFacts(s, s.calls[u]);
      if Holds(s.calls[u]).Some? { HeldIsActive(s, u); }
      FactsStable(s, s', s.calls[u]);
    }
  }

  /** Writing the cursor's slot leaves the other window positions alone. */
  lemma CursorFrame(s: State, s': State, p: nat, slot: Slot)
    requires Positions(s) && p == s.Cursor() && s'.cfg == s.cfg
    requires s'.ring == s.ring[Index(p, s.cfg.depth) := slot]
    ensures s'.WellFormed() && s'.At(p) == slot
    ensures forall q :: p < q < p + s.cfg.depth ==> s'.At(q) == s.At(q)
  {
    forall q | p < q < p + s.cfg.depth ensures s'.At(q) == s.At(q) {
      PutFrame(s, p, slot, q);
    }
  }

  /** A consumer step on the cursor's slot, which no call holds. */
  lemma CursorCalls(s: State, s': State)
    requires Positions(s) && Positions(s') && AllCalls(s) && s'.calls == s.calls
    requires s'.cfg == s.cfg && s'.content == s.content
    requires s'.producerPos == s.producerPos && s'.consumerPos == s.consumerPos
    requires s.Cursor() <= s'.Cursor() <= s.Cursor() + 1
    requires forall q :: s.Cursor() < q < s.Cursor() + s.cfg.depth ==> s'.At(q) == s.At(q)
    requires s.At(s.Cursor()).sequence !in {s.Cursor(), s.Cursor() + 1 + 2 * s.cfg.depth}
    ensures AllCalls(s')
  {
    forall u | u in s'.calls ensures CallFacts(s', s'.calls[u]) {
      assert CallFacts(s, s.calls[u]);
      if Holds(s.calls[u]).Some? { HeldIsActive(s, u); }
      FactsStable(s, s', s.calls[u]);
    }
  }

  /** The consumer takes the slot at its cursor. */
  lemma TakeInv(s: State)
    requires Inv(s) && s.consumer.Claim? && s.consumer.n < s.cfg.batch
    requires s.At(s.consumer.pos).sequence == s.consumer.pos + 1
    ensures Inv(StepConsumer(s))
  {
    var p, depth := s.consumer.pos, s.cfg.depth;
    var s' := StepConsumer(s);
    assert p == s.producerPos ==> FreeAt(s, p);
    assert ActiveAt(s, p);
    CursorFrame(s, s', p, s.At(p).(sequence := p + 1 + depth));
    forall q | s'.producerPos <= q < s'.Cursor() + depth ensures FreeAt(s', q) {
      assert FreeAt(s, q);
    }
    forall q | s'.Cursor() <= q < s'.producerPos ensures ActiveAt(s', q) {
      assert ActiveAt(s, q);
    }
    CursorCalls(s, s');
  }

  lemma ReleaseWindow(s: State, s': State)
    requires Positions(s) && Window(s) && s.consumer.Release? && s' == StepConsumer(s)
    ensures Positions(s') && Window(s')
    ensures forall q :: s.Cursor() < q < s.Cursor() + s.cfg.depth ==> s'.At(q) == s.At(q)
  {
    var p, depth := s.consumer.pos, s.cfg.depth;
    CursorFrame(s, s', p, s.At(p).(sequence := p + depth));
    NextLap(p, depth);
    forall q | s'.producerPos <= q < s'.Cursor() + depth ensures FreeAt(s', q) {
      if q < p + depth { assert FreeAt(s, q); }
    }
    forall q | s'.Cursor() <= q < s'.producerPos ensures ActiveAt(s', q) {
      assert ActiveAt(s, q);
    }
  }

  /** The consumer hands the slot back to the producers and advances. */
  lemma ReleaseInv(s: State)
    requires Inv(s) && s.consumer.Release?
    ensures Inv(StepConsumer(s))
  {
    assert ActiveAt(s, s.consumer.pos);
    ReleaseWindow(s, StepConsumer(s));
    CursorCalls(s, StepConsumer(s));
  }

  lemma ReadInv(s: State)
    requires Inv(s) && (s.consumer.ReadHeader? || s.consumer.ReadPayload?)
    ensures Inv(StepConsumer(s))
  {
    assert ActiveAt(s, s.Cursor());
    ConsumerMoveInv(s, StepConsumer(s));
  }

  lemma BatchInv(s: State)
    requires Inv(s) && !s.Consuming()
    requires s.consumer.Claim? ==> s.consumer.n >= s.cfg.batch || s.At(s.consumer.pos).sequence != s.consumer.pos + 1
    ensures Inv(StepConsumer(s))
  {
    ConsumerMoveInv(s, StepConsumer(s));
  }

  lemma ConsumerInv(s: State)
    requires Inv(s)
    ensures Inv(StepConsumer(s))
  {
    if s.consumer.Release? {
      ReleaseInv(s);
    } else if s.Consuming() {
      ReadInv(s);
    } else if s.consumer.Claim? && s.consumer.n < s.cfg.batch && s.At(s.consumer.pos).sequence == s.consumer.pos + 1 {
      TakeInv(s);
    } else {
      BatchInv(s);
    }
  }

  // ---------------------------------------------------------------- every run

  lemma CallInv(s: State, t: nat, weak: bool)
    requires Inv(s) && Enabled(s, Advance(t, weak))
    ensures Inv(StepCall(s, t, weak))
  {
    var call := s.calls[t];
    if call.Own? { OwnInv(s, t, weak); }
    else if call.Admitting() { AdmissionInv(s, t, weak); }
    else if call.Claiming() { ClaimInv(s, t, weak); }
    else if call.Evicting() { EvictInv(s, t, weak); }
    else { CountInv(s, t, weak); }
  }

  lemma StepInv(s: State, a: Action)
    requires Inv(s) && Enabled(s, a)
    ensures Inv(Step(s, a))
  {
    match a {
      case Start(t, req) => MoveInv(s, Step(s, a), t, CheckId(req));
      case Advance(t, weak) => CallInv(s, t, weak);
      case Consume => ConsumerInv(s);
    }
  }

  lemma {:induction false} RunInv(s: State, schedule: seq<Action>)
    requires Inv(s)
    ensures Inv(Run(s, schedule))
    decreases |schedule|
  {
    if schedule != [] {
      var a := schedule[0];
      if Enabled(s, a) {
        StepInv(s, a);
        RunInv(Step(s, a), schedule[1..]);
      } else {
        RunInv(s, schedule[1..]);
      }
    }
  }

  // ---------------------------------------------------------------- main results

  datatype Actor = Publisher(t: nat) | TheConsumer

  /** `a` is between taking and giving back slot `k`, so it may read or write the
      envelope there. */
  ghost predicate Accesses(s: State, a: Actor, k: nat)
    requires s.WellFormed()
  {
    match a
    case Publisher(t) =>
      t in s.calls && Holds(s.calls[t]).Some? && Index(Holds(s.calls[t]).value, s.cfg.depth) == k
    case TheConsumer => s.Consuming() && Index(s.Cursor(), s.cfg.depth) == k
  }

  /** In every interleaving, at most one actor accesses an envelope. */
  lemma EnvelopeHasOneActor(cfg: Config, schedule: seq<Action>, a: Actor, b: Actor, k: nat)
    requires cfg.Valid()
    requires Accesses(Run(Init(cfg), schedule), a, k) && Accesses(Run(Init(cfg), schedule), b, k)
    ensures a == b
  {
    InitInv(cfg);
    RunInv(Init(cfg), schedule);
    OneActor(Run(Init(cfg), schedule), a, b, k);
  }

  lemma OneActor(s: State, a: Actor, b: Actor, k: nat)
    requires Inv(s) && Accesses(s, a, k) && Accesses(s, b, k)
    ensures a == b
  {
    var p := AccessedPosition(s, a, k);
    var q := AccessedPosition(s, b, k);
    if p < q { DistinctSlots(p, q, s.cfg.depth); }
    if q < p { DistinctSlots(q, p, s.cfg.depth); }
    match (a, b) {
      case (Publisher(t), Publisher(u)) =>
      case (Publisher(t), TheConsumer) => HolderAlone(s, t, p);
      case (TheConsumer, Publisher(u)) => HolderAlone(s, u, p);
      case (TheConsumer, TheConsumer) =>
    }
  }

  lemma AccessedPosition(s: State, a: Actor, k: nat) returns (p: nat)
    requires Inv(s) && Accesses(s, a, k)
    ensures s.Cursor() <= p < s.Cursor() + s.cfg.depth && Index(p, s.cfg.depth) == k
    ensures match a case Publisher(t) => Holds(s.calls[t]) == Some(p) case TheConsumer => p == s.Cursor()
  {
    match a {
      case Publisher(t) =>
        p := Holds(s.calls[t]).value;
        HeldIsActive(s, t);
      case TheConsumer =>
        p := s.Cursor();
    }
  }

  /** A claiming exchange that can succeed, on whichever path it was reached, is about
      a slot that is free for the position and that no actor accesses. */
  lemma ClaimIsSound(cfg: Config, schedule: seq<Action>, t: nat)
    requires cfg.Valid()
    requires var s := Run(Init(cfg), schedule);
             t in s.calls && s.calls[t].ClaimExchange? && s.calls[t].pos == s.producerPos
    ensures var s := Run(Init(cfg), schedule);
            && s.At(s.producerPos).sequence == s.producerPos
            && forall a :: !Accesses(s, a, Index(s.producerPos, cfg.depth))
  {
    InitInv(cfg);
    RunInv(Init(cfg), schedule);
    ClaimFindsNobody(Run(Init(cfg), schedule), t);
  }

  lemma ClaimFindsNobody(s: State, t: nat)
    requires Inv(s) && t in s.calls && s.calls[t].ClaimExchange? && s.calls[t].pos == s.producerPos
    ensures s.At(s.producerPos).sequence == s.producerPos
    ensures forall a :: !Accesses(s, a, Index(s.producerPos, s.cfg.depth))
  {
    ClaimFindsFreeSlot(s, t);
    forall a ensures !Accesses(s, a, Index(s.producerPos, s.cfg.depth)) {
      if Accesses(s, a, Index(s.producerPos, s.cfg.depth)) {
        NobodyAt(s, s.producerPos, a);
      }
    }
  }

  /** Whoever accesses the slot of a window position works on that very position. */
  lemma NobodyAt(s: State, p: nat, a: Actor)
    requires Inv(s) && s.Cursor() <= p < s.Cursor() + s.cfg.depth && Accesses(s, a, Index(p, s.cfg.depth))
    ensures match a case Publisher(t) => Holds(s.calls[t]) == Some(p) case TheConsumer => p == s.Cursor()
    ensures p < s.producerPos
  {
    var q := AccessedPosition(s, a, Index(p, s.cfg.depth));
    if p < q { DistinctSlots(p, q, s.cfg.depth); }
    if q < p { DistinctSlots(q, p, s.cfg.depth); }
    if a.Publisher? { HeldIsActive(s, a.t); }
  }

  /** A reserving exchange that succeeds takes a slot published for the scanned
      position, holding what was last published there, with no actor inside. */
  lemma ReserveIsSound(cfg: Config, schedule: seq<Action>, t: nat)
    requires cfg.Valid()
    requires var s := Run(Init(cfg), schedule); t in s.calls && ReserveSucceeds(s, s.calls[t])
    ensures var s := Run(Init(cfg), schedule);
            var p := s.calls[t].cons + s.calls[t].i;
            && s.Cursor() <= p < s.producerPos == |s.content|
            && s.content[p] == Some(s.At(p).envelope)
            && forall a :: !Accesses(s, a, Index(p, cfg.depth))
  {
    InitInv(cfg);
    RunInv(Init(cfg), schedule);
    ReserveFindsNobody(Run(Init(cfg), schedule), t);
  }

  lemma ReserveFindsNobody(s: State, t: nat)
    requires Inv(s) && t in s.calls && ReserveSucceeds(s, s.calls[t])
    ensures var p := s.calls[t].cons + s.calls[t].i;
            && s.Cursor() <= p < s.producerPos == |s.content|
            && s.content[p] == Some(s.At(p).envelope)
            && forall a :: !Accesses(s, a, Index(p, s.cfg.depth))
  {
    ReserveFindsPublished(s, t);
    var p := s.calls[t].cons + s.calls[t].i;
    forall a ensures !Accesses(s, a, Index(p, s.cfg.depth)) {
      if Accesses(s, a, Index(p, s.cfg.depth)) {
        NobodyAt(s, p, a);
      }
    }
  }

  /** The consumer delivers positions 0, 1, 2, ... each once, each with the content
      last published there. */
  lemma DeliveryInOrder(cfg: Config, schedule: seq<Action>)
    requires cfg.Valid()
    ensures var s := Run(Init(cfg), schedule);
            && s.Cursor() <= |s.delivered| <= s.Cursor() + 1
            && |s.delivered| <= |s.content|
            && forall i :: 0 <= i < |s.delivered| ==> s.content[i] == Some(s.delivered[i])
  {
    InitInv(cfg);
    RunInv(Init(cfg), schedule);
  }

  ghost predicate HoldsHigh(s: State, p: nat) {
    p < |s.content| && s.content[p].Some? && s.content[p].value.header.priority == High
  }

  lemma OwnKeepsHigh(s: State, t: nat, p: nat)
    requires Inv(s) && t in s.calls && s.calls[t].Own? && s.calls[t].pos < |s.content| && HoldsHigh(s, p)
    ensures var s' := StepCall(s, t, false); HoldsHigh(s', p) && s'.content[p] == s.content[p]
  {
    assert CallFacts(s, s.calls[t]) && ActiveAt(s, s.calls[t].pos);
  }

  /** Nothing but filling an owned slot changes a content that is already there. */
  lemma OthersKeepContent(s: State, t: nat, weak: bool, p: nat)
    requires s.WellFormed() && t in s.calls && !s.calls[t].Own? && p < |s.content|
    ensures var s' := StepCall(s, t, weak); p < |s'.content| && s'.content[p] == s.content[p]
  {}

  lemma StepKeepsHigh(s: State, a: Action, p: nat)
    requires Inv(s) && Enabled(s, a) && HoldsHigh(s, p)
    ensures HoldsHigh(Step(s, a), p) && Step(s, a).content[p] == s.content[p]
  {
    match a {
      case Start(_, _) =>
      case Advance(t, weak) =>
        if s.calls[t].Own? { OwnKeepsHigh(s, t, p); } else { OthersKeepContent(s, t, weak, p); }
      case Consume =>
    }
  }

  lemma {:induction false} RunKeepsHigh(s: State, schedule: seq<Action>, p: nat)
    requires Inv(s) && HoldsHigh(s, p)
    ensures HoldsHigh(Run(s, schedule), p) && Run(s, schedule).content[p] == s.content[p]
    decreases |schedule|
  {
    if schedule != [] {
      var a := schedule[0];
      if Enabled(s, a) {
        StepInv(s, a);
        StepKeepsHigh(s, a, p);
        RunKeepsHigh(Step(s, a), schedule[1..], p);
      } else {
        RunKeepsHigh(s, schedule[1..], p);
      }
    }
  }

  /** A published HIGH message is never overwritten, whatever happens later. */
  lemma HighIsNeverOverwritten(cfg: Config, past: seq<Action>, future: seq<Action>, p: nat)
    requires cfg.Valid() && HoldsHigh(Run(Init(cfg), past), p)
    ensures var s := Run(Init(cfg), past);
            var s' := Run(s, future);
            HoldsHigh(s', p) && s'.content[p] == s.content[p]
  {
    InitInv(cfg);
    RunInv(Init(cfg), past);
    RunKeepsHigh(Run(Init(cfg), past), future, p);
  }

  /** Only LOW and MEDIUM messages are ever evicted. */
  lemma OnlyLowerPrioritiesEvicted(cfg: Config, schedule: seq<Action>, e: Envelope)
    requires cfg.Valid() && e in Run(Init(cfg), schedule).evicted
    ensures e.header.priority != High
  {
    InitInv(cfg);
    RunInv(Init(cfg), schedule);
  }

  /** cached <= stored <= cursor <= claimed <= cursor + depth, always. */
  lemma PositionsOrdered(cfg: Config, schedule: seq<Action>)
    requires cfg.Valid()
    ensures var s := Run(Init(cfg), schedule);
            s.cachedPos <= s.consumerPos <= s.Cursor() <= s.producerPos <= s.Cursor() + cfg.depth
  {
    InitInv(cfg);
    RunInv(Init(cfg), schedule);
  }
}
