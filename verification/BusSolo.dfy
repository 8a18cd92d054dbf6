/** A publishing call that no other actor interrupts, in the step model: operation by operation it does what the object
    used by one thread does with the whole call. */
module BusSolo {
  import opened Options
  import opened SlotIndex
  import opened Bus
  import A = AsyncBus

  // ---------------------------------------------------------------- one call alone

  function Solo(s: State, call: Call): State { s.(calls := map[0 := call]) }

  function Gone(s: State): State { s.(calls := map[]) }

  function Steps(n: nat): seq<Action> { seq(n, _ => Advance(0, false)) }

  /** Some operations of the call lead from `s` to `t`. */
  ghost predicate Leads(s: State, t: State) { s.WellFormed() && exists n: nat :: After(s, n) == t }

  ghost function After(s: State, n: nat): State
    requires s.WellFormed()
  {
    Run(s, Steps(n))
  }

  lemma {:induction false} RunJoin(s: State, a: seq<Action>, b: seq<Action>)
    requires s.WellFormed()
    ensures Run(s, a + b) == Run(Run(s, a), b)
    decreases |a|
  {
    if a == [] {
      assert a + b == b;
    } else {
      assert (a + b)[1..] == a[1..] + b;
      if Enabled(s, a[0]) {
        StepKeepsShape(s, a[0]);
        RunJoin(Step(s, a[0]), a[1..], b);
      } else {
        RunJoin(s, a[1..], b);
      }
    }
  }

  lemma LeadsJoin(s: State, t: State, u: State)
    requires Leads(s, t) && Leads(t, u)
    ensures Leads(s, u)
  {
    var m: nat :| After(s, m) == t;
    var n: nat :| After(t, n) == u;
    RunJoin(s, Steps(m), Steps(n));
    assert Steps(m) + Steps(n) == Steps(m + n);
    assert After(s, m + n) == u;
  }

  lemma LeadsOn(a: State, b: State, c: State, d: State)
    requires Leads(a, b) && Leads(b, c) && Leads(c, d)
    ensures Leads(a, d)
  {
    LeadsJoin(a, b, c);
    LeadsJoin(a, c, d);
  }

  lemma LeadsOne(s: State, call: Call, t: State)
    requires s.WellFormed() && (call.Own? ==> call.pos < |s.content|) && StepCall(Solo(s, call), 0, false) == t
    ensures Leads(Solo(s, call), t)
  {
    var a := Advance(0, false);
    assert Steps(1) == [a] && [a][1..] == [];
    StepKeepsShape(Solo(s, call), a);
    assert Run(t, []) == t;
    assert After(Solo(s, call), 1) == t;
  }

  lemma Replaced(a: Call, b: Call)
    ensures map[0 := a][0 := b] == map[0 := b] && map[0 := a] - {0} == map[]
  {
  }

  lemma Admits(s: State, call: Call)
    requires s.WellFormed() && call.Admitting()
    ensures Leads(Solo(s, call), match AdmissionNext(s, call)
                                    case None => Gone(AdmissionEffect(s, call))
                                    case Some(next) => Solo(AdmissionEffect(s, call), next))
  {
    Replaced(call, if AdmissionNext(s, call).Some? then AdmissionNext(s, call).value else call);
    LeadsOne(s, call, StepCall(Solo(s, call), 0, false));
  }

  lemma Claims(s: State, call: Call)
    requires s.WellFormed() && call.Claiming()
    ensures Leads(Solo(s, call), Solo(ClaimEffect(s, call, false), ClaimNext(s, call, false)))
  {
    Replaced(call, ClaimNext(s, call, false));
    LeadsOne(s, call, StepCall(Solo(s, call), 0, false));
  }

  lemma OwnsSame(s: State, call: Call)
    requires s.WellFormed() && call.Own? && call.pos < |s.content|
    ensures OwnEffect(Solo(s, call), call) == Solo(OwnEffect(s, call), call)
    ensures OwnNext(Solo(s, call), call) == OwnNext(s, call)
  {
  }

  lemma Owns(s: State, call: Call)
    requires s.WellFormed() && call.Own? && call.pos < |s.content|
    ensures Leads(Solo(s, call), Solo(OwnEffect(s, call), OwnNext(s, call)))
  {
    Replaced(call, OwnNext(s, call));
    OwnsSame(s, call);
    LeadsOne(s, call, StepCall(Solo(s, call), 0, false));
  }

  lemma EvictsSame(s: State, call: Call)
    requires s.WellFormed() && call.Evicting()
    ensures EvictEffect(Solo(s, call), call) == Solo(EvictEffect(s, call), call)
    ensures EvictNext(Solo(s, call), call) == EvictNext(s, call)
  {
  }

  lemma StepsEvicting(s: State, call: Call)
    requires s.WellFormed() && call.Evicting()
    ensures var solo := Solo(s, call); StepCall(solo, 0, false) == EvictEffect(solo, call).Go(0, EvictNext(solo, call))
  {
  }

  lemma Evicts(s: State, call: Call)
    requires s.WellFormed() && call.Evicting()
    ensures Leads(Solo(s, call), Solo(EvictEffect(s, call), EvictNext(s, call)))
  {
    Replaced(call, EvictNext(s, call));
    EvictsSame(s, call);
    StepsEvicting(s, call);
    LeadsOne(s, call, StepCall(Solo(s, call), 0, false));
  }

  lemma CountsOff(s: State, call: Call)
    requires s.WellFormed() && call.Counting()
    ensures Leads(Solo(s, call), match CountNext(call)
                                    case None => Gone(CountEffect(s, call))
                                    case Some(next) => Solo(CountEffect(s, call), next))
  {
    Replaced(call, CountPublished(call.req));
    LeadsOne(s, call, StepCall(Solo(s, call), 0, false));
  }

  // ---------------------------------------------------------------- filling a slot

  /** The slot of a position filled and published. */
  function Published(s: State, req: Request, pos: nat, evicting: bool): State
    requires s.WellFormed() && pos < |s.content|
  {
    var e := EnvelopeOf(req, s.nextId);
    s.(nextId := s.nextId + 1, ring := s.ring[Index(pos, s.cfg.depth) := Slot(pos + 1, req.priority, e)],
       content := s.content[pos := Some(e)], submitted := s.submitted + [e],
       evicted := if evicting && s.content[pos].Some? then s.evicted + [s.content[pos].value] else s.evicted)
  }

  function Written(s: State, pos: nat, slot: Slot): State
    requires s.WellFormed()
  {
    s.(ring := s.ring[Index(pos, s.cfg.depth) := slot])
  }

  lemma WrittenAgain(s: State, pos: nat, a: Slot, b: Slot)
    requires s.WellFormed()
    ensures Written(s, pos, a).At(pos) == a && Written(Written(s, pos, a), pos, b) == Written(s, pos, b)
  {
  }

  /** The operation that writes one field of an owned slot. */
  lemma WritesField(s: State, req: Request, pos: nat, evicting: bool, stage: Stage)
    requires s.WellFormed() && pos < |s.content| && (stage.PutHeader? || stage.PutPayload? || stage.PutPriority?)
    ensures var next := match stage
                        case PutHeader(id) => PutPayload(id)
                        case PutPayload(id) => PutPriority(id)
                        case _ => PutSequence(stage.id);
            Leads(Solo(s, Own(req, pos, evicting, stage)),
                  Solo(Written(s, pos, Fill(s.At(pos), req, pos, stage)), Own(req, pos, evicting, next)))
  {
    Owns(s, Own(req, pos, evicting, stage));
  }

  lemma WritesFields(s: State, req: Request, pos: nat, evicting: bool, id: nat)
    requires s.WellFormed() && pos < |s.content|
    ensures Leads(Solo(s, Own(req, pos, evicting, PutHeader(id))),
                  Solo(Written(s, pos, Slot(s.At(pos).sequence, req.priority, EnvelopeOf(req, id))),
                       Own(req, pos, evicting, PutSequence(id))))
  {
    var a := Fill(s.At(pos), req, pos, PutHeader(id));
    var b := Fill(a, req, pos, PutPayload(id));
    var c := Fill(b, req, pos, PutPriority(id));
    var s1, s2, s3 := Written(s, pos, a), Written(s, pos, b), Written(s, pos, c);
    WrittenAgain(s, pos, a, b);
    WrittenAgain(s, pos, b, c);
    WritesField(s, req, pos, evicting, PutHeader(id));
    WritesField(s1, req, pos, evicting, PutPayload(id));
    WritesField(s2, req, pos, evicting, PutPriority(id));
    LeadsOn(Solo(s, Own(req, pos, evicting, PutHeader(id))), Solo(s1, Own(req, pos, evicting, PutPayload(id))),
            Solo(s2, Own(req, pos, evicting, PutPriority(id))), Solo(s3, Own(req, pos, evicting, PutSequence(id))));
  }

  /** The operation that publishes it. */
  lemma Publishes(s: State, req: Request, pos: nat, evicting: bool, id: nat, sequence: nat)
    requires s.WellFormed() && pos < |s.content| && s.nextId == id
    ensures var s' := s.(nextId := id + 1);
            Leads(Solo(Written(s', pos, Slot(sequence, req.priority, EnvelopeOf(req, id))),
                       Own(req, pos, evicting, PutSequence(id))),
                  Solo(Published(s, req, pos, evicting), if evicting then CountEvicted(req) else CountPublished(req)))
  {
    var e := EnvelopeOf(req, id);
    var s' := s.(nextId := id + 1);
    var v := Written(s', pos, Slot(sequence, req.priority, e));
    WrittenAgain(s', pos, Slot(sequence, req.priority, e), Slot(pos + 1, req.priority, e));
    Owns(v, Own(req, pos, evicting, PutSequence(id)));
  }

  lemma TakesId(s: State, req: Request, pos: nat, evicting: bool)
    requires s.WellFormed() && pos < |s.content|
    ensures Leads(Solo(s, Own(req, pos, evicting, TakeId)),
                  Solo(s.(nextId := s.nextId + 1), Own(req, pos, evicting, PutHeader(s.nextId))))
  {
    Owns(s, Own(req, pos, evicting, TakeId));
  }

  lemma FillsFields(s: State, req: Request, pos: nat, evicting: bool)
    requires s.WellFormed() && pos < |s.content|
    ensures var s' := s.(nextId := s.nextId + 1);
            Leads(Solo(s, Own(req, pos, evicting, TakeId)),
                  Solo(Written(s', pos, Slot(s.At(pos).sequence, req.priority, EnvelopeOf(req, s.nextId))),
                       Own(req, pos, evicting, PutSequence(s.nextId))))
  {
    var s' := s.(nextId := s.nextId + 1);
    TakesId(s, req, pos, evicting);
    WritesFields(s', req, pos, evicting, s.nextId);
    LeadsJoin(Solo(s, Own(req, pos, evicting, TakeId)), Solo(s', Own(req, pos, evicting, PutHeader(s.nextId))),
              Solo(Written(s', pos, Slot(s.At(pos).sequence, req.priority, EnvelopeOf(req, s.nextId))),
                   Own(req, pos, evicting, PutSequence(s.nextId))));
  }

  /** From the identifier to the sequence number: the slot is filled and published. */
  lemma Fills(s: State, req: Request, pos: nat, evicting: bool)
    requires s.WellFormed() && pos < |s.content|
    ensures Leads(Solo(s, Own(req, pos, evicting, TakeId)),
                  Solo(Published(s, req, pos, evicting), if evicting then CountEvicted(req) else CountPublished(req)))
  {
    FillsFields(s, req, pos, evicting);
    Publishes(s, req, pos, evicting, s.nextId, s.At(pos).sequence);
    LeadsJoin(Solo(s, Own(req, pos, evicting, TakeId)),
              Solo(Written(s.(nextId := s.nextId + 1), pos,
                           Slot(s.At(pos).sequence, req.priority, EnvelopeOf(req, s.nextId))),
                   Own(req, pos, evicting, PutSequence(s.nextId))),
              Solo(Published(s, req, pos, evicting), if evicting then CountEvicted(req) else CountPublished(req)));
  }

  // ---------------------------------------------------------------- the bus at rest

  /** No call in flight, the consumer between batches, and the ring holds the queue. */
  ghost predicate AtRest(s: State, queue: seq<Envelope>) {
    && s.cfg.Valid() && s.calls == map[] && s.consumer == Idle
    && A.Holds(s.ring, s.cfg.depth, s.consumerPos, queue)
    && s.producerPos == s.consumerPos + |queue| == |s.content| && s.cachedPos <= s.consumerPos
    && forall i :: 0 <= i < |queue| ==> s.content[s.consumerPos + i] == Some(queue[i])
  }

  /** What one thread makes of a whole call: the message, if it is published, */
  function Message(s: State, req: Request): Envelope {
    Envelope(Header(s.nextId, req.timestamp, req.sender, req.topic, req.priority), req.payload)
  }

  /** and whether its priority leaves room for it. */
  predicate HasRoom(s: State, pending: nat, p: Priority) {
    match p
    case Low => 100 * (pending + 1) <= 60 * s.cfg.depth
    case Medium => 100 * (pending + 1) <= 80 * s.cfg.depth
    case High => 100 * (pending + 1) <= 99 * s.cfg.depth
  }

  // ---------------------------------------------------------------- admission

  /** The cached position is refreshed if it shows too many messages. */
  function Refreshed(s: State, req: Request): State {
    if DepthAtLeast(s.producerPos, s.cachedPos, Threshold(s.cfg.depth, req.priority))
    then s.(cachedPos := s.consumerPos, stats := s.stats.(rechecks := s.stats.rechecks + 1))
    else s
  }

  /** Where admission leads. */
  function Admitted(s: State, req: Request): Call {
    if !DepthAtLeast(s.producerPos, s.consumerPos, Threshold(s.cfg.depth, req.priority))
    then ClaimLoad(req, s.producerPos)
    else if req.priority == High then EvictLoadProd(req) else CountRejected(req)
  }

  lemma Rechecks(s: State, req: Request)
    requires s.WellFormed() && DepthAtLeast(s.producerPos, s.cachedPos, Threshold(s.cfg.depth, req.priority))
    ensures Leads(Solo(s, LoadReal(req, s.producerPos)), Solo(Refreshed(s, req), Admitted(s, req)))
  {
    var prod, cons := s.producerPos, s.consumerPos;
    var s1 := s.(cachedPos := cons);
    Admits(s, LoadReal(req, prod));
    Admits(s, StoreCached(req, prod, cons));
    Admits(s1, CountRecheck(req, prod, cons));
    LeadsOn(Solo(s, LoadReal(req, prod)), Solo(s, StoreCached(req, prod, cons)),
            Solo(s1, CountRecheck(req, prod, cons)), Solo(Refreshed(s, req), Admitted(s, req)));
  }

  lemma PassesAdmission(s: State, req: Request)
    requires s.WellFormed() && s.cachedPos <= s.consumerPos <= s.producerPos && s.nextId < MSG_ID_WRAP_THRESHOLD
    ensures Leads(Solo(s, CheckId(req)), Solo(Refreshed(s, req), Admitted(s, req)))
  {
    var prod := s.producerPos;
    Admits(s, CheckId(req));
    Admits(s, LoadProd(req));
    LeadsJoin(Solo(s, CheckId(req)), Solo(s, LoadProd(req)), Solo(s, LoadCached(req, prod)));
    Admits(s, LoadCached(req, prod));
    if DepthAtLeast(prod, s.cachedPos, Threshold(s.cfg.depth, req.priority)) {
      Rechecks(s, req);
      LeadsOn(Solo(s, CheckId(req)), Solo(s, LoadCached(req, prod)), Solo(s, LoadReal(req, prod)),
              Solo(Refreshed(s, req), Admitted(s, req)));
    } else {
      LeadsJoin(Solo(s, CheckId(req)), Solo(s, LoadCached(req, prod)), Solo(Refreshed(s, req), Admitted(s, req)));
    }
  }

  lemma RoomIsBelow(s: State, req: Request)
    requires s.consumerPos <= s.producerPos
    ensures DepthAtLeast(s.producerPos, s.consumerPos, Threshold(s.cfg.depth, req.priority))
       <==> !HasRoom(s, s.producerPos - s.consumerPos, req.priority)
  {
  }

  // ---------------------------------------------------------------- the next position

  function Claimed(s: State): State { s.(producerPos := s.producerPos + 1, content := s.content + [None]) }

  lemma ClaimsNext(s: State, queue: seq<Envelope>, req: Request)
    requires AtRest(s, queue) && |queue| < s.cfg.depth
    ensures Leads(Solo(s, ClaimLoad(req, s.producerPos)), Solo(Claimed(s), Own(req, s.producerPos, false, TakeId)))
  {
    var p := s.producerPos;
    A.NextSlot(s.ring, s.cfg.depth, s.consumerPos, queue);
    Claims(s, ClaimLoad(req, p));
    Claims(s, ClaimSequence(req, p, p));
    Claims(s, ClaimExchange(req, p, p));
    LeadsOn(Solo(s, ClaimLoad(req, p)), Solo(s, ClaimSequence(req, p, p)), Solo(s, ClaimExchange(req, p, p)),
            Solo(Claimed(s), Own(req, p, false, TakeId)));
  }

  /** The bus with the message appended and counted. */
  function Appended(s: State, req: Request): State
    requires s.WellFormed() && s.producerPos == |s.content|
  {
    var t := Published(Claimed(s), req, s.producerPos, false);
    Gone(t.(stats := t.stats.(published := t.stats.published + 1)))
  }

  lemma Appends(s: State, queue: seq<Envelope>, req: Request)
    requires AtRest(s, queue) && |queue| < s.cfg.depth
    ensures Leads(Solo(s, ClaimLoad(req, s.producerPos)), Appended(s, req))
  {
    var t := Published(Claimed(s), req, s.producerPos, false);
    ClaimsNext(s, queue, req);
    Fills(Claimed(s), req, s.producerPos, false);
    CountsOff(t, CountPublished(req));
    LeadsOn(Solo(s, ClaimLoad(req, s.producerPos)), Solo(Claimed(s), Own(req, s.producerPos, false, TakeId)),
            Solo(t, CountPublished(req)), Appended(s, req));
  }

  lemma AppendedRests(s: State, queue: seq<Envelope>, req: Request)
    requires AtRest(s, queue) && |queue| < s.cfg.depth
    ensures AtRest(Appended(s, req), queue + [Message(s, req)])
  {
    A.HoldsOneMore(s.ring, s.cfg.depth, s.consumerPos, queue, Message(s, req));
  }

  // ---------------------------------------------------------------- in the place of another

  lemma SeesPending(s: State, queue: seq<Envelope>, req: Request, i: nat)
    requires AtRest(s, queue) && i < |queue|
    ensures var prod, cons := s.producerPos, s.consumerPos;
            Leads(Solo(s, EvictScan(req, prod, cons, i)), Solo(s, EvictPeek(req, prod, cons, i)))
  {
    A.PendingSlot(s.ring, s.cfg.depth, s.consumerPos, queue, i);
    Evicts(s, EvictScan(req, s.producerPos, s.consumerPos, i));
  }

  /** A HIGH message is passed over. */
  function Peeked(s: State, queue: seq<Envelope>, req: Request, i: nat): Call
    requires i < |queue|
  {
    if queue[i].header.priority == High then EvictScan(req, s.producerPos, s.consumerPos, i + 1)
    else EvictReserve(req, s.producerPos, s.consumerPos, i)
  }

  lemma Peeks(s: State, queue: seq<Envelope>, req: Request, i: nat)
    requires AtRest(s, queue) && i < |queue|
    ensures Leads(Solo(s, EvictPeek(req, s.producerPos, s.consumerPos, i)), Solo(s, Peeked(s, queue, req, i)))
  {
    A.PendingSlot(s.ring, s.cfg.depth, s.consumerPos, queue, i);
    Evicts(s, EvictPeek(req, s.producerPos, s.consumerPos, i));
  }

  lemma Looks(s: State, queue: seq<Envelope>, req: Request, i: nat)
    requires AtRest(s, queue) && i < |queue|
    ensures Leads(Solo(s, EvictScan(req, s.producerPos, s.consumerPos, i)), Solo(s, Peeked(s, queue, req, i)))
  {
    SeesPending(s, queue, req, i);
    Peeks(s, queue, req, i);
    LeadsJoin(Solo(s, EvictScan(req, s.producerPos, s.consumerPos, i)),
              Solo(s, EvictPeek(req, s.producerPos, s.consumerPos, i)), Solo(s, Peeked(s, queue, req, i)));
  }

  /** What the scan comes to. */
  function Found(s: State, queue: seq<Envelope>, req: Request, i: nat): State {
    var victim := A.Victim(queue, i);
    Solo(s, if victim.Some? then EvictReserve(req, s.producerPos, s.consumerPos, victim.value) else CountRejected(req))
  }

  lemma ScanEnds(s: State, queue: seq<Envelope>, req: Request)
    requires AtRest(s, queue)
    ensures Leads(Solo(s, EvictScan(req, s.producerPos, s.consumerPos, |queue|)), Found(s, queue, req, |queue|))
  {
    Evicts(s, EvictScan(req, s.producerPos, s.consumerPos, |queue|));
  }

  lemma ScanStops(s: State, queue: seq<Envelope>, req: Request, i: nat)
    requires AtRest(s, queue) && i < |queue| && queue[i].header.priority != High
    ensures Leads(Solo(s, EvictScan(req, s.producerPos, s.consumerPos, i)), Found(s, queue, req, i))
  {
    Looks(s, queue, req, i);
  }

  lemma ScanGoesOn(s: State, queue: seq<Envelope>, req: Request, i: nat)
    requires AtRest(s, queue) && i < |queue| && queue[i].header.priority == High
    requires Leads(Solo(s, EvictScan(req, s.producerPos, s.consumerPos, i + 1)), Found(s, queue, req, i + 1))
    ensures Leads(Solo(s, EvictScan(req, s.producerPos, s.consumerPos, i)), Found(s, queue, req, i))
  {
    Looks(s, queue, req, i);
    LeadsJoin(Solo(s, EvictScan(req, s.producerPos, s.consumerPos, i)),
              Solo(s, EvictScan(req, s.producerPos, s.consumerPos, i + 1)), Found(s, queue, req, i + 1));
  }

  /** The scan stops at the victim, or at the end of the queue. */
  lemma {:induction false} Scans(s: State, queue: seq<Envelope>, req: Request, i: nat)
    requires AtRest(s, queue) && i <= |queue|
    ensures Leads(Solo(s, EvictScan(req, s.producerPos, s.consumerPos, i)), Found(s, queue, req, i))
    decreases |queue| - i
  {
    if i == |queue| {
      ScanEnds(s, queue, req);
    } else if queue[i].header.priority != High {
      ScanStops(s, queue, req, i);
    } else {
      Scans(s, queue, req, i + 1);
      ScanGoesOn(s, queue, req, i);
    }
  }

  lemma BeginsScan(s: State, queue: seq<Envelope>, req: Request)
    requires AtRest(s, queue) && queue != []
    ensures Leads(Solo(s, EvictLoadProd(req)), Found(s, queue, req, 1))
  {
    var prod, cons := s.producerPos, s.consumerPos;
    Evicts(s, EvictLoadProd(req));
    Evicts(s, EvictLoadCons(req, prod));
    Scans(s, queue, req, 1);
    LeadsOn(Solo(s, EvictLoadProd(req)), Solo(s, EvictLoadCons(req, prod)), Solo(s, EvictScan(req, prod, cons, 1)),
            Found(s, queue, req, 1));
  }

  /** The slot under the reserve. */
  function Reserved(s: State, p: nat): State
    requires s.WellFormed()
  {
    Written(s, p, s.At(p).(sequence := p + 1 + 2 * s.cfg.depth))
  }

  lemma Marks(s: State, queue: seq<Envelope>, req: Request, v: nat)
    requires AtRest(s, queue) && v < |queue|
    ensures var prod, cons := s.producerPos, s.consumerPos;
            Leads(Solo(s, EvictReserve(req, prod, cons, v)),
                  Solo(Reserved(s, cons + v), EvictVerify(req, prod, cons, v)))
  {
    A.PendingSlot(s.ring, s.cfg.depth, s.consumerPos, queue, v);
    Evicts(s, EvictReserve(req, s.producerPos, s.consumerPos, v));
  }

  lemma Confirms(s: State, queue: seq<Envelope>, req: Request, v: nat)
    requires AtRest(s, queue) && v < |queue| && queue[v].header.priority != High
    ensures var prod, cons := s.producerPos, s.consumerPos;
            Leads(Solo(Reserved(s, cons + v), EvictVerify(req, prod, cons, v)),
                  Solo(Reserved(s, cons + v), Own(req, cons + v, true, TakeId)))
  {
    A.PendingSlot(s.ring, s.cfg.depth, s.consumerPos, queue, v);
    Evicts(Reserved(s, s.consumerPos + v), EvictVerify(req, s.producerPos, s.consumerPos, v));
  }

  lemma Reserves(s: State, queue: seq<Envelope>, req: Request, v: nat)
    requires AtRest(s, queue) && v < |queue| && queue[v].header.priority != High
    ensures var prod, cons := s.producerPos, s.consumerPos;
            Leads(Solo(s, EvictReserve(req, prod, cons, v)),
                  Solo(Reserved(s, cons + v), Own(req, cons + v, true, TakeId)))
  {
    var prod, cons := s.producerPos, s.consumerPos;
    Marks(s, queue, req, v);
    Confirms(s, queue, req, v);
    LeadsJoin(Solo(s, EvictReserve(req, prod, cons, v)), Solo(Reserved(s, cons + v), EvictVerify(req, prod, cons, v)),
              Solo(Reserved(s, cons + v), Own(req, cons + v, true, TakeId)));
  }

  /** The bus with the message in the place of another, both counted. */
  function Exchanged(s: State, req: Request, p: nat): State
    requires s.WellFormed() && p < |s.content|
  {
    var t := Published(s, req, p, true);
    Gone(t.(stats := t.stats.(dropped := t.stats.dropped + 1, published := t.stats.published + 1)))
  }

  lemma CountsBoth(s: State, req: Request)
    requires s.WellFormed()
    ensures Leads(Solo(s, CountEvicted(req)),
                  Gone(s.(stats := s.stats.(dropped := s.stats.dropped + 1, published := s.stats.published + 1))))
  {
    var s1 := s.(stats := s.stats.(dropped := s.stats.dropped + 1));
    CountsOff(s, CountEvicted(req));
    CountsOff(s1, CountPublished(req));
    LeadsJoin(Solo(s, CountEvicted(req)), Solo(s1, CountPublished(req)),
              Gone(s.(stats := s.stats.(dropped := s.stats.dropped + 1, published := s.stats.published + 1))));
  }

  lemma PublishedOver(s: State, req: Request, p: nat)
    requires s.WellFormed() && p < |s.content|
    ensures Published(Reserved(s, p), req, p, true) == Published(s, req, p, true)
  {
  }

  lemma Exchanges(s: State, queue: seq<Envelope>, req: Request, v: nat)
    requires AtRest(s, queue) && v < |queue| && queue[v].header.priority != High
    ensures Leads(Solo(s, EvictReserve(req, s.producerPos, s.consumerPos, v)), Exchanged(s, req, s.consumerPos + v))
  {
    var p := s.consumerPos + v;
    Reserves(s, queue, req, v);
    Fills(Reserved(s, p), req, p, true);
    PublishedOver(s, req, p);
    CountsBoth(Published(s, req, p, true), req);
    LeadsOn(Solo(s, EvictReserve(req, s.producerPos, s.consumerPos, v)),
            Solo(Reserved(s, p), Own(req, p, true, TakeId)), Solo(Published(s, req, p, true), CountEvicted(req)),
            Exchanged(s, req, p));
  }

  lemma ExchangedRests(s: State, queue: seq<Envelope>, req: Request, v: nat)
    requires AtRest(s, queue) && v < |queue|
    ensures AtRest(Exchanged(s, req, s.consumerPos + v), queue[v := Message(s, req)])
  {
    A.HoldsReplaced(s.ring, s.cfg.depth, s.consumerPos, queue, v, Message(s, req));
  }

  // ---------------------------------------------------------------- whole calls

  /** The bus with the message refused and counted. */
  function Dropped(s: State): State {
    Gone(s.(stats := s.stats.(dropped := s.stats.dropped + 1), rejected := s.rejected + 1))
  }

  /** What one thread makes of a call on a bus that holds `queue`. */
  function Outcome(s: State, queue: seq<Envelope>, req: Request): State
    requires s.WellFormed() && s.consumerPos + |queue| == s.producerPos == |s.content|
  {
    var t, victim := Refreshed(s, req), A.Victim(queue, 1);
    if s.nextId >= 0xFFFF_FFFF_FFFF_FFFF - 10000 then s
    else if HasRoom(s, |queue|, req.priority) then Appended(t, req)
    else if req.priority == High && victim.Some? then Exchanged(t, req, s.consumerPos + victim.value)
    else Dropped(t)
  }

  function QueueAfter(s: State, queue: seq<Envelope>, req: Request): seq<Envelope> {
    var victim := A.Victim(queue, 1);
    if s.nextId >= 0xFFFF_FFFF_FFFF_FFFF - 10000 then queue
    else if HasRoom(s, |queue|, req.priority) then queue + [Message(s, req)]
    else if req.priority == High && victim.Some? then queue[victim.value := Message(s, req)]
    else queue
  }

  lemma RefreshedRests(s: State, queue: seq<Envelope>, req: Request)
    requires AtRest(s, queue)
    ensures AtRest(Refreshed(s, req), queue) && Message(Refreshed(s, req), req) == Message(s, req)
  {
  }

  lemma FullEnough(s: State, pending: nat, p: Priority)
    requires s.cfg.Valid()
    ensures HasRoom(s, pending, p) ==> pending < s.cfg.depth
    ensures !HasRoom(s, pending, High) ==> pending > 0
  {
  }

  lemma FindsNone(s: State, queue: seq<Envelope>, req: Request)
    requires AtRest(s, queue) && queue != [] && A.Victim(queue, 1).None?
    ensures Leads(Solo(s, EvictLoadProd(req)), Dropped(s))
  {
    BeginsScan(s, queue, req);
    CountsOff(s, CountRejected(req));
    LeadsJoin(Solo(s, EvictLoadProd(req)), Solo(s, CountRejected(req)), Dropped(s));
  }

  lemma FindsVictim(s: State, queue: seq<Envelope>, req: Request, v: nat)
    requires AtRest(s, queue) && queue != [] && A.Victim(queue, 1) == Some(v)
    ensures Leads(Solo(s, EvictLoadProd(req)), Exchanged(s, req, s.consumerPos + v))
  {
    BeginsScan(s, queue, req);
    Exchanges(s, queue, req, v);
    LeadsJoin(Solo(s, EvictLoadProd(req)), Solo(s, EvictReserve(req, s.producerPos, s.consumerPos, v)),
              Exchanged(s, req, s.consumerPos + v));
  }

  lemma RoomRests(s: State, queue: seq<Envelope>, req: Request)
    requires AtRest(s, queue) && s.nextId < MSG_ID_WRAP_THRESHOLD && HasRoom(s, |queue|, req.priority)
    ensures AtRest(Outcome(s, queue, req), QueueAfter(s, queue, req))
  {
    RefreshedRests(s, queue, req);
    FullEnough(s, |queue|, req.priority);
    AppendedRests(Refreshed(s, req), queue, req);
  }

  lemma FullRests(s: State, queue: seq<Envelope>, req: Request)
    requires AtRest(s, queue) && s.nextId < MSG_ID_WRAP_THRESHOLD && !HasRoom(s, |queue|, req.priority)
    ensures AtRest(Outcome(s, queue, req), QueueAfter(s, queue, req))
  {
    RefreshedRests(s, queue, req);
    if req.priority == High && A.Victim(queue, 1).Some? {
      ExchangedRests(Refreshed(s, req), queue, req, A.Victim(queue, 1).value);
    }
  }

  lemma OutcomeRests(s: State, queue: seq<Envelope>, req: Request)
    requires AtRest(s, queue)
    ensures AtRest(Outcome(s, queue, req), QueueAfter(s, queue, req))
  {
    if s.nextId < MSG_ID_WRAP_THRESHOLD {
      if HasRoom(s, |queue|, req.priority) {
        RoomRests(s, queue, req);
      } else {
        FullRests(s, queue, req);
      }
    }
  }

  lemma HighEnds(s: State, queue: seq<Envelope>, req: Request)
    requires AtRest(s, queue) && queue != []
    ensures var victim := A.Victim(queue, 1);
            Leads(Solo(s, EvictLoadProd(req)),
                  if victim.Some? then Exchanged(s, req, s.consumerPos + victim.value) else Dropped(s))
  {
    if A.Victim(queue, 1).Some? {
      FindsVictim(s, queue, req, A.Victim(queue, 1).value);
    } else {
      FindsNone(s, queue, req);
    }
  }

  lemma RoomEnds(s: State, queue: seq<Envelope>, req: Request)
    requires AtRest(s, queue) && s.nextId < MSG_ID_WRAP_THRESHOLD && HasRoom(s, |queue|, req.priority)
    ensures Leads(Solo(Refreshed(s, req), ClaimLoad(req, s.producerPos)), Outcome(s, queue, req))
  {
    RefreshedRests(s, queue, req);
    FullEnough(s, |queue|, req.priority);
    Appends(Refreshed(s, req), queue, req);
  }

  lemma RefusedEnds(s: State, queue: seq<Envelope>, req: Request)
    requires AtRest(s, queue) && s.nextId < MSG_ID_WRAP_THRESHOLD
    requires !HasRoom(s, |queue|, req.priority) && req.priority != High
    ensures Leads(Solo(Refreshed(s, req), CountRejected(req)), Outcome(s, queue, req))
  {
    CountsOff(Refreshed(s, req), CountRejected(req));
  }

  lemma FullEnds(s: State, queue: seq<Envelope>, req: Request)
    requires AtRest(s, queue) && s.nextId < MSG_ID_WRAP_THRESHOLD
    requires !HasRoom(s, |queue|, req.priority) && req.priority == High
    ensures Leads(Solo(Refreshed(s, req), EvictLoadProd(req)), Outcome(s, queue, req))
  {
    RefreshedRests(s, queue, req);
    FullEnough(s, |queue|, req.priority);
    HighEnds(Refreshed(s, req), queue, req);
  }

  lemma AdmittedEnds(s: State, queue: seq<Envelope>, req: Request)
    requires AtRest(s, queue) && s.nextId < MSG_ID_WRAP_THRESHOLD
    ensures Leads(Solo(Refreshed(s, req), Admitted(s, req)), Outcome(s, queue, req))
  {
    RoomIsBelow(s, req);
    if HasRoom(s, |queue|, req.priority) {
      RoomEnds(s, queue, req);
    } else if req.priority != High {
      RefusedEnds(s, queue, req);
    } else {
      FullEnds(s, queue, req);
    }
  }

  lemma OutOfIds(s: State, req: Request)
    requires s.WellFormed() && s.calls == map[] && s.nextId >= MSG_ID_WRAP_THRESHOLD
    ensures Leads(Solo(s, CheckId(req)), s)
  {
    Admits(s, CheckId(req));
  }

  /** A call that nobody interrupts, on a bus at rest, leads to what one thread makes of it: append below the threshold
      of its priority, replace the victim for HIGH above it, refuse otherwise; and the bus is at rest again. */
  lemma SoloCallIsSequential(s: State, queue: seq<Envelope>, req: Request)
    requires AtRest(s, queue) && s.cfg.maxCalls > 0
    ensures Enabled(s, Start(0, req)) && Leads(Step(s, Start(0, req)), Outcome(s, queue, req))
    ensures AtRest(Outcome(s, queue, req), QueueAfter(s, queue, req))
  {
    OutcomeRests(s, queue, req);
    assert Step(s, Start(0, req)) == Solo(s, CheckId(req));
    if s.nextId >= MSG_ID_WRAP_THRESHOLD {
      OutOfIds(s, req);
    } else {
      PassesAdmission(s, req);
      AdmittedEnds(s, queue, req);
      LeadsJoin(Solo(s, CheckId(req)), Solo(Refreshed(s, req), Admitted(s, req)), Outcome(s, queue, req));
    }
  }
}
