/** Step model of the lock-free multi-producer single-consumer bus.

    Every transition is one atomic load, store, exchange or counter update (or one
    write of a non-atomic envelope field) of one publishing call or of the consumer.
    Transitions of different actors interleave freely; memory is sequentially
    consistent and positions are unbounded naturals. */
module Bus {
  import opened Options
  import opened SlotIndex

  datatype Priority = Low | Medium | High

  datatype Request = Request(payload: int, sender: nat, timestamp: nat, topic: nat, priority: Priority)

  datatype Header = Header(msgId: nat, timestamp: nat, sender: nat, topic: nat, priority: Priority)

  datatype Envelope = Envelope(header: Header, payload: int)

  datatype Slot = Slot(sequence: nat, priority: Priority, envelope: Envelope)

  /** `maxCalls` bounds the publishing calls that may be in flight at once. */
  datatype Config = Config(depth: nat, batch: nat, maxCalls: nat) {
    predicate Valid() { depth >= 2 }
  }

  const MSG_ID_WRAP_THRESHOLD: nat := 0xFFFF_FFFF_FFFF_FFFF - 10000

  function Threshold(depth: nat, p: Priority): nat {
    match p
    case High => depth * 99 / 100
    case Medium => depth * 80 / 100
    case Low => depth * 60 / 100
  }

  /** Unsigned subtraction of positions: a cursor ahead of the position wraps to a
      value above every threshold, so "at least `limit`" holds there too. */
  predicate DepthAtLeast(pos: nat, cursor: nat, limit: nat) {
    pos < cursor || pos - cursor >= limit
  }

  function HeaderOf(req: Request, id: nat): Header {
    Header(id, req.timestamp, req.sender, req.topic, req.priority)
  }

  function EnvelopeOf(req: Request, id: nat): Envelope {
    Envelope(HeaderOf(req, id), req.payload)
  }

  // ---------------------------------------------------------------- actors

  /** What a call that owns a slot (claimed or reserved) does next. */
  datatype Stage = TakeId | PutHeader(id: nat) | PutPayload(id: nat) | PutPriority(id: nat) | PutSequence(id: nat)

  /** A publishing call, by the operation it performs next. `prod` is the producer
      position it loaded for admission; `pos` the ring position it works on. */
  datatype Call =
    | CheckId(req: Request)
    | LoadProd(req: Request)
    | LoadCached(req: Request, prod: nat)
    | LoadReal(req: Request, prod: nat)
    | StoreCached(req: Request, prod: nat, cons: nat)
    | CountRecheck(req: Request, prod: nat, cons: nat)
    | CountRejected(req: Request)
    | ClaimLoad(req: Request, prod: nat)
    | ClaimSequence(req: Request, prod: nat, pos: nat)
    | ClaimFull(req: Request, prod: nat, pos: nat)
    | ClaimExchange(req: Request, prod: nat, pos: nat)
    | Own(req: Request, pos: nat, evicting: bool, stage: Stage)
    | CountEvicted(req: Request)
    | CountPublished(req: Request)
    | EvictLoadProd(req: Request)
    | EvictLoadCons(req: Request, prod: nat)
    | EvictScan(req: Request, prod: nat, cons: nat, i: nat)
    | EvictPeek(req: Request, prod: nat, cons: nat, i: nat)
    | EvictReserve(req: Request, prod: nat, cons: nat, i: nat)
    | EvictVerify(req: Request, prod: nat, cons: nat, i: nat)
    | EvictRestore(req: Request, prod: nat, cons: nat, i: nat)
  {
    predicate Admitting() {
      CheckId? || LoadProd? || LoadCached? || LoadReal? || StoreCached? || CountRecheck?
    }
    predicate Claiming() {
      ClaimLoad? || ClaimSequence? || ClaimFull? || ClaimExchange?
    }
    predicate Counting() {
      CountRejected? || CountEvicted? || CountPublished?
    }
    predicate Evicting() {
      EvictLoadProd? || EvictLoadCons? || EvictScan? || EvictPeek? || EvictReserve? || EvictVerify? || EvictRestore?
    }
  }

  /** The consumer, by the operation it performs next; `n` messages of the current
      batch are done. */
  datatype Consumer =
    | Idle
    | LoadPos
    | Claim(pos: nat, n: nat)
    | ReadHeader(pos: nat, n: nat)
    | ReadPayload(pos: nat, n: nat, header: Header)
    | Release(pos: nat, n: nat)
    | StorePos(pos: nat, n: nat)
    | CountProcessed(n: nat)

  datatype Stats = Stats(published: nat, dropped: nat, processed: nat, rechecks: nat)

  /** The bus, the calls in flight, and the history the properties speak about:
      `content[p]` is what was last published at position `p`, `submitted` every
      message published so far, `evicted` every message overwritten in place,
      `delivered` every message handed to the dispatcher, `rejected` the calls that
      returned false because the queue was full. No transition reads the history. */
  datatype State = State(
    cfg: Config,
    ring: seq<Slot>,
    producerPos: nat,
    consumerPos: nat,
    cachedPos: nat,
    nextId: nat,
    stats: Stats,
    consumer: Consumer,
    calls: map<nat, Call>,
    content: seq<Option<Envelope>>,
    submitted: seq<Envelope>,
    evicted: seq<Envelope>,
    delivered: seq<Envelope>,
    rejected: nat)
  {
    ghost predicate WellFormed() { cfg.Valid() && |ring| == cfg.depth }

    function At(p: nat): Slot
      requires WellFormed()
    {
      ring[Index(p, cfg.depth)]
    }

    function Put(p: nat, slot: Slot): State
      requires WellFormed()
    {
      this.(ring := ring[Index(p, cfg.depth) := slot])
    }

    function Go(t: nat, call: Call): State {
      this.(calls := calls[t := call])
    }

    /** Call `t` returns or goes on. */
    function End(t: nat, next: Option<Call>): State {
      if next.Some? then Go(t, next.value) else this.(calls := calls - {t})
    }

    /** The position the consumer works on; `consumerPos` is stored only when a
        batch ends, so it may lag behind. */
    function Cursor(): nat {
      match consumer
      case Idle => consumerPos
      case LoadPos => consumerPos
      case Claim(pos, _) => pos
      case ReadHeader(pos, _) => pos
      case ReadPayload(pos, _, _) => pos
      case Release(pos, _) => pos
      case StorePos(pos, _) => pos
      case CountProcessed(_) => consumerPos
    }

    predicate Consuming() {
      consumer.ReadHeader? || consumer.ReadPayload? || consumer.Release?
    }
  }

  const BLANK := Slot(0, Medium, Envelope(Header(0, 0, 0, 0, Medium), 0))

  function Init(cfg: Config): State {
    State(cfg, seq(cfg.depth, i requires 0 <= i => BLANK.(sequence := i)), 0, 0, 0, 1,
          Stats(0, 0, 0, 0), Idle, map[], [], [], [], [], 0)
  }

  // ---------------------------------------------------------------- publishing
  //
  // Each operation of a call is given by what it does to shared memory (`...Effect`)
  // and by what the call does next (`...Next`; `None` when it returns).

  /** Admission: message-id check, cached estimate, re-check against the stored
      consumer position. */
  function AdmissionEffect(s: State, call: Call): State {
    match call
    case StoreCached(_, _, cons) => s.(cachedPos := cons)
    case CountRecheck(_, _, _) => s.(stats := s.stats.(rechecks := s.stats.rechecks + 1))
    case _ => s
  }

  function AdmissionNext(s: State, call: Call): Option<Call>
    requires call.Admitting()
  {
    var limit := Threshold(s.cfg.depth, call.req.priority);
    match call
    case CheckId(req) => if s.nextId >= MSG_ID_WRAP_THRESHOLD then None else Some(LoadProd(req))
    case LoadProd(req) => Some(LoadCached(req, s.producerPos))
    case LoadCached(req, prod) =>
      Some(if DepthAtLeast(prod, s.cachedPos, limit) then LoadReal(req, prod) else ClaimLoad(req, prod))
    case LoadReal(req, prod) => Some(StoreCached(req, prod, s.consumerPos))
    case StoreCached(req, prod, cons) => Some(CountRecheck(req, prod, cons))
    case CountRecheck(req, prod, cons) =>
      Some(if !DepthAtLeast(prod, cons, limit) then ClaimLoad(req, prod)
           else if req.priority == High then EvictLoadProd(req)
           else CountRejected(req))
  }

  /** The claiming loop. A sequence mismatch on a queue that is not full does not
      restart the loop: it goes straight to the exchange in the loop condition.
      `weak` lets that exchange fail spuriously. */
  predicate ClaimSucceeds(s: State, call: Call, weak: bool) {
    call.ClaimExchange? && s.producerPos == call.pos && !weak
  }

  function ClaimEffect(s: State, call: Call, weak: bool): State {
    if ClaimSucceeds(s, call, weak) then s.(producerPos := s.producerPos + 1, content := s.content + [None]) else s
  }

  function ClaimNext(s: State, call: Call, weak: bool): Call
    requires s.WellFormed() && call.Claiming()
  {
    match call
    case ClaimLoad(req, prod) => ClaimSequence(req, prod, s.producerPos)
    case ClaimSequence(req, prod, pos) =>
      if s.At(pos).sequence != pos then ClaimFull(req, prod, pos) else ClaimExchange(req, prod, pos)
    case ClaimFull(req, prod, pos) =>
      if DepthAtLeast(pos, s.consumerPos, s.cfg.depth) then CountRejected(req) else ClaimExchange(req, prod, pos)
    case ClaimExchange(req, prod, pos) =>
      if ClaimSucceeds(s, call, weak) then Own(req, pos, false, TakeId) else ClaimLoad(req, prod)
  }

  /** Filling an owned slot and publishing it. */
  function Fill(slot: Slot, req: Request, pos: nat, stage: Stage): Slot {
    match stage
    case TakeId => slot
    case PutHeader(id) => slot.(envelope := slot.envelope.(header := HeaderOf(req, id)))
    case PutPayload(_) => slot.(envelope := slot.envelope.(payload := req.payload))
    case PutPriority(_) => slot.(priority := req.priority)
    case PutSequence(_) => slot.(sequence := pos + 1)
  }

  function OwnEffect(s: State, call: Call): State
    requires s.WellFormed() && call.Own? && call.pos < |s.content|
  {
    var Own(req, pos, evicting, stage) := call;
    match stage
    case TakeId => s.(nextId := s.nextId + 1)
    case PutSequence(id) =>
      s.Put(pos, Fill(s.At(pos), req, pos, stage))
      .(content := s.content[pos := Some(EnvelopeOf(req, id))],
        submitted := s.submitted + [EnvelopeOf(req, id)],
        evicted := if evicting && s.content[pos].Some? then s.evicted + [s.content[pos].value] else s.evicted)
    case _ => s.Put(pos, Fill(s.At(pos), req, pos, stage))
  }

  function OwnNext(s: State, call: Call): Call
    requires call.Own?
  {
    var Own(req, pos, evicting, stage) := call;
    match stage
    case TakeId => Own(req, pos, evicting, PutHeader(s.nextId))
    case PutHeader(id) => Own(req, pos, evicting, PutPayload(id))
    case PutPayload(id) => Own(req, pos, evicting, PutPriority(id))
    case PutPriority(id) => Own(req, pos, evicting, PutSequence(id))
    case PutSequence(_) => if evicting then CountEvicted(req) else CountPublished(req)
  }

  /** The counters a call updates last. */
  function CountEffect(s: State, call: Call): State
    requires call.Counting()
  {
    match call
    case CountRejected(_) => s.(stats := s.stats.(dropped := s.stats.dropped + 1), rejected := s.rejected + 1)
    case CountEvicted(_) => s.(stats := s.stats.(dropped := s.stats.dropped + 1))
    case CountPublished(_) => s.(stats := s.stats.(published := s.stats.published + 1))
  }

  function CountNext(call: Call): Option<Call>
    requires call.Counting()
  {
    if call.CountEvicted? then Some(CountPublished(call.req)) else None
  }

  /** The eviction scan: peek, reserve by exchange, re-verify under the reserve. */
  predicate ReserveSucceeds(s: State, call: Call)
    requires s.WellFormed()
  {
    call.EvictReserve? && s.At(call.cons + call.i).sequence == call.cons + call.i + 1
  }

  function EvictEffect(s: State, call: Call): State
    requires s.WellFormed()
  {
    if ReserveSucceeds(s, call) then
      var p := call.cons + call.i;
      s.Put(p, s.At(p).(sequence := p + 1 + 2 * s.cfg.depth))
    else if call.EvictRestore? then
      var p := call.cons + call.i;
      s.Put(p, s.At(p).(sequence := p + 1))
    else s
  }

  function EvictNext(s: State, call: Call): Call
    requires s.WellFormed() && call.Evicting()
  {
    match call
    case EvictLoadProd(req) => EvictLoadCons(req, s.producerPos)
    case EvictLoadCons(req, prod) => EvictScan(req, prod, s.consumerPos, 1)
    case EvictScan(req, prod, cons, i) =>
      if i >= s.cfg.depth || cons + i == prod then CountRejected(req)
      else if s.At(cons + i).sequence != cons + i + 1 then EvictScan(req, prod, cons, i + 1)
      else EvictPeek(req, prod, cons, i)
    case EvictPeek(req, prod, cons, i) =>
      if s.At(cons + i).priority == High then EvictScan(req, prod, cons, i + 1) else EvictReserve(req, prod, cons, i)
    case EvictReserve(req, prod, cons, i) =>
      if ReserveSucceeds(s, call) then EvictVerify(req, prod, cons, i) else EvictScan(req, prod, cons, i + 1)
    case EvictVerify(req, prod, cons, i) =>
      if s.At(cons + i).priority == High then EvictRestore(req, prod, cons, i) else Own(req, cons + i, true, TakeId)
    case EvictRestore(req, prod, cons, i) => EvictScan(req, prod, cons, i + 1)
  }

  function StepCall(s: State, t: nat, weak: bool): State
    requires s.WellFormed() && t in s.calls
    requires s.calls[t].Own? ==> s.calls[t].pos < |s.content|
  {
    var call := s.calls[t];
    if call.Own? then OwnEffect(s, call).Go(t, OwnNext(s, call))
    else if call.Admitting() then AdmissionEffect(s, call).End(t, AdmissionNext(s, call))
    else if call.Claiming() then ClaimEffect(s, call, weak).Go(t, ClaimNext(s, call, weak))
    else if call.Evicting() then EvictEffect(s, call).Go(t, EvictNext(s, call))
    else CountEffect(s, call).End(t, CountNext(call))
  }

  // ---------------------------------------------------------------- consuming

  function EndBatch(pos: nat, n: nat): Consumer {
    if n > 0 then StorePos(pos, n) else Idle
  }

  /** One step of the consumer; from `Idle` it starts a batch. */
  function StepConsumer(s: State): State
    requires s.WellFormed()
  {
    match s.consumer
    case Idle => s.(consumer := LoadPos)
    case LoadPos => s.(consumer := Claim(s.consumerPos, 0))
    case Claim(pos, n) =>
      if n >= s.cfg.batch || s.At(pos).sequence != pos + 1 then s.(consumer := EndBatch(pos, n))
      else s.Put(pos, s.At(pos).(sequence := pos + 1 + s.cfg.depth)).(consumer := ReadHeader(pos, n))
    case ReadHeader(pos, n) => s.(consumer := ReadPayload(pos, n, s.At(pos).envelope.header))
    case ReadPayload(pos, n, header) =>
      s.(consumer := Release(pos, n), delivered := s.delivered + [Envelope(header, s.At(pos).envelope.payload)])
    case Release(pos, n) =>
      s.Put(pos, s.At(pos).(sequence := pos + s.cfg.depth)).(consumer := Claim(pos + 1, n + 1))
    case StorePos(pos, n) => s.(consumerPos := pos, consumer := CountProcessed(n))
    case CountProcessed(n) => s.(consumer := Idle, stats := s.stats.(processed := s.stats.processed + n))
  }

  // ---------------------------------------------------------------- runs

  /** One scheduling choice: a call starts, a call in flight takes a step, or the
      consumer takes a step. */
  datatype Action = Start(t: nat, req: Request) | Advance(t: nat, weak: bool) | Consume

  predicate Enabled(s: State, a: Action) {
    match a
    case Start(t, _) => t !in s.calls && |s.calls| < s.cfg.maxCalls
    case Advance(t, _) => t in s.calls && (s.calls[t].Own? ==> s.calls[t].pos < |s.content|)
    case Consume => true
  }

  function Step(s: State, a: Action): State
    requires s.WellFormed() && Enabled(s, a)
  {
    match a
    case Start(t, req) => s.Go(t, CheckId(req))
    case Advance(t, weak) => StepCall(s, t, weak)
    case Consume => StepConsumer(s)
  }

  lemma StepKeepsShape(s: State, a: Action)
    requires s.WellFormed() && Enabled(s, a)
    ensures Step(s, a).WellFormed() && Step(s, a).cfg == s.cfg
  {}

  /** The state after any schedule; a choice that is not enabled does nothing. */
  function Run(s: State, schedule: seq<Action>): (r: State)
    requires s.WellFormed()
    ensures r.WellFormed() && r.cfg == s.cfg
    decreases |schedule|
  {
    if schedule == [] then s else
      var a := schedule[0];
      if Enabled(s, a) then
        StepKeepsShape(s, a);
        Run(Step(s, a), schedule[1..])
      else Run(s, schedule[1..])
  }

  /** The number of messages pending as the bus reports it. */
  function QueueDepth(s: State): int { s.producerPos - s.consumerPos }
}
