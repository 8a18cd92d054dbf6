/** A batch that nobody interrupts, in the step model: the consumer delivers the oldest messages in order, as many as
    the batch size and the queue allow, and leaves the bus at rest. */
module BusBatch {
  import opened SlotIndex
  import opened Bus
  import opened BusSolo
  import A = AsyncBus

  function Turns(n: nat): seq<Action> { seq(n, _ => Consume) }

  ghost function Consumed(s: State, n: nat): State
    requires s.WellFormed()
  {
    Run(s, Turns(n))
  }

  /** Some steps of the consumer lead from `s` to `t`. */
  ghost predicate Comes(s: State, t: State) { s.WellFormed() && exists n: nat :: Consumed(s, n) == t }

  lemma ComesJoin(s: State, t: State, u: State)
    requires Comes(s, t) && Comes(t, u)
    ensures Comes(s, u)
  {
    var m: nat :| Consumed(s, m) == t;
    var n: nat :| Consumed(t, n) == u;
    RunJoin(s, Turns(m), Turns(n));
    assert Turns(m) + Turns(n) == Turns(m + n);
    assert Consumed(s, m + n) == u;
  }

  lemma ComesOne(s: State)
    requires s.WellFormed()
    ensures Comes(s, StepConsumer(s))
  {
    assert Turns(1) == [Consume] && [Consume][1..] == [];
    StepKeepsShape(s, Consume);
    assert Run(StepConsumer(s), []) == StepConsumer(s);
    assert Consumed(s, 1) == StepConsumer(s);
  }

  // ---------------------------------------------------------------- one message

  /** In the middle of a batch: `n` messages are delivered, and the ring holds the rest. */
  ghost predicate InBatch(s: State, n: nat, queue: seq<Envelope>) {
    && s.cfg.Valid() && s.consumer == Claim(s.consumerPos + n, n)
    && A.Holds(s.ring, s.cfg.depth, s.consumerPos + n, queue)
  }

  /** The first message delivered and its slot freed for the next lap. */
  function Taken(s: State, e: Envelope, p: nat, n: nat): State
    requires s.WellFormed()
  {
    s.(ring := s.ring[Index(p, s.cfg.depth) := Slot(p + s.cfg.depth, e.header.priority, e)],
       delivered := s.delivered + [e], consumer := Claim(p + 1, n + 1))
  }

  /** The slot under the consumer. */
  function Marked(s: State, e: Envelope, p: nat): State
    requires s.WellFormed()
  {
    s.(ring := s.ring[Index(p, s.cfg.depth) := Slot(p + 1 + s.cfg.depth, e.header.priority, e)])
  }

  lemma Marks(s: State, n: nat, queue: seq<Envelope>)
    requires InBatch(s, n, queue) && queue != [] && n < s.cfg.batch
    ensures var p := s.consumerPos + n; Comes(s, Marked(s, queue[0], p).(consumer := ReadHeader(p, n)))
  {
    A.PendingSlot(s.ring, s.cfg.depth, s.consumerPos + n, queue, 0);
    ComesOne(s);
  }

  lemma Reads(s: State, e: Envelope, p: nat, n: nat)
    requires s.WellFormed()
    ensures var m := Marked(s, e, p);
            Comes(m.(consumer := ReadHeader(p, n)), m.(consumer := Release(p, n), delivered := s.delivered + [e]))
  {
    var m := Marked(s, e, p);
    ComesOne(m.(consumer := ReadHeader(p, n)));
    ComesOne(m.(consumer := ReadPayload(p, n, e.header)));
    ComesJoin(m.(consumer := ReadHeader(p, n)), m.(consumer := ReadPayload(p, n, e.header)),
              m.(consumer := Release(p, n), delivered := s.delivered + [e]));
  }

  lemma Frees(s: State, e: Envelope, p: nat, n: nat)
    requires s.WellFormed()
    ensures Comes(Marked(s, e, p).(consumer := Release(p, n), delivered := s.delivered + [e]), Taken(s, e, p, n))
  {
    ComesOne(Marked(s, e, p).(consumer := Release(p, n), delivered := s.delivered + [e]));
  }

  lemma TakesFirst(s: State, n: nat, queue: seq<Envelope>)
    requires InBatch(s, n, queue) && queue != [] && n < s.cfg.batch
    ensures Comes(s, Taken(s, queue[0], s.consumerPos + n, n))
  {
    var p, e := s.consumerPos + n, queue[0];
    var m := Marked(s, e, p);
    Marks(s, n, queue);
    Reads(s, e, p, n);
    ComesJoin(s, m.(consumer := ReadHeader(p, n)), m.(consumer := Release(p, n), delivered := s.delivered + [e]));
    Frees(s, e, p, n);
    ComesJoin(s, m.(consumer := Release(p, n), delivered := s.delivered + [e]), Taken(s, e, p, n));
  }

  lemma TakenGoesOn(s: State, n: nat, queue: seq<Envelope>)
    requires InBatch(s, n, queue) && queue != []
    ensures InBatch(Taken(s, queue[0], s.consumerPos + n, n), n + 1, queue[1..])
  {
    var p, e := s.consumerPos + n, queue[0];
    A.HoldsOneLess(s.ring, s.cfg.depth, p, queue, Slot(p + s.cfg.depth, e.header.priority, e));
  }

  // ---------------------------------------------------------------- the batch

  /** How many messages a batch still takes. */
  function Share(s: State, n: nat, queue: seq<Envelope>): (k: nat)
    ensures k <= |queue|
  {
    if s.cfg.batch <= n then 0 else if s.cfg.batch - n < |queue| then s.cfg.batch - n else |queue|
  }

  lemma NoSteps(s: State)
    requires s.WellFormed()
    ensures Comes(s, s)
  {
    assert Turns(0) == [];
    assert Consumed(s, 0) == s;
  }

  /** `t` is `s` with these messages delivered, up to the ring and the consumer. */
  predicate DeliveredMore(s: State, t: State, messages: seq<Envelope>) {
    t == s.(ring := t.ring, consumer := t.consumer, delivered := s.delivered + messages)
  }

  /** `t` is where the batch leads from `s`, before it ends. */
  ghost predicate DrainedTo(s: State, n: nat, queue: seq<Envelope>, t: State) {
    var k := Share(s, n, queue);
    Comes(s, t) && InBatch(t, n + k, queue[k..]) && DeliveredMore(s, t, queue[..k])
  }

  lemma DeliveredJoin(s: State, u: State, t: State, e: Envelope, rest: seq<Envelope>)
    requires DeliveredMore(s, u, [e]) && DeliveredMore(u, t, rest)
    ensures DeliveredMore(s, t, [e] + rest)
  {
    assert s.delivered + [e] + rest == s.delivered + ([e] + rest);
  }

  lemma DrainsOn(s: State, n: nat, queue: seq<Envelope>, u: State, t: State)
    requires n < s.cfg.batch && queue != [] && Comes(s, u) && DeliveredMore(s, u, [queue[0]])
    requires DrainedTo(u, n + 1, queue[1..], t)
    ensures DrainedTo(s, n, queue, t)
  {
    ComesJoin(s, u, t);
    ShareStep(s, n, queue);
    DeliveredJoin(s, u, t, queue[0], queue[1..][..Share(u, n + 1, queue[1..])]);
  }

  lemma {:induction false} Drains(s: State, n: nat, queue: seq<Envelope>) returns (t: State)
    requires InBatch(s, n, queue)
    ensures DrainedTo(s, n, queue, t)
    decreases |queue|
  {
    t := s;
    if n < s.cfg.batch && queue != [] {
      var u := Taken(s, queue[0], s.consumerPos + n, n);
      TakesFirst(s, n, queue);
      TakenGoesOn(s, n, queue);
      t := Drains(u, n + 1, queue[1..]);
      DrainsOn(s, n, queue, u, t);
    } else {
      NoSteps(s);
    }
  }

  lemma ShareStep(s: State, n: nat, queue: seq<Envelope>)
    requires n < s.cfg.batch && queue != []
    ensures var k, j := Share(s, n, queue), Share(s, n + 1, queue[1..]);
            k == j + 1 && queue[1..][j..] == queue[k..] && [queue[0]] + queue[1..][..j] == queue[..k]
  {
  }

  /** The bus after a batch of `n` messages. */
  function Finished(s: State, n: nat): State {
    s.(consumer := Idle, consumerPos := s.consumerPos + n, stats := s.stats.(processed := s.stats.processed + n))
  }

  lemma Stops(s: State, n: nat, queue: seq<Envelope>)
    requires InBatch(s, n, queue) && (n >= s.cfg.batch || queue == [])
    ensures Comes(s, s.(consumer := EndBatch(s.consumerPos + n, n)))
  {
    A.PendingSlot(s.ring, s.cfg.depth, s.consumerPos + n, queue, 0);
    ComesOne(s);
  }

  lemma Stores(s: State, n: nat)
    requires s.WellFormed() && n > 0
    ensures Comes(s.(consumer := EndBatch(s.consumerPos + n, n)), Finished(s, n))
  {
    var a := s.(consumer := StorePos(s.consumerPos + n, n));
    var b := s.(consumer := CountProcessed(n), consumerPos := s.consumerPos + n);
    ComesOne(a);
    ComesOne(b);
    ComesJoin(a, b, Finished(s, n));
  }

  lemma EndsBatch(s: State, n: nat, queue: seq<Envelope>)
    requires InBatch(s, n, queue) && (n >= s.cfg.batch || queue == [])
    ensures Comes(s, Finished(s, n))
  {
    Stops(s, n, queue);
    if n > 0 {
      Stores(s, n);
      ComesJoin(s, s.(consumer := EndBatch(s.consumerPos + n, n)), Finished(s, n));
    }
  }

  lemma BeginsBatch(s: State)
    requires s.WellFormed() && s.consumer == Idle
    ensures Comes(s, s.(consumer := Claim(s.consumerPos, 0)))
  {
    ComesOne(s);
    ComesOne(s.(consumer := LoadPos));
    ComesJoin(s, s.(consumer := LoadPos), s.(consumer := Claim(s.consumerPos, 0)));
  }

  lemma FinishedRests(s: State, queue: seq<Envelope>, u: State, k: nat)
    requires AtRest(s, queue) && k <= |queue| && InBatch(u, k, queue[k..])
    requires DeliveredMore(s.(consumer := Claim(s.consumerPos, 0)), u, queue[..k])
    ensures AtRest(Finished(u, k), queue[k..])
  {
  }

  /** A batch that nobody interrupts, on a bus at rest, delivers the oldest messages in order, as many as the batch size
      and the queue allow, counts them, and leaves the rest on a bus at rest. */
  lemma SoloBatchIsSequential(s: State, queue: seq<Envelope>) returns (t: State)
    requires AtRest(s, queue)
    ensures var k := if s.cfg.batch < |queue| then s.cfg.batch else |queue|;
            && Comes(s, t) && AtRest(t, queue[k..]) && t.delivered == s.delivered + queue[..k]
            && t.consumerPos == s.consumerPos + k && t.producerPos == s.producerPos
            && t.stats == s.stats.(processed := s.stats.processed + k)
  {
    var begun := s.(consumer := Claim(s.consumerPos, 0));
    BeginsBatch(s);
    var u := Drains(begun, 0, queue);
    var k := Share(begun, 0, queue);
    t := Finished(u, k);
    FinishedRests(s, queue, u, k);
    EndsBatch(u, k, queue[k..]);
    ComesJoin(s, begun, u);
    ComesJoin(s, u, t);
  }
}
