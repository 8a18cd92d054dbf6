/** Conservation on the bus: every published message is delivered, evicted or still
    pending, and the statistics agree with that whenever no call is in flight. */
module BusConservation {
  import opened Options
  import opened Bus
  import opened BusSafety
  import opened Debts

  // ---------------------------------------------------------------- bags of contents

  function BagOf(c: Option<Envelope>): multiset<Envelope> {
    if c.Some? then multiset{c.value} else multiset{}
  }

  /** The messages present in a stretch of positions. */
  function Bag(content: seq<Option<Envelope>>): multiset<Envelope> {
    if content == [] then multiset{} else BagOf(content[0]) + Bag(content[1..])
  }

  lemma {:induction false} BagConcat(a: seq<Option<Envelope>>, b: seq<Option<Envelope>>)
    ensures Bag(a + b) == Bag(a) + Bag(b)
  {
    if a == [] {
      assert a + b == b;
    } else {
      assert (a + b)[1..] == a[1..] + b;
      BagConcat(a[1..], b);
    }
  }

  lemma BagSplit(content: seq<Option<Envelope>>, p: nat)
    requires p < |content|
    ensures Bag(content) == Bag(content[..p]) + BagOf(content[p]) + Bag(content[p + 1..])
  {
    assert content == content[..p] + content[p..];
    BagConcat(content[..p], content[p..]);
    assert content[p..][1..] == content[p + 1..];
  }

  /** Replacing one content exchanges exactly that message. */
  lemma BagUpdate(content: seq<Option<Envelope>>, p: nat, e: Envelope)
    requires p < |content|
    ensures Bag(content[p := Some(e)]) + BagOf(content[p]) == Bag(content) + multiset{e}
  {
    var content' := content[p := Some(e)];
    BagSplit(content, p);
    BagSplit(content', p);
    assert content'[..p] == content[..p] && content'[p + 1..] == content[p + 1..];
  }

  lemma {:induction false} BagOfDelivered(content: seq<Option<Envelope>>, delivered: seq<Envelope>)
    requires |content| == |delivered| && forall i :: 0 <= i < |content| ==> content[i] == Some(delivered[i])
    ensures Bag(content) == multiset(delivered)
  {
    if content != [] {
      BagOfDelivered(content[1..], delivered[1..]);
      assert delivered == [delivered[0]] + delivered[1..];
    }
  }

  // ---------------------------------------------------------------- ledger

  /** Bookkeeping a call still owes: a claimed position to publish, a published
      message to count, an evicted message to count as dropped. */
  datatype Debt = Filling | Uncounted | UncountedDrop

  predicate Owes(call: Call, d: Debt) {
    match d
    case Filling => call.Own? && !call.evicting
    case Uncounted => call.CountEvicted? || call.CountPublished?
    case UncountedDrop => call.CountEvicted?
  }

  /** Messages of the running batch that the processed counter misses. */
  function Unflushed(c: Consumer): nat {
    match c
    case Idle => 0
    case LoadPos => 0
    case Claim(_, n) => n
    case ReadHeader(_, n) => n
    case ReadPayload(_, n, _) => n
    case Release(_, n) => n
    case StorePos(_, n) => n
    case CountProcessed(n) => n
  }

  ghost predicate Messages(s: State) {
    multiset(s.submitted) == Bag(s.content) + multiset(s.evicted)
  }

  ghost predicate Counters(s: State) {
    && |Bag(s.content)| + |Owing(s.calls, Owes, Filling)| == s.producerPos
    && s.stats.published + |Owing(s.calls, Owes, Uncounted)| == |s.submitted|
    && s.stats.dropped + |Owing(s.calls, Owes, UncountedDrop)| == s.rejected + |s.evicted|
    && s.stats.processed + Unflushed(s.consumer) == s.Cursor()
  }

  ghost predicate Ledger(s: State) { Messages(s) && Counters(s) }

  // ---------------------------------------------------------------- steps

  /** Nothing the ledger speaks about changed, except the calls. */
  ghost predicate SameBooks(s: State, s': State) {
    && s'.submitted == s.submitted && s'.content == s.content && s'.evicted == s.evicted && s'.rejected == s.rejected
    && s'.producerPos == s.producerPos && s'.consumer == s.consumer && s'.consumerPos == s.consumerPos
    && s'.stats.published == s.stats.published && s'.stats.dropped == s.stats.dropped
    && s'.stats.processed == s.stats.processed
  }

  /** An operation that books nothing, of a call that owes what it owed before. */
  lemma EndBooks(s: State, e: State, t: nat, next: Option<Call>)
    requires Ledger(s) && SameBooks(s, e) && e.calls == s.calls && t in s.calls
    requires forall d :: Owes(s.calls[t], d) == (next.Some? && Owes(next.value, d))
    ensures Ledger(e.End(t, next))
  {
    DebtOfGo(s.calls, Owes, t, next, Filling);
    DebtOfGo(s.calls, Owes, t, next, Uncounted);
    DebtOfGo(s.calls, Owes, t, next, UncountedDrop);
  }

  lemma ClaimedBooks(s: State, s': State, t: nat, req: Request)
    requires Ledger(s) && t in s.calls && s.calls[t].Claiming()
    requires s' == s.(producerPos := s.producerPos + 1, content := s.content + [None])
                    .Go(t, Own(req, s.producerPos, false, TakeId))
    ensures Ledger(s')
  {
    var call := Own(req, s.producerPos, false, TakeId);
    DebtOfMove(s.calls, Owes, t, call, Filling);
    DebtOfMove(s.calls, Owes, t, call, Uncounted);
    DebtOfMove(s.calls, Owes, t, call, UncountedDrop);
    BagConcat(s.content, [None]);
  }

  lemma CountBooks(s: State, t: nat)
    requires Ledger(s) && t in s.calls && s.calls[t].Counting()
    ensures Ledger(CountEffect(s, s.calls[t]).End(t, CountNext(s.calls[t])))
  {
    var next := CountNext(s.calls[t]);
    DebtOfGo(s.calls, Owes, t, next, Filling);
    DebtOfGo(s.calls, Owes, t, next, Uncounted);
    DebtOfGo(s.calls, Owes, t, next, UncountedDrop);
  }

  /** Publishing adds one message and, when evicting, moves the old one to `evicted`. */
  lemma PublishMessages(s: State, p: nat, e: Envelope, evicted: seq<Envelope>)
    requires Messages(s) && p < |s.content|
    requires evicted == if s.content[p].Some? then s.evicted + [s.content[p].value] else s.evicted
    ensures multiset(s.submitted + [e]) == Bag(s.content[p := Some(e)]) + multiset(evicted)
    ensures |Bag(s.content[p := Some(e)])| == |Bag(s.content)| + One(s.content[p].None?)
  {
    BagUpdate(s.content, p, e);
    Exchange(multiset(s.submitted), Bag(s.content), Bag(s.content[p := Some(e)]), BagOf(s.content[p]),
             multiset(s.evicted), e);
    assert multiset(s.submitted + [e]) == multiset(s.submitted) + multiset{e};
    assert multiset(evicted) == multiset(s.evicted) + BagOf(s.content[p]);
  }

  lemma Exchange(all: multiset<Envelope>, bag: multiset<Envelope>, bag': multiset<Envelope>,
                 old_: multiset<Envelope>, gone: multiset<Envelope>, e: Envelope)
    requires all == bag + gone && bag' + old_ == bag + multiset{e}
    ensures all + multiset{e} == bag' + (gone + old_)
    ensures |bag'| + |old_| == |bag| + 1
  {
    assert bag' + (gone + old_) == (bag' + old_) + gone;
    assert |bag' + old_| == |bag + multiset{e}|;
  }

  /** The books after a publication that exchanged the messages as `PublishMessages` says. */
  lemma PublishedBooks(s: State, e: State, t: nat, call: Call, next: Call)
    requires Ledger(s) && e.calls == s.calls && t in s.calls && s.calls[t] == call && call.Own?
    requires multiset(e.submitted) == Bag(e.content) + multiset(e.evicted)
    requires |e.submitted| == |s.submitted| + 1 && |e.evicted| == |s.evicted| + One(call.evicting)
    requires |Bag(e.content)| == |Bag(s.content)| + One(!call.evicting)
    requires e.stats == s.stats && e.rejected == s.rejected && e.producerPos == s.producerPos
    requires e.consumer == s.consumer && e.consumerPos == s.consumerPos
    requires next == if call.evicting then CountEvicted(call.req) else CountPublished(call.req)
    ensures Ledger(e.Go(t, next))
  {
    DebtOfMove(s.calls, Owes, t, next, Filling);
    DebtOfMove(s.calls, Owes, t, next, Uncounted);
    DebtOfMove(s.calls, Owes, t, next, UncountedDrop);
  }

  lemma PublishBooks(s: State, t: nat)
    requires Ledger(s) && s.WellFormed() && t in s.calls && s.calls[t].Own? && s.calls[t].pos < |s.content|
    requires s.calls[t].stage.PutSequence? && s.content[s.calls[t].pos].Some? == s.calls[t].evicting
    ensures Ledger(OwnEffect(s, s.calls[t]).Go(t, OwnNext(s, s.calls[t])))
  {
    var call := s.calls[t];
    var e := OwnEffect(s, call);
    PublishMessages(s, call.pos, EnvelopeOf(call.req, call.stage.id), e.evicted);
    PublishedBooks(s, e, t, call, OwnNext(s, call));
  }

  lemma OwnBooks(s: State, t: nat)
    requires Inv(s) && Ledger(s) && t in s.calls && s.calls[t].Own? && s.calls[t].pos < |s.content|
    ensures Ledger(StepCall(s, t, false))
  {
    var call := s.calls[t];
    if call.stage.PutSequence? {
      assert CallFacts(s, call) && ActiveAt(s, call.pos);
      PublishBooks(s, t);
    } else {
      EndBooks(s, OwnEffect(s, call), t, Some(OwnNext(s, call)));
    }
  }

  /** Only the processed counter and the cursor move, and they move together. */
  lemma ConsumerBooks(s: State)
    requires s.WellFormed() && Ledger(s) && BatchCount(s.consumer, s.consumerPos)
    ensures Ledger(StepConsumer(s))
  {
    BatchBooks(s);
    ConsumerTouchesNoBooks(s);
    CarryBooks(s, StepConsumer(s));
  }

  lemma BatchBooks(s: State)
    requires s.WellFormed() && BatchCount(s.consumer, s.consumerPos)
    requires s.stats.processed + Unflushed(s.consumer) == s.Cursor()
    ensures var s' := StepConsumer(s); s'.stats.processed + Unflushed(s'.consumer) == s'.Cursor()
  {}

  lemma ConsumerTouchesNoBooks(s: State)
    requires s.WellFormed()
    ensures var s' := StepConsumer(s);
            && s'.submitted == s.submitted && s'.content == s.content && s'.evicted == s.evicted
            && s'.calls == s.calls && s'.producerPos == s.producerPos && s'.rejected == s.rejected
            && s'.stats.published == s.stats.published && s'.stats.dropped == s.stats.dropped
  {}

  lemma CarryBooks(s: State, s': State)
    requires Ledger(s)
    requires s'.submitted == s.submitted && s'.content == s.content && s'.evicted == s.evicted
    requires s'.calls == s.calls && s'.producerPos == s.producerPos && s'.rejected == s.rejected
    requires s'.stats.published == s.stats.published && s'.stats.dropped == s.stats.dropped
    requires s'.stats.processed + Unflushed(s'.consumer) == s'.Cursor()
    ensures Ledger(s')
  {}

  lemma AdmissionBooks(s: State, t: nat)
    requires Ledger(s) && t in s.calls && s.calls[t].Admitting()
    ensures Ledger(AdmissionEffect(s, s.calls[t]).End(t, AdmissionNext(s, s.calls[t])))
  {
    EndBooks(s, AdmissionEffect(s, s.calls[t]), t, AdmissionNext(s, s.calls[t]));
  }

  lemma ClaimBooks(s: State, t: nat, weak: bool)
    requires s.WellFormed() && Ledger(s) && t in s.calls && s.calls[t].Claiming()
    ensures Ledger(ClaimEffect(s, s.calls[t], weak).Go(t, ClaimNext(s, s.calls[t], weak)))
  {
    var call := s.calls[t];
    if ClaimSucceeds(s, call, weak) {
      ClaimedBooks(s, ClaimEffect(s, call, weak).Go(t, ClaimNext(s, call, weak)), t, call.req);
    } else {
      EndBooks(s, s, t, Some(ClaimNext(s, call, weak)));
    }
  }

  /** A call that owns no slot books the same in every state. */
  lemma FreeCallBooks(s: State, t: nat, weak: bool)
    requires s.WellFormed() && Ledger(s) && t in s.calls && !s.calls[t].Own?
    ensures Ledger(StepCall(s, t, weak))
  {
    var call := s.calls[t];
    if call.Admitting() {
      AdmissionBooks(s, t);
    } else if call.Claiming() {
      ClaimBooks(s, t, weak);
    } else if call.Evicting() {
      EvictBooks(s, t);
    } else {
      CountBooks(s, t);
    }
  }

  lemma CallBooks(s: State, t: nat, weak: bool)
    requires Inv(s) && Ledger(s) && Enabled(s, Advance(t, weak))
    ensures Ledger(StepCall(s, t, weak))
  {
    if s.calls[t].Own? {
      OwnBooks(s, t);
    } else {
      FreeCallBooks(s, t, weak);
    }
  }

  lemma EvictBooks(s: State, t: nat)
    requires s.WellFormed() && Ledger(s) && t in s.calls && s.calls[t].Evicting()
    ensures Ledger(EvictEffect(s, s.calls[t]).Go(t, EvictNext(s, s.calls[t])))
  {
    EvictOwes(s, s.calls[t]);
    EndBooks(s, EvictEffect(s, s.calls[t]), t, Some(EvictNext(s, s.calls[t])));
  }

  lemma EvictOwes(s: State, call: Call)
    requires s.WellFormed() && call.Evicting()
    ensures forall d :: !Owes(EvictNext(s, call), d)
  {}

  lemma StepBooks(s: State, a: Action)
    requires Inv(s) && Ledger(s) && Enabled(s, a)
    ensures Ledger(Step(s, a))
  {
    match a {
      case Start(t, req) =>
        DebtOfStart(s.calls, Owes, t, CheckId(req), Filling);
        DebtOfStart(s.calls, Owes, t, CheckId(req), Uncounted);
        DebtOfStart(s.calls, Owes, t, CheckId(req), UncountedDrop);
      case Advance(t, weak) => CallBooks(s, t, weak);
      case Consume => ConsumerBooks(s);
    }
  }

  lemma {:induction false} RunBooks(s: State, schedule: seq<Action>)
    requires Inv(s) && Ledger(s)
    ensures Inv(Run(s, schedule)) && Ledger(Run(s, schedule))
    decreases |schedule|
  {
    if schedule != [] {
      var a := schedule[0];
      if Enabled(s, a) {
        StepInv(s, a);
        StepBooks(s, a);
        RunBooks(Step(s, a), schedule[1..]);
      } else {
        RunBooks(s, schedule[1..]);
      }
    }
  }

  // ---------------------------------------------------------------- main results

  /** In every reachable state, the published messages are exactly the delivered, the
      evicted and the pending ones. */
  lemma NoMessageLostOrDuplicated(cfg: Config, schedule: seq<Action>)
    requires cfg.Valid()
    ensures var s := Run(Init(cfg), schedule);
            && |s.delivered| <= |s.content|
            && multiset(s.submitted) == multiset(s.delivered) + multiset(s.evicted) + Bag(s.content[|s.delivered|..])
  {
    InitInv(cfg);
    RunBooks(Init(cfg), schedule);
    DeliveryInOrder(cfg, schedule);
    var s := Run(Init(cfg), schedule);
    BagOfPrefix(s.content, s.delivered);
    Regroup(multiset(s.delivered), Bag(s.content[|s.delivered|..]), multiset(s.evicted));
  }

  lemma BagOfPrefix(content: seq<Option<Envelope>>, delivered: seq<Envelope>)
    requires |delivered| <= |content| && forall i :: 0 <= i < |delivered| ==> content[i] == Some(delivered[i])
    ensures Bag(content) == multiset(delivered) + Bag(content[|delivered|..])
  {
    var n := |delivered|;
    assert content == content[..n] + content[n..];
    BagConcat(content[..n], content[n..]);
    BagOfDelivered(content[..n], delivered);
  }

  lemma Regroup(a: multiset<Envelope>, b: multiset<Envelope>, c: multiset<Envelope>)
    ensures a + b + c == a + c + b
  {}

  /** A HIGH message is never lost: as many as were published were delivered or are
      still pending. */
  lemma HighMessagesSurvive(cfg: Config, schedule: seq<Action>, e: Envelope)
    requires cfg.Valid() && e.header.priority == High
    ensures var s := Run(Init(cfg), schedule);
            && |s.delivered| <= |s.content|
            && multiset(s.submitted)[e] == multiset(s.delivered)[e] + Bag(s.content[|s.delivered|..])[e]
  {
    NoMessageLostOrDuplicated(cfg, schedule);
    var s := Run(Init(cfg), schedule);
    if e in s.evicted { OnlyLowerPrioritiesEvicted(cfg, schedule, e); }
    assert multiset(s.evicted)[e] == 0;
  }

  /** With no call in flight and the consumer idle, the statistics balance:
      published = processed + evicted + depth, and dropped = rejected + evicted. */
  lemma StatisticsBalance(cfg: Config, schedule: seq<Action>)
    requires cfg.Valid()
    requires var s := Run(Init(cfg), schedule); s.calls == map[] && s.consumer == Idle
    ensures var s := Run(Init(cfg), schedule);
            && s.stats.published == s.stats.processed + |s.evicted| + QueueDepth(s)
            && s.stats.dropped == s.rejected + |s.evicted|
            && s.stats.processed == |s.delivered|
  {
    InitInv(cfg);
    RunBooks(Init(cfg), schedule);
    var s := Run(Init(cfg), schedule);
    assert forall d :: Owing(s.calls, Owes, d) == {};
    assert |multiset(s.submitted)| == |Bag(s.content)| + |multiset(s.evicted)|;
  }

  // ---------------------------------------------------------------- nothing is made up

  /** The message carries what the request asked for. */
  predicate Bears(e: Envelope, req: Request) {
    && e.payload == req.payload && e.header.sender == req.sender && e.header.timestamp == req.timestamp
    && e.header.topic == req.topic && e.header.priority == req.priority
  }

  ghost predicate Asked(reqs: set<Request>, e: Envelope) { exists req :: req in reqs && Bears(e, req) }

  /** Every call in flight and every message published stems from a request made. */
  ghost predicate Genuine(s: State, reqs: set<Request>) {
    && (forall t :: t in s.calls ==> s.calls[t].req in reqs)
    && (forall e :: e in s.submitted ==> Asked(reqs, e))
  }

  /** Whatever a call does next, it does it for its own request. */
  lemma NextRequest(s: State, call: Call, weak: bool)
    requires s.WellFormed()
    ensures call.Admitting() && AdmissionNext(s, call).Some? ==> AdmissionNext(s, call).value.req == call.req
    ensures call.Claiming() ==> ClaimNext(s, call, weak).req == call.req
    ensures call.Own? ==> OwnNext(s, call).req == call.req
    ensures call.Evicting() ==> EvictNext(s, call).req == call.req
    ensures call.Counting() && CountNext(call).Some? ==> CountNext(call).value.req == call.req
  {
  }

  /** Only the operation that publishes a slot publishes a message: that of the request. */
  lemma EffectSubmits(s: State, call: Call, weak: bool)
    requires s.WellFormed() && (call.Own? ==> call.pos < |s.content|)
    ensures call.Own? ==>
              && OwnEffect(s, call).calls == s.calls
              && OwnEffect(s, call).submitted == if call.stage.PutSequence?
                                                 then s.submitted + [EnvelopeOf(call.req, call.stage.id)]
                                                 else s.submitted
    ensures AdmissionEffect(s, call).submitted == ClaimEffect(s, call, weak).submitted == s.submitted
    ensures AdmissionEffect(s, call).calls == ClaimEffect(s, call, weak).calls == s.calls
    ensures EvictEffect(s, call).submitted == s.submitted && EvictEffect(s, call).calls == s.calls
    ensures call.Counting() ==> CountEffect(s, call).submitted == s.submitted && CountEffect(s, call).calls == s.calls
  {
  }

  lemma GoGenuine(s: State, e: State, t: nat, next: Option<Call>, reqs: set<Request>)
    requires Genuine(s, reqs) && t in s.calls && e.calls == s.calls
    requires next.Some? ==> next.value.req == s.calls[t].req
    requires e.submitted == s.submitted || (exists m :: Asked(reqs, m) && e.submitted == s.submitted + [m])
    ensures Genuine(e.End(t, next), reqs)
  {
  }

  lemma CallGenuine(s: State, t: nat, weak: bool, reqs: set<Request>)
    requires s.WellFormed() && Genuine(s, reqs) && Enabled(s, Advance(t, weak))
    ensures Genuine(StepCall(s, t, weak), reqs)
  {
    var call := s.calls[t];
    NextRequest(s, call, weak);
    EffectSubmits(s, call, weak);
    if call.Own? {
      if call.stage.PutSequence? {
        assert Bears(EnvelopeOf(call.req, call.stage.id), call.req);
        assert Asked(reqs, EnvelopeOf(call.req, call.stage.id));
      }
      GoGenuine(s, OwnEffect(s, call), t, Some(OwnNext(s, call)), reqs);
    } else if call.Admitting() {
      GoGenuine(s, AdmissionEffect(s, call), t, AdmissionNext(s, call), reqs);
    } else if call.Claiming() {
      GoGenuine(s, ClaimEffect(s, call, weak), t, Some(ClaimNext(s, call, weak)), reqs);
    } else if call.Evicting() {
      GoGenuine(s, EvictEffect(s, call), t, Some(EvictNext(s, call)), reqs);
    } else {
      GoGenuine(s, CountEffect(s, call), t, CountNext(call), reqs);
    }
  }

  lemma {:induction false} RunGenuine(s: State, schedule: seq<Action>, reqs: set<Request>)
    requires s.WellFormed() && Genuine(s, reqs)
    requires forall i :: 0 <= i < |schedule| && schedule[i].Start? ==> schedule[i].req in reqs
    ensures Genuine(Run(s, schedule), reqs)
    decreases |schedule|
  {
    if schedule != [] {
      var a := schedule[0];
      if Enabled(s, a) {
        StepKeepsShape(s, a);
        if a.Advance? { CallGenuine(s, a.t, a.weak, reqs); }
        RunGenuine(Step(s, a), schedule[1..], reqs);
      } else {
        RunGenuine(s, schedule[1..], reqs);
      }
    }
  }

  lemma DeliveredWasPublished(cfg: Config, schedule: seq<Action>, e: Envelope)
    requires cfg.Valid() && e in Run(Init(cfg), schedule).delivered
    ensures e in Run(Init(cfg), schedule).submitted
  {
    NoMessageLostOrDuplicated(cfg, schedule);
    assert e in multiset(Run(Init(cfg), schedule).delivered);
    assert e in multiset(Run(Init(cfg), schedule).submitted);
  }

  ghost function Requests(schedule: seq<Action>): set<Request> {
    set i | 0 <= i < |schedule| && schedule[i].Start? :: schedule[i].req
  }

  /** Every message handed over bears payload, sender, time, topic and priority of a call that was started. */
  lemma DeliveredWasAsked(cfg: Config, schedule: seq<Action>, e: Envelope)
    requires cfg.Valid() && e in Run(Init(cfg), schedule).delivered
    ensures exists i :: 0 <= i < |schedule| && schedule[i].Start? && Bears(e, schedule[i].req)
  {
    RunGenuine(Init(cfg), schedule, Requests(schedule));
    DeliveredWasPublished(cfg, schedule, e);
    assert Asked(Requests(schedule), e);
  }
}
