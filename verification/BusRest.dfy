/** A bus without a call in flight is a queue: every slot that is not published belongs to a call, so that once the
    calls have returned all pending slots are published and the next call finds the bus at rest. */
module BusRest {
  import opened Options
  import opened SlotIndex
  import opened Bus
  import opened BusSafety
  import opened BusSolo
  import A = AsyncBus

  // ---------------------------------------------------------------- who tends a slot

  ghost predicate Held(calls: map<nat, Call>, q: nat) { exists t :: t in calls && Holds(calls[t]) == Some(q) }

  /** The slot of a pending position is published, or being consumed, or a call holds it. */
  ghost predicate TendedAt(s: State, q: nat)
    requires s.WellFormed()
  {
    s.At(q).sequence == q + 1 || (s.Consuming() && q == s.Cursor()) || Held(s.calls, q)
  }

  ghost predicate Tended(s: State)
    requires s.WellFormed()
  {
    forall q :: s.Cursor() <= q < s.producerPos ==> TendedAt(s, q)
  }

  /** Call `t` writes no slot and gives none up. */
  lemma MoveTended(s: State, s': State)
    requires s.WellFormed() && s'.WellFormed() && Tended(s) && s'.cfg == s.cfg && s'.ring == s.ring
    requires s'.producerPos == s.producerPos && s'.consumer == s.consumer && s'.consumerPos == s.consumerPos
    requires forall q :: Held(s.calls, q) ==> Held(s'.calls, q)
    ensures Tended(s')
  {
    forall q | s'.Cursor() <= q < s'.producerPos ensures TendedAt(s', q) {
      assert TendedAt(s, q);
    }
  }

  lemma StillHeld(calls: map<nat, Call>, t: nat, next: Call, q: nat)
    requires t in calls && Held(calls, q) && (Holds(calls[t]) == Some(q) ==> Holds(next) == Some(q))
    ensures Held(calls[t := next], q)
  {
    var u :| u in calls && Holds(calls[u]) == Some(q);
    assert Holds(calls[t := next][u]) == Some(q);
  }

  lemma GoTended(s: State, e: State, t: nat, next: Call)
    requires s.WellFormed() && Tended(s) && t in s.calls && e.WellFormed() && e.cfg == s.cfg && e.ring == s.ring
    requires e.producerPos == s.producerPos && e.consumer == s.consumer && e.consumerPos == s.consumerPos
    requires e.calls == s.calls && (Holds(s.calls[t]) == None || Holds(s.calls[t]) == Holds(next))
    ensures Tended(e.Go(t, next))
  {
    forall q | Held(s.calls, q) ensures Held(s.calls[t := next], q) {
      StillHeld(s.calls, t, next, q);
    }
    MoveTended(s, e.Go(t, next));
  }

  lemma EndTended(s: State, e: State, t: nat, next: Option<Call>)
    requires s.WellFormed() && Tended(s) && t in s.calls && e.WellFormed() && e.cfg == s.cfg && e.ring == s.ring
    requires e.producerPos == s.producerPos && e.consumer == s.consumer && e.consumerPos == s.consumerPos
    requires e.calls == s.calls && Holds(s.calls[t]) == None
    ensures Tended(e.End(t, next))
  {
    if next.Some? {
      GoTended(s, e, t, next.value);
    } else {
      forall q: nat | Held(s.calls, q) ensures Held(s.calls - {t}, q) {
        var u :| u in s.calls && Holds(s.calls[u]) == Some(q);
        assert u in s.calls - {t};
      }
      MoveTended(s, e.End(t, next));
    }
  }

  /** Call `t` writes the slot of position `p`, which it publishes or holds afterwards. */
  lemma WriteTended(s: State, s': State, t: nat, p: nat, slot: Slot, next: Call)
    requires Positions(s) && Tended(s) && t in s.calls && s'.WellFormed() && s'.cfg == s.cfg
    requires s.Cursor() <= p < s.producerPos && s'.ring == s.ring[Index(p, s.cfg.depth) := slot]
    requires s'.producerPos == s.producerPos && s'.consumer == s.consumer && s'.consumerPos == s.consumerPos
    requires s'.calls == s.calls[t := next] && (Holds(s.calls[t]) == None || Holds(s.calls[t]) == Some(p))
    requires slot.sequence == p + 1 || Holds(next) == Some(p)
    ensures Tended(s')
  {
    forall q | s'.Cursor() <= q < s'.producerPos ensures TendedAt(s', q) {
      assert TendedAt(s, q);
      if q == p {
        assert s'.At(p) == slot && Holds(s'.calls[t]) == Holds(next);
      } else {
        PutFrame(s, p, slot, q);
        if Held(s.calls, q) {
          StillHeld(s.calls, t, next, q);
        }
      }
    }
  }

  // ---------------------------------------------------------------- the calls

  lemma AdmissionTended(s: State, t: nat, weak: bool)
    requires s.WellFormed() && Tended(s) && t in s.calls && s.calls[t].Admitting()
    ensures var s' := StepCall(s, t, weak); s'.WellFormed() && Tended(s')
  {
    EndTended(s, AdmissionEffect(s, s.calls[t]), t, AdmissionNext(s, s.calls[t]));
  }

  lemma CountTended(s: State, t: nat, weak: bool)
    requires s.WellFormed() && Tended(s) && t in s.calls && s.calls[t].Counting()
    ensures var s' := StepCall(s, t, weak); s'.WellFormed() && Tended(s')
  {
    EndTended(s, CountEffect(s, s.calls[t]), t, CountNext(s.calls[t]));
  }

  lemma ClaimTended(s: State, t: nat, weak: bool)
    requires Positions(s) && Tended(s) && t in s.calls && s.calls[t].Claiming()
    ensures var s' := StepCall(s, t, weak); s'.WellFormed() && Tended(s')
  {
    var call, next, s' := s.calls[t], ClaimNext(s, s.calls[t], weak), StepCall(s, t, weak);
    if !ClaimSucceeds(s, call, weak) {
      GoTended(s, ClaimEffect(s, call, weak), t, next);
    } else {
      forall q | s'.Cursor() <= q < s'.producerPos ensures TendedAt(s', q) {
        if q == s.producerPos {
          assert Holds(s'.calls[t]) == Some(q);
        } else {
          assert TendedAt(s, q);
          if Held(s.calls, q) {
            StillHeld(s.calls, t, next, q);
          }
        }
      }
    }
  }

  lemma OwnTended(s: State, t: nat, weak: bool)
    requires Positions(s) && Tended(s) && t in s.calls && s.calls[t].Own? && CallFacts(s, s.calls[t])
    ensures var s' := StepCall(s, t, weak); s'.WellFormed() && Tended(s')
  {
    var call, next := s.calls[t], OwnNext(s, s.calls[t]);
    if call.stage.TakeId? {
      GoTended(s, OwnEffect(s, call), t, next);
    } else {
      var slot := Fill(s.At(call.pos), call.req, call.pos, call.stage);
      WriteTended(s, OwnEffect(s, call).Go(t, next), t, call.pos, slot, next);
    }
  }

  lemma ReserveTended(s: State, t: nat, p: nat)
    requires Positions(s) && Tended(s) && t in s.calls && ReserveSucceeds(s, s.calls[t])
    requires p == s.calls[t].cons + s.calls[t].i && s.Cursor() <= p < s.producerPos
    ensures Tended(EvictEffect(s, s.calls[t]).Go(t, EvictNext(s, s.calls[t])))
  {
    var call, next := s.calls[t], EvictNext(s, s.calls[t]);
    WriteTended(s, EvictEffect(s, call).Go(t, next), t, p, s.At(p).(sequence := p + 1 + 2 * s.cfg.depth), next);
  }

  lemma RestoreTended(s: State, t: nat, p: nat)
    requires Positions(s) && Tended(s) && t in s.calls && s.calls[t].EvictRestore?
    requires p == s.calls[t].cons + s.calls[t].i && s.Cursor() <= p < s.producerPos
    ensures Tended(EvictEffect(s, s.calls[t]).Go(t, EvictNext(s, s.calls[t])))
  {
    var call, next := s.calls[t], EvictNext(s, s.calls[t]);
    WriteTended(s, EvictEffect(s, call).Go(t, next), t, p, s.At(p).(sequence := p + 1), next);
  }

  lemma ScanTended(s: State, t: nat)
    requires s.WellFormed() && Tended(s) && t in s.calls && s.calls[t].Evicting()
    requires !ReserveSucceeds(s, s.calls[t]) && !s.calls[t].EvictRestore?
    ensures Tended(EvictEffect(s, s.calls[t]).Go(t, EvictNext(s, s.calls[t])))
  {
    GoTended(s, EvictEffect(s, s.calls[t]), t, EvictNext(s, s.calls[t]));
  }

  lemma EvictTended(s: State, t: nat)
    requires Positions(s) && Tended(s) && t in s.calls && s.calls[t].Evicting() && CallFacts(s, s.calls[t])
    requires var s' := EvictEffect(s, s.calls[t]).Go(t, EvictNext(s, s.calls[t]));
             Positions(s') && CallFacts(s', EvictNext(s, s.calls[t]))
    ensures Tended(EvictEffect(s, s.calls[t]).Go(t, EvictNext(s, s.calls[t])))
  {
    var call := s.calls[t];
    if ReserveSucceeds(s, call) {
      ReserveTended(s, t, call.cons + call.i);
    } else if call.EvictRestore? {
      RestoreTended(s, t, call.cons + call.i);
    } else {
      ScanTended(s, t);
    }
  }

  lemma CallTended(s: State, t: nat, weak: bool)
    requires Inv(s) && Tended(s) && Enabled(s, Advance(t, weak)) && Inv(StepCall(s, t, weak))
    ensures Tended(StepCall(s, t, weak))
  {
    var call := s.calls[t];
    assert CallFacts(s, call);
    if call.Own? {
      OwnTended(s, t, weak);
    } else if call.Admitting() {
      AdmissionTended(s, t, weak);
    } else if call.Claiming() {
      ClaimTended(s, t, weak);
    } else if call.Evicting() {
      assert CallFacts(StepCall(s, t, weak), EvictNext(s, call)) by { assert t in StepCall(s, t, weak).calls; }
      EvictTended(s, t);
    } else {
      CountTended(s, t, weak);
    }
  }

  // ---------------------------------------------------------------- the consumer

  /** The consumer writes at most the slot at its cursor, which it has marked or passed afterwards. */
  lemma ConsumerWrites(s: State)
    requires Positions(s)
    ensures var s', c := StepConsumer(s), s.Cursor();
            && s'.cfg == s.cfg && s'.calls == s.calls && s'.producerPos == s.producerPos && c <= s'.Cursor()
            && (if s'.Consuming() || s.Consuming() then
                  s'.ring == s.ring[Index(c, s.cfg.depth) := s'.At(c)] && (s'.Cursor() == c ==> s'.Consuming())
                else s'.ring == s.ring && s'.Cursor() == c)
  {
  }

  lemma ConsumerTended(s: State)
    requires Positions(s) && Tended(s)
    ensures var s' := StepConsumer(s); s'.WellFormed() && Tended(s')
  {
    var s' := StepConsumer(s);
    ConsumerWrites(s);
    forall q | s'.Cursor() <= q < s'.producerPos ensures TendedAt(s', q) {
      assert TendedAt(s, q);
      if q != s.Cursor() {
        PutFrame(s, s.Cursor(), s'.At(s.Cursor()), q);
      }
    }
  }

  // ---------------------------------------------------------------- every quiet state

  lemma StartTended(s: State, t: nat, req: Request)
    requires s.WellFormed() && Tended(s) && t !in s.calls
    ensures Tended(s.Go(t, CheckId(req)))
  {
    var s' := s.Go(t, CheckId(req));
    forall q: nat | Held(s.calls, q) ensures Held(s'.calls, q) {
      var u :| u in s.calls && Holds(s.calls[u]) == Some(q);
      assert s'.calls[u] == s.calls[u];
    }
    MoveTended(s, s');
  }

  lemma StepTended(s: State, a: Action)
    requires Inv(s) && Tended(s) && Enabled(s, a)
    ensures Inv(Step(s, a)) && Tended(Step(s, a))
  {
    StepInv(s, a);
    match a {
      case Start(t, req) => StartTended(s, t, req);
      case Advance(t, weak) => CallTended(s, t, weak);
      case Consume => ConsumerTended(s);
    }
  }

  lemma {:induction false} RunTended(s: State, schedule: seq<Action>)
    requires Inv(s) && Tended(s)
    ensures Inv(Run(s, schedule)) && Tended(Run(s, schedule))
    decreases |schedule|
  {
    if schedule != [] {
      if Enabled(s, schedule[0]) {
        StepTended(s, schedule[0]);
        RunTended(Step(s, schedule[0]), schedule[1..]);
      } else {
        RunTended(s, schedule[1..]);
      }
    }
  }

  /** What is pending. */
  ghost function Pending(s: State): (queue: seq<Envelope>)
    requires s.consumerPos <= s.producerPos == |s.content|
    requires forall q :: s.consumerPos <= q < s.producerPos ==> s.content[q].Some?
    ensures |queue| == s.producerPos - s.consumerPos
    ensures forall i :: 0 <= i < |queue| ==> s.content[s.consumerPos + i] == Some(queue[i])
  {
    seq(s.producerPos - s.consumerPos, i requires 0 <= i < s.producerPos - s.consumerPos =>
        s.content[s.consumerPos + i].value)
  }

  lemma PublishedAt(s: State, q: nat)
    requires Inv(s) && Tended(s) && s.calls == map[] && s.consumer == Idle && s.consumerPos <= q < s.producerPos
    ensures s.content[q] == Some(s.At(q).envelope)
    ensures s.At(q) == Slot(q + 1, s.At(q).envelope.header.priority, s.At(q).envelope)
  {
    assert TendedAt(s, q) && ActiveAt(s, q);
  }

  lemma QuietRests(s: State)
    requires Inv(s) && Tended(s) && s.calls == map[] && s.consumer == Idle
    ensures exists queue :: AtRest(s, queue)
  {
    forall q | s.consumerPos <= q < s.producerPos ensures s.content[q].Some? {
      PublishedAt(s, q);
    }
    var queue := Pending(s);
    forall i | 0 <= i < s.cfg.depth ensures A.Carries(s.ring, s.cfg.depth, s.consumerPos, queue, i) {
      if i < |queue| {
        PublishedAt(s, s.consumerPos + i);
      } else {
        assert FreeAt(s, s.consumerPos + i);
      }
    }
    assert AtRest(s, queue);
  }

  /** After any schedule that leaves no call in flight and the consumer between batches, the bus is at rest. */
  lemma QuietIsAtRest(cfg: Config, schedule: seq<Action>)
    requires cfg.Valid()
    ensures var s := Run(Init(cfg), schedule);
            s.calls == map[] && s.consumer == Idle ==> exists queue :: AtRest(s, queue)
  {
    InitInv(cfg);
    RunTended(Init(cfg), schedule);
    var s := Run(Init(cfg), schedule);
    if s.calls == map[] && s.consumer == Idle {
      QuietRests(s);
    }
  }
}
