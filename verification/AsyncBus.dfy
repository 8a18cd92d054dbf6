/** The bus object used by one thread at a time: a ring of slots, updated in place, that is a
    bounded queue with admission by priority and eviction in place. */
module AsyncBus {
  import opened Options
  import opened SlotIndex
  import opened Bus

  // ---------------------------------------------------------------- the queue

  /** The oldest message behind the first that a HIGH message may replace, from index `i` on. */
  function Victim(queue: seq<Envelope>, i: nat): (r: Option<nat>)
    ensures r.Some? ==> i <= r.value < |queue| && queue[r.value].header.priority != High
    ensures r.Some? ==> forall k :: i <= k < r.value ==> queue[k].header.priority == High
    ensures r.None? ==> forall k :: i <= k < |queue| ==> queue[k].header.priority == High
    decreases |queue| - i
  {
    if i >= |queue| then None
    else if queue[i].header.priority != High then Some(i)
    else Victim(queue, i + 1)
  }

  // ---------------------------------------------------------------- the ring holds the queue

  /** The slot of the `i`-th position from the consumer on carries its message, published, if that is pending; otherwise
      it is free for the position. */
  ghost predicate Carries(ring: seq<Slot>, depth: nat, cons: nat, queue: seq<Envelope>, i: nat)
    requires |ring| == depth >= 1
  {
    var slot := ring[Index(cons + i, depth)];
    if i < |queue| then slot == Slot(cons + i + 1, queue[i].header.priority, queue[i]) else slot.sequence == cons + i
  }

  ghost predicate Holds(ring: seq<Slot>, depth: nat, cons: nat, queue: seq<Envelope>) {
    && depth >= 2 && |ring| == depth && |queue| <= depth
    && forall i :: 0 <= i < depth ==> Carries(ring, depth, cons, queue, i)
  }

  /** Writing the slot of one position of a lap leaves the others alone. */
  lemma OtherSlot(ring: seq<Slot>, depth: nat, cons: nat, i: nat, j: nat, slot: Slot)
    requires |ring| == depth >= 1 && i < depth && j < depth
    ensures ring[Index(cons + i, depth) := slot][Index(cons + j, depth)]
         == if j == i then slot else ring[Index(cons + j, depth)]
  {
    if i < j {
      DistinctSlots(cons + i, cons + j, depth);
    } else if j < i {
      DistinctSlots(cons + j, cons + i, depth);
    }
  }

  /** Publishing at the `i`-th position, inside the queue or right behind it. */
  lemma HoldsPublished(ring: seq<Slot>, depth: nat, cons: nat, queue: seq<Envelope>, queue': seq<Envelope>, i: nat,
                       e: Envelope)
    requires Holds(ring, depth, cons, queue) && i < depth && i <= |queue|
    requires queue' == if i < |queue| then queue[i := e] else queue + [e]
    ensures Holds(ring[Index(cons + i, depth) := Slot(cons + i + 1, e.header.priority, e)], depth, cons, queue')
  {
    var slot := Slot(cons + i + 1, e.header.priority, e);
    var ring' := ring[Index(cons + i, depth) := slot];
    forall j | 0 <= j < depth ensures Carries(ring', depth, cons, queue', j) {
      OtherSlot(ring, depth, cons, i, j, slot);
      assert Carries(ring, depth, cons, queue, j);
    }
  }

  lemma HoldsOneMore(ring: seq<Slot>, depth: nat, cons: nat, queue: seq<Envelope>, e: Envelope)
    requires Holds(ring, depth, cons, queue) && |queue| < depth
    ensures var p := cons + |queue|;
            Holds(ring[Index(p, depth) := Slot(p + 1, e.header.priority, e)], depth, cons, queue + [e])
  {
    HoldsPublished(ring, depth, cons, queue, queue + [e], |queue|, e);
  }

  lemma HoldsReplaced(ring: seq<Slot>, depth: nat, cons: nat, queue: seq<Envelope>, i: nat, e: Envelope)
    requires Holds(ring, depth, cons, queue) && i < |queue|
    ensures var p := cons + i;
            Holds(ring[Index(p, depth) := Slot(p + 1, e.header.priority, e)], depth, cons, queue[i := e])
  {
    HoldsPublished(ring, depth, cons, queue, queue[i := e], i, e);
  }

  lemma HoldsOneLess(ring: seq<Slot>, depth: nat, cons: nat, queue: seq<Envelope>, slot: Slot)
    requires Holds(ring, depth, cons, queue) && queue != [] && slot.sequence == cons + depth
    ensures Holds(ring[Index(cons, depth) := slot], depth, cons + 1, queue[1..])
  {
    var ring', next, rest := ring[Index(cons, depth) := slot], cons + 1, queue[1..];
    forall j | 0 <= j < depth ensures Carries(ring', depth, next, rest, j) {
      if j + 1 < depth {
        OtherSlot(ring, depth, cons, 0, j + 1, slot);
        assert Carries(ring, depth, cons, queue, j + 1);
      } else {
        NextLap(cons, depth);
      }
    }
  }

  /** What a scan finds at the `i`-th position: the message, published, or a slot that is not published. */
  lemma PendingSlot(ring: seq<Slot>, depth: nat, cons: nat, queue: seq<Envelope>, i: nat)
    requires Holds(ring, depth, cons, queue) && i < depth
    ensures var slot := ring[Index(cons + i, depth)];
            if i < |queue| then slot == Slot(cons + i + 1, queue[i].header.priority, queue[i])
            else slot.sequence == cons + i
  {
    assert Carries(ring, depth, cons, queue, i);
  }

  /** The next position's slot is free for it unless the queue is full. */
  lemma NextSlot(ring: seq<Slot>, depth: nat, cons: nat, queue: seq<Envelope>)
    requires Holds(ring, depth, cons, queue)
    ensures ring[Index(cons + |queue|, depth)].sequence == cons + |queue| <==> |queue| < depth
  {
    if |queue| == depth {
      NextLap(cons, depth);
      PendingSlot(ring, depth, cons, queue, 0);
    } else {
      PendingSlot(ring, depth, cons, queue, |queue|);
    }
  }

  lemma OneFurther<T>(s: seq<T>, n: nat)
    requires n < |s|
    ensures s[n..][0] == s[n] && s[n..][1..] == s[n + 1..] && s[..n] + [s[n]] == s[..n + 1]
  {
  }

  class AsyncBus {
    const depth: nat
    const batch: nat
    const ring: array<Slot>
    var producerPos: nat
    var consumerPos: nat
    var cachedPos: nat
    var nextId: nat
    var stats: Stats
    var dispatched: seq<Envelope>
    ghost var queue: seq<Envelope>

    ghost predicate Valid()
      reads this, ring
    {
      && Holds(ring[..], depth, consumerPos, queue)
      && producerPos == consumerPos + |queue| && cachedPos <= consumerPos
      && ring.Length == depth
    }

    constructor (d: nat, b: nat, blank: Envelope)
      requires d >= 2
      ensures Valid() && fresh(ring) && depth == d && batch == b
      ensures queue == [] && dispatched == [] && nextId == 1 && stats == Stats(0, 0, 0, 0)
    {
      depth, batch := d, b;
      ring := new Slot[d]((i: nat) => Slot(i, Medium, blank));
      producerPos, consumerPos, cachedPos, nextId := 0, 0, 0, 1;
      stats := Stats(0, 0, 0, 0);
      dispatched, queue := [], [];
      new;
      forall q | 0 <= q < d ensures ring[..][Index(q, d)].sequence == q {
        assert Index(q, d) == q;
      }
    }

    /** The message is written into the slot of a position and published there. */
    method Fill(p: nat, req: Request)
      requires depth >= 2 && ring.Length == depth
      modifies ring, this`nextId
      ensures nextId == old(nextId) + 1
      ensures ring[..] == old(ring[..])[Index(p, depth) := Slot(p + 1, req.priority, EnvelopeOf(req, old(nextId)))]
    {
      var k := Index(p, depth);
      var id := nextId;
      nextId := nextId + 1;
      ring[k] := ring[k].(envelope := EnvelopeOf(req, id));
      ring[k] := ring[k].(priority := req.priority);
      ring[k] := ring[k].(sequence := p + 1);
    }

    /** The reserving exchange: a published slot gets the evictor's marker. */
    method Reserve(p: nat) returns (ok: bool)
      requires depth >= 2 && ring.Length == depth
      modifies ring
      ensures ok == (old(ring[Index(p, depth)]).sequence == p + 1)
      ensures ring[..] == if !ok then old(ring[..]) else
                old(ring[..])[Index(p, depth) := old(ring[Index(p, depth)]).(sequence := p + 1 + 2 * depth)]
    {
      var k := Index(p, depth);
      if ring[k].sequence != p + 1 {
        return false;
      }
      ring[k] := ring[k].(sequence := p + 1 + 2 * depth);
      return true;
    }

    /** Under the reserve the priority is looked at again: a HIGH message is restored, another one overwritten. */
    method Overwrite(p: nat, req: Request) returns (ok: bool)
      requires depth >= 2 && ring.Length == depth
      modifies ring, this`nextId
      ensures ok == (old(ring[Index(p, depth)]).priority != High) && nextId == old(nextId) + if ok then 1 else 0
      ensures ring[..] == old(ring[..])[Index(p, depth) :=
                if ok then Slot(p + 1, req.priority, EnvelopeOf(req, old(nextId)))
                else old(ring[Index(p, depth)]).(sequence := p + 1)]
    {
      var k := Index(p, depth);
      if ring[k].priority == High {
        ring[k] := ring[k].(sequence := p + 1);
        return false;
      }
      Fill(p, req);
      return true;
    }

    /** The candidate at the `i`-th position: a published message that is not HIGH is reserved, looked at again and
        replaced; anything else is left alone. */
    method TryEvict(i: nat, req: Request) returns (ok: bool)
      requires Holds(ring[..], depth, consumerPos, queue) && ring.Length == depth && i < depth && req.priority == High
      modifies ring, this`nextId, this`queue
      ensures Holds(ring[..], depth, consumerPos, queue) && nextId == old(nextId) + if ok then 1 else 0
      ensures ok == (i < |old(queue)| && old(queue)[i].header.priority != High)
      ensures if ok then queue == old(queue)[i := EnvelopeOf(req, old(nextId))]
              else queue == old(queue) && ring[..] == old(ring[..])
    {
      ghost var before, e := ring[..], EnvelopeOf(req, nextId);
      var p := consumerPos + i;
      var k := Index(p, depth);
      PendingSlot(before, depth, consumerPos, queue, i);
      if ring[k].sequence != p + 1 || ring[k].priority == High {
        return false;
      }
      ok := Reserve(p);
      if ok {
        ok := Overwrite(p, req);
        if ok {
          assert ring[..] == before[k := Slot(p + 1, req.priority, e)];
          HoldsReplaced(before, depth, consumerPos, queue, i, e);
          queue := queue[i := e];
        }
      }
    }

    /** A HIGH message replaces the oldest lower-priority message behind the first, or nothing happens. */
    method TryEvictAndPublish(req: Request) returns (ok: bool)
      requires Valid() && req.priority == High
      modifies this, ring
      ensures Valid() && dispatched == old(dispatched) && cachedPos == old(cachedPos) && consumerPos == old(consumerPos)
      ensures ok == Victim(old(queue), 1).Some?
      ensures ok ==> queue == old(queue)[Victim(old(queue), 1).value := EnvelopeOf(req, old(nextId))]
                     && nextId == old(nextId) + 1
                     && stats == old(stats).(dropped := old(stats).dropped + 1, published := old(stats).published + 1)
      ensures !ok ==> queue == old(queue) && nextId == old(nextId) && stats == old(stats)
    {
      var prod, cons := producerPos, consumerPos;
      for i := 1 to depth
        invariant Valid() && queue == old(queue) && nextId == old(nextId) && stats == old(stats)
        invariant dispatched == old(dispatched) && cachedPos == old(cachedPos)
        invariant producerPos == prod && consumerPos == cons
        invariant Victim(queue, i) == Victim(queue, 1) && (queue == [] || i <= |queue|)
      {
        if cons + i == prod {
          break;
        }
        ok := TryEvict(i, req);
        if ok {
          stats := stats.(dropped := stats.dropped + 1);
          stats := stats.(published := stats.published + 1);
          return;
        }
      }
      return false;
    }

    /** The cached position shows too many messages for this priority, so that the real one is read. */
    ghost predicate Rechecks(req: Request)
      reads this
    {
      DepthAtLeast(producerPos, cachedPos, Threshold(depth, req.priority))
    }

    /** The admission check: it lets a message through exactly when fewer messages are pending than its priority
        allows. The cached position is refreshed, and the recheck counted, exactly when it shows too many. */
    method Admit(req: Request) returns (ok: bool)
      requires Valid()
      modifies this`cachedPos, this`stats
      ensures Valid()
      ensures ok <==> match req.priority
                      case Low => 100 * (|queue| + 1) <= 60 * depth
                      case Medium => 100 * (|queue| + 1) <= 80 * depth
                      case High => 100 * (|queue| + 1) <= 99 * depth
      ensures cachedPos == if old(Rechecks(req)) then consumerPos else old(cachedPos)
      ensures stats == old(stats).(rechecks := old(stats).rechecks + if old(Rechecks(req)) then 1 else 0)
    {
      var threshold := Threshold(depth, req.priority);
      var prod := producerPos;
      if DepthAtLeast(prod, cachedPos, threshold) {
        var actual := consumerPos;
        cachedPos := actual;
        stats := stats.(rechecks := stats.rechecks + 1);
        return !DepthAtLeast(prod, actual, threshold);
      }
      return true;
    }

    /** The claiming loop, whose weak exchange fails spuriously `spurious` times: it ends with the next position, or
        with the queue found full. */
    method ClaimPosition(spurious: nat) returns (ok: bool, pos: nat)
      requires Valid()
      modifies this`producerPos, this`stats
      ensures ok == (|queue| < depth) && producerPos == old(producerPos) + if ok then 1 else 0
      ensures ok ==> pos == old(producerPos)
      ensures stats == old(stats).(dropped := old(stats).dropped + if ok then 0 else 1)
    {
      var left := spurious;
      ok, pos := false, 0;
      while !ok
        invariant if ok then |queue| < depth && pos == old(producerPos) && producerPos == pos + 1
                  else producerPos == old(producerPos)
        invariant stats == old(stats)
        decreases !ok, left
      {
        pos := producerPos;
        NextSlot(ring[..], depth, consumerPos, queue);
        if ring[Index(pos, depth)].sequence != pos && depth <= pos - consumerPos {
          stats := stats.(dropped := stats.dropped + 1);
          return false, pos;
        }
        if left > 0 {
          left := left - 1;
        } else {
          producerPos := pos + 1;
          ok := true;
        }
      }
    }

    /** The claimed position, the next one, is filled. */
    method Append(pos: nat, req: Request)
      requires Holds(ring[..], depth, consumerPos, queue) && ring.Length == depth && |queue| < depth
      requires pos == consumerPos + |queue|
      modifies ring, this`nextId, this`queue
      ensures Holds(ring[..], depth, consumerPos, queue) && nextId == old(nextId) + 1
      ensures queue == old(queue) + [EnvelopeOf(req, old(nextId))]
    {
      ghost var before, e := ring[..], EnvelopeOf(req, nextId);
      Fill(pos, req);
      HoldsOneMore(before, depth, consumerPos, queue, e);
      queue := queue + [e];
    }

    /** The message goes to the next position, or the queue is full and the message is dropped. */
    method Claim(req: Request, spurious: nat) returns (ok: bool)
      requires Valid()
      modifies this, ring
      ensures Valid() && ok == (|old(queue)| < depth) && nextId == old(nextId) + if ok then 1 else 0
      ensures queue == if ok then old(queue) + [EnvelopeOf(req, old(nextId))] else old(queue)
      ensures stats == if ok then old(stats).(published := old(stats).published + 1)
                       else old(stats).(dropped := old(stats).dropped + 1)
      ensures dispatched == old(dispatched) && consumerPos == old(consumerPos) && cachedPos == old(cachedPos)
    {
      var pos;
      ok, pos := ClaimPosition(spurious);
      if ok {
        Append(pos, req);
        stats := stats.(published := stats.published + 1);
      }
    }

    /** Publishing: below the threshold of its priority a message is appended; a HIGH message above it
        replaces a lower one; anything else is dropped. Exhausted identifiers refuse everything. */
    method PublishInternal(req: Request, spurious: nat) returns (ok: bool)
      requires Valid()
      modifies this, ring
      ensures Valid() && dispatched == old(dispatched) && nextId == old(nextId) + if ok then 1 else 0
      ensures var e := Envelope(Header(old(nextId), req.timestamp, req.sender, req.topic, req.priority), req.payload);
              var victim := Victim(old(queue), 1);
              var room := 100 * (|old(queue)| + 1) <= depth * match req.priority
                                                               case Low => 60
                                                               case Medium => 80
                                                               case High => 99;
              var was := old(stats);
              var counted := was.(rechecks := was.rechecks + if old(Rechecks(req)) then 1 else 0);
              if old(nextId) >= 0xFFFF_FFFF_FFFF_FFFF - 10000 then !ok && queue == old(queue) && stats == was
              else if room then ok && queue == old(queue) + [e] && stats == counted.(published := was.published + 1)
              else if req.priority == High && victim.Some? then
                && ok && queue == old(queue)[victim.value := e]
                && stats == counted.(published := was.published + 1, dropped := was.dropped + 1)
              else !ok && queue == old(queue) && stats == counted.(dropped := was.dropped + 1)
      ensures cachedPos ==
              if old(nextId) < MSG_ID_WRAP_THRESHOLD && old(Rechecks(req)) then old(consumerPos) else old(cachedPos)
    {
      if nextId >= MSG_ID_WRAP_THRESHOLD {
        return false;
      }
      var admitted := Admit(req);
      if !admitted {
        if req.priority == High {
          ok := TryEvictAndPublish(req);
          if ok {
            return;
          }
        }
        stats := stats.(dropped := stats.dropped + 1);
        return false;
      }
      ThresholdBelowDepth(depth, req.priority);
      ok := Claim(req, spurious);
    }

    /** One message leaves the ring: taken, dispatched, and its slot freed for the next lap. */
    method Take(pos: nat)
      requires ring.Length == depth && Holds(ring[..], depth, pos, queue) && queue != []
      modifies ring, this`dispatched, this`queue
      ensures Holds(ring[..], depth, pos + 1, queue)
      ensures queue == old(queue)[1..] && dispatched == old(dispatched) + [old(queue)[0]]
    {
      var k := Index(pos, depth);
      PendingSlot(ring[..], depth, pos, queue, 0);
      ring[k] := ring[k].(sequence := pos + 1 + depth);
      dispatched := dispatched + [ring[k].envelope];
      ring[k] := ring[k].(sequence := pos + depth);
      ghost var slot := Slot(pos + depth, queue[0].header.priority, queue[0]);
      assert ring[..] == old(ring[..])[k := slot];
      HoldsOneLess(old(ring[..]), depth, pos, queue, slot);
      queue := queue[1..];
    }

    /** The loop of a batch: message after message from `pos` on, until the batch is full or a slot is not published. */
    method Drain(pos: nat) returns (processed: nat)
      requires ring.Length == depth && Holds(ring[..], depth, pos, queue)
      modifies ring, this`dispatched, this`queue
      ensures processed == if batch < |old(queue)| then batch else |old(queue)|
      ensures Holds(ring[..], depth, pos + processed, queue)
      ensures queue == old(queue)[processed..] && dispatched == old(dispatched) + old(queue)[..processed]
    {
      processed := 0;
      while processed < batch
        invariant processed <= batch && processed <= |old(queue)|
        invariant Holds(ring[..], depth, pos + processed, queue)
        invariant queue == old(queue)[processed..] && dispatched == old(dispatched) + old(queue)[..processed]
      {
        PendingSlot(ring[..], depth, pos + processed, queue, 0);
        if ring[Index(pos + processed, depth)].sequence != pos + processed + 1 {
          break;
        }
        Take(pos + processed);
        OneFurther(old(queue), processed);
        processed := processed + 1;
      }
    }

    /** A batch: the oldest messages, in order, at most `batch` of them. The position is stored at the end. */
    method ProcessBatch() returns (processed: nat)
      requires Valid()
      modifies this, ring
      ensures Valid() && processed == if batch < |old(queue)| then batch else |old(queue)|
      ensures queue == old(queue)[processed..] && dispatched == old(dispatched) + old(queue)[..processed]
      ensures stats == old(stats).(processed := old(stats).processed + processed) && nextId == old(nextId)
    {
      var pos := consumerPos;
      processed := Drain(pos);
      if processed > 0 {
        consumerPos := pos + processed;
        stats := stats.(processed := stats.processed + processed);
      }
    }
  }

  lemma ThresholdBelowDepth(depth: nat, p: Priority)
    requires depth >= 2
    ensures Threshold(depth, p) < depth
  {
  }
}
