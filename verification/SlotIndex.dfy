/** Position-to-slot arithmetic of a ring buffer of `depth` slots. */
module SlotIndex {

  /** The slot that holds position `p`: the remainder of `p` by `depth`, which is
      what masking with `depth - 1` computes for a power-of-two depth. */
  function Index(p: nat, depth: nat): (r: nat)
    requires depth >= 1
    ensures r < depth
  {
    if p < depth then p else Index(p - depth, depth)
  }

  /** `Index` is the remainder. */
  lemma {:induction false} IndexIsRemainder(p: nat, depth: nat)
    requires depth >= 1
    ensures Index(p, depth) == p % depth
  {
    if p >= depth {
      IndexIsRemainder(p - depth, depth);
      RemainderStep(p - depth, depth);
    } else {
      RemainderBelow(p, depth);
    }
  }

  lemma RemainderBelow(p: nat, depth: nat)
    requires p < depth
    ensures p % depth == p
  {}

  lemma RemainderStep(p: nat, depth: nat)
    requires depth >= 1
    ensures (p + depth) % depth == p % depth
  {
    var sum := p + depth;
    UniqueDivision(sum / depth, sum % depth, p / depth + 1, p % depth, depth);
  }

  lemma UniqueDivision(q: int, r: int, q': int, r': int, depth: nat)
    requires 0 <= r < depth && 0 <= r' < depth
    requires q * depth + r == q' * depth + r'
    ensures r == r'
  {
    MultipleOutside(q' - q, depth);
    assert r - r' == (q' - q) * depth;
  }

  lemma MultipleOutside(d: int, depth: nat)
    ensures d >= 1 ==> d * depth >= depth
    ensures d <= -1 ==> d * depth + depth <= 0
  {}

  /** Two different positions less than a lap apart use different slots. */
  lemma {:induction false} DistinctSlots(p: nat, q: nat, depth: nat)
    requires p < q < p + depth
    ensures Index(p, depth) != Index(q, depth)
  {
    if depth <= p {
      DistinctSlots(p - depth, q - depth, depth);
    }
  }

  /** A position and the one a lap later share a slot. */
  lemma NextLap(p: nat, depth: nat)
    requires depth >= 1
    ensures Index(p + depth, depth) == Index(p, depth)
  {}

  /** Every slot holds exactly one position of each lap-long window; this names it. */
  function PositionIn(window: nat, p: nat, depth: nat): (q: nat)
    requires depth >= 1 && p < window + depth
    ensures window <= q < window + depth && p <= q
    ensures Index(q, depth) == Index(p, depth)
    ensures q == p || p + depth <= q
    decreases window + depth - p
  {
    if window <= p then p else
      NextLap(p, depth);
      PositionIn(window, p + depth, depth)
  }
}
