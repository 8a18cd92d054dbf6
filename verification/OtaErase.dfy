/** What START leaves of the flash: which bytes the erase loop blanks, when it fails, and when the whole region of the
    session is blank. */
module OtaErase {
  import opened Octets
  import opened OtaDevice
  import opened OtaLink
  import opened OtaTrack
  import H = OtaHost

  /** How many bytes the loop erases: a sector for every address from `at` in steps of a sector. */
  function Span(sector: nat, at: nat, end: nat): nat
    requires sector > 0
    decreases end - at
  {
    if at >= end then 0 else sector + Span(sector, at + sector, end)
  }

  /** The span is the length of the region rounded up to whole sectors. */
  lemma {:induction false} SpanIsRounded(sector: nat, at: nat, end: nat) returns (n: nat)
    requires sector > 0
    ensures Span(sector, at, end) == n * sector
    ensures at < end ==> end - at <= Span(sector, at, end) < end - at + sector
    decreases end - at
  {
    n := 0;
    if at < end {
      var rest := SpanIsRounded(sector, at + sector, end);
      n := rest + 1;
    }
  }

  lemma {:induction false} AlignedIsMultiple(at: nat, sector: nat) returns (n: nat)
    requires sector > 0
    ensures Aligned(at, sector) == n * sector
  {
    n := 0;
    if at >= sector {
      var before := AlignedIsMultiple(at - sector, sector);
      n := before + 1;
    }
  }

  lemma StoredNext(flash: seq<Byte>, a: nat, m: nat, n: nat)
    requires a + m + n <= |flash|
    ensures Stored(Stored(flash, a, Blank(m)), a + m, Blank(n)) == Stored(flash, a, Blank(m + n))
  {
  }

  lemma AlignedNext(at: nat, sector: nat)
    requires sector > 0
    ensures Aligned(at + sector, sector) == Aligned(at, sector) + sector
  {
  }

  /** `e` is what erasing `n` bytes from `a` on makes of the flash. */
  predicate Blanks(flash: seq<Byte>, a: nat, n: nat, e: Erased) {
    (e.ok <==> a + n <= |flash|) && (e.ok ==> e.flash == Stored(flash, a, Blank(n)))
  }

  lemma BlanksNext(flash: seq<Byte>, a: nat, m: nat, n: nat, one: Erased, e: Erased)
    requires Blanks(flash, a, m, one) && one.ok && Blanks(one.flash, a + m, n, e)
    ensures Blanks(flash, a, m + n, e)
  {
    if e.ok {
      StoredNext(flash, a, m, n);
    }
  }

  /** The loop succeeds exactly if the flash holds the sectors of the span, and then blanks those and nothing else. */
  lemma {:induction false} EraseBlanksTheSpan(flash: seq<Byte>, sector: nat, at: nat, end: nat)
    requires sector > 0 && at < end
    ensures Blanks(flash, Aligned(at, sector), Span(sector, at, end), EraseFrom(flash, sector, at, end))
    decreases end - at
  {
    var a, one := Aligned(at, sector), EraseOne(flash, sector, at);
    EraseStep(flash, sector, at, end, one);
    assert Blanks(flash, a, sector, one);
    if at + sector >= end {
      assert Span(sector, at, end) == sector + Span(sector, at + sector, end) == sector;
    } else if one.ok {
      EraseBlanksTheSpan(one.flash, sector, at + sector, end);
      AlignedNext(at, sector);
      BlanksNext(flash, a, sector, Span(sector, at + sector, end), one,
                 EraseFrom(one.flash, sector, at + sector, end));
    }
  }

  predicate BlankFrom(flash: seq<Byte>, from: nat, to: nat) {
    forall i :: from <= i < to && i < |flash| ==> flash[i] == 0xFF
  }

  lemma StoredBlank(flash: seq<Byte>, a: nat, n: nat, at: nat, end: nat)
    requires a <= at < end <= at + n && at < a + n <= |flash|
    ensures BlankFrom(Stored(flash, a, Blank(n)), at, end) <==> BlankFrom(flash, a + n, end)
  {
    var after := Stored(flash, a, Blank(n));
    assert forall i :: 0 <= i < |flash| ==> after[i] == if a <= i < a + n then 0xFF else flash[i];
    if BlankFrom(after, at, end) {
      forall i | a + n <= i < end && i < |flash| ensures flash[i] == 0xFF {
        assert after[i] == flash[i];
      }
    }
  }

  /** The region is blank after erasing exactly if what lies behind the erased sectors was blank before. */
  lemma RegionIsBlankIff(flash: seq<Byte>, sector: nat, at: nat, end: nat)
    requires sector > 0 && at < end && EraseFrom(flash, sector, at, end).ok
    ensures var behind := Aligned(at, sector) + Span(sector, at, end);
            BlankFrom(EraseFrom(flash, sector, at, end).flash, at, end) <==> BlankFrom(flash, behind, end)
  {
    var a, n := Aligned(at, sector), Span(sector, at, end);
    EraseBlanksTheSpan(flash, sector, at, end);
    var _ := SpanIsRounded(sector, at, end);
    StoredBlank(flash, a, n, at, end);
  }

  lemma {:induction false} MultiplesApart(m: nat, n: nat, sector: nat)
    requires m < n
    ensures m * sector + sector <= n * sector
  {
    if m + 1 < n {
      MultiplesApart(m, n - 1, sector);
    }
  }

  /** Nothing of the region lies behind them exactly if the region and the bytes before it in its first sector together
      need no more sectors than the region alone. */
  lemma SpanCovers(sector: nat, at: nat, end: nat)
    requires sector > 0 && at < end
    ensures var a := Aligned(at, sector);
            a + Span(sector, at, end) >= end <==> Span(sector, a, end) == Span(sector, at, end)
  {
    var a := Aligned(at, sector);
    var m := SpanIsRounded(sector, at, end);
    var n := SpanIsRounded(sector, a, end);
    SpanGrows(sector, a, at, end);
    CoversBy(sector, at - a, end - at, m, n);
  }

  lemma CoversBy(sector: nat, before: nat, size: nat, m: nat, n: nat)
    requires m * sector <= n * sector && before + size <= n * sector < before + size + sector
    ensures m * sector >= before + size <==> m * sector == n * sector
  {
    if m < n {
      MultiplesApart(m, n, sector);
    } else if n < m {
      MultiplesApart(n, m, sector);
    }
  }

  lemma {:induction false} SpanGrows(sector: nat, a: nat, at: nat, end: nat)
    requires sector > 0 && a <= at
    ensures Span(sector, at, end) <= Span(sector, a, end)
    decreases end - a
  {
    if a < end {
      SpanGrows(sector, a + sector, at + sector, end);
    }
  }

  /** What START makes of an idle device. */
  lemma StartErases(d: Device, plan: H.Plan)
    requires H.Valid(plan) && DeviceFits(d) && d.state == Idle
    ensures var b, e := Started(d, plan), EraseFrom(d.flash, d.sector, plan.start, plan.start + |plan.fw|);
            b.flash == e.flash && (b.state == Receiving <==> e.ok)
  {
  }

  /** START on an idle device: the session begins exactly if the sectors are there; then they are blank, nothing else
      has changed, and the region is blank exactly if what lies behind them was. */
  lemma StartBlanksIff(d: Device, plan: H.Plan)
    requires H.Valid(plan) && DeviceFits(d) && d.state == Idle
    ensures var b, end := Started(d, plan), plan.start + |plan.fw|;
            var a, n := Aligned(plan.start, d.sector), Span(d.sector, plan.start, end);
            && (b.state == Receiving <==> a + n <= |d.flash|)
            && (b.state == Receiving ==>
                  && b.flash == Stored(d.flash, a, Blank(n))
                  && (BlankFrom(b.flash, plan.start, end) <==> BlankFrom(d.flash, a + n, end)))
  {
    var end := plan.start + |plan.fw|;
    StartErases(d, plan);
    EraseBlanksTheSpan(d.flash, d.sector, plan.start, end);
    if EraseFrom(d.flash, d.sector, plan.start, end).ok {
      RegionIsBlankIff(d.flash, d.sector, plan.start, end);
    }
  }

  /** A region that starts inside a sector can keep old bytes: two bytes from address 1, with sectors of two. */
  lemma RegionKeepsByte(x: Byte)
    requires x != 0xFF
    ensures var e := EraseFrom([0, 0, x, 0], 2, 1, 3); e.ok && e.flash == [0xFF, 0xFF, x, 0]
  {
    var flash := [0, 0, x, 0];
    EraseBlanksTheSpan(flash, 2, 1, 3);
    assert Span(2, 1, 3) == 2 + Span(2, 3, 3) == 2;
    assert Stored(flash, 0, Blank(2)) == [0xFF, 0xFF, x, 0];
  }
}
