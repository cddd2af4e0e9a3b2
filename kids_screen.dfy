/** The kids screen: the cartoon carousel index with wrap-around at both ends,
    its pages of two drawings, and the parental button. */
module KidsScreen {

  /** The drawings shown: `[1, 2, ..., 8]`. */
  const Drawings: seq<int> := [1, 2, 3, 4, 5, 6, 7, 8]
  const ItemsPerPage: nat := 2

  /** `Math.ceil(a / b)` for naturals. */
  function CeilDiv(a: nat, b: nat): (q: nat)
    requires b > 0
    ensures (q - 1) * b < a <= q * b || (a == 0 && q == 0)
  {
    if a == 0 then 0 else (a - 1) / b + 1
  }

  /** `Math.ceil(drawings.length / itemsPerPage) - 1`. */
  function MaxIndex(): (m: int)
    ensures m == 3
  {
    CeilDiv(|Drawings|, ItemsPerPage) - 1
  }

  /** `nextCartoon`'s updater. */
  function NextCartoon(prev: int): int {
    if prev < MaxIndex() then prev + 1 else 0
  }

  /** `prevCartoon`'s updater. */
  function PrevCartoon(prev: int): int {
    if prev > 0 then prev - 1 else MaxIndex()
  }

  /** From any index (even one outside the range), both buttons land in `[0, maxIndex]`. */
  lemma StepsStayInRange(i: int)
    requires 0 <= i
    ensures 0 <= NextCartoon(i) <= MaxIndex()
    ensures i <= MaxIndex() + 1 ==> 0 <= PrevCartoon(i) <= MaxIndex()
  {
  }

  /** Next then previous, and previous then next, restore an index in range;
      next wraps from the last page to the first and previous the other way. */
  lemma CarouselRoundTrip(i: int)
    requires 0 <= i <= MaxIndex()
    ensures PrevCartoon(NextCartoon(i)) == i
    ensures NextCartoon(PrevCartoon(i)) == i
    ensures NextCartoon(MaxIndex()) == 0 && PrevCartoon(0) == MaxIndex()
  {
  }

  /** Pressing next `k` times. */
  function NextTimes(i: int, k: nat): int {
    if k == 0 then i else NextCartoon(NextTimes(i, k - 1))
  }

  /** Four presses of next come back to the start: the carousel is a cycle of
      the four pages. */
  lemma CarouselCycle(i: int)
    requires 0 <= i <= MaxIndex()
    ensures NextTimes(i, 4) == i
    ensures forall k :: 0 < k < 4 ==> NextTimes(i, k) != i
  {
    assert NextTimes(i, 1) == NextCartoon(i);
    assert NextTimes(i, 2) == NextCartoon(NextCartoon(i));
    assert NextTimes(i, 3) == NextCartoon(NextCartoon(NextCartoon(i)));
  }

  // ---------------------------------------------------------------------------
  // Pages
  // ---------------------------------------------------------------------------

  function Min(a: int, b: int): int { if a <= b then a else b }

  /** `s.slice(start, end)` for `0 <= start <= end`: both ends clamp to the length. */
  function Slice<T>(s: seq<T>, start: nat, end: nat): (r: seq<T>)
    requires start <= end
    ensures |r| == Min(end, |s|) - Min(start, |s|)
    ensures forall i :: 0 <= i < |r| ==> r[i] == s[start + i]
  {
    s[Min(start, |s|)..Min(end, |s|)]
  }

  /** Page `p`: `drawings.slice(p * per, (p + 1) * per)`. */
  function Page<T>(s: seq<T>, per: nat, p: nat): seq<T>
    requires per > 0
  {
    Slice(s, p * per, (p + 1) * per)
  }

  /** The number of pages rendered: `Math.ceil(length / per)`. */
  function PageCount<T>(s: seq<T>, per: nat): nat
    requires per > 0
  {
    CeilDiv(|s|, per)
  }

  /** The first `k` pages laid end to end. */
  function PagesUpTo<T>(s: seq<T>, per: nat, k: nat): seq<T>
    requires per > 0
  {
    if k == 0 then [] else PagesUpTo(s, per, k - 1) + Page(s, per, k - 1)
  }

  lemma {:induction false} PagesUpToIsPrefix<T>(s: seq<T>, per: nat, k: nat)
    requires per > 0
    ensures PagesUpTo(s, per, k) == s[..Min(k * per, |s|)]
  {
    if k > 0 {
      PagesUpToIsPrefix(s, per, k - 1);
      assert k * per == (k - 1) * per + per;
      var lo := Min((k - 1) * per, |s|);
      var hi := Min(k * per, |s|);
      assert s[..hi] == s[..lo] + s[lo..hi];
    }
  }

  /** The pages partition the drawings in order: laid end to end they give the
      whole list back, each drawing exactly once. */
  lemma PagesPartition<T>(s: seq<T>, per: nat)
    requires per > 0
    ensures PagesUpTo(s, per, PageCount(s, per)) == s
    ensures forall p :: 0 <= p < PageCount(s, per) ==> 0 < |Page(s, per, p)| <= per
  {
    PagesUpToIsPrefix(s, per, PageCount(s, per));
    forall p | 0 <= p < PageCount(s, per) ensures 0 < |Page(s, per, p)| <= per {
      assert p * per < |s| by {
        assert p <= PageCount(s, per) - 1;
        MulMonotone(p, PageCount(s, per) - 1, per);
      }
      assert (p + 1) * per == p * per + per;
    }
  }

  lemma MulMonotone(a: nat, b: nat, c: nat)
    requires a <= b
    ensures a * c <= b * c
  {
  }

  /** The carousel shows four pages of two drawings each. */
  lemma KidsPages()
    ensures PageCount(Drawings, ItemsPerPage) == MaxIndex() + 1 == 4
    ensures Page(Drawings, ItemsPerPage, 0) == [1, 2] && Page(Drawings, ItemsPerPage, 3) == [7, 8]
  {
  }

  // ---------------------------------------------------------------------------
  // The parental button
  // ---------------------------------------------------------------------------

  datatype ParentalAction = RequestExit | EnableKidsAndGoHome

  /** `handleParentalClick`: in kids mode, only the PIN request; otherwise kids
      mode is switched on and the app navigates to `/home`. */
  function ParentalClick(isKidsMode: bool): (a: ParentalAction)
    ensures a == RequestExit <==> isKidsMode
  {
    if isKidsMode then RequestExit else EnableKidsAndGoHome
  }
}
