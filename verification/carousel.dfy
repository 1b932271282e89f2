/**
 The carousel's index controller. The only state is the current index into a
 list of `n` slides; the arrows, the dot indicators and the autoplay timer all
 move it with the transitions below. Each transition is a total function of
 the index and the list length, as in the component; the lemmas carry the
 invariant `0 <= i < n` that the component maintains from its initial index 0.
 */
module Carousel {

  /** The index shown when the carousel mounts. */
  const InitialIndex := 0

  predicate ValidIndex(i: int, n: nat) {
    0 <= i < n
  }

  /** `goToNext`: wrap from the last slide to the first, otherwise step forward. */
  function Next(i: int, n: nat): (r: int)
    ensures ValidIndex(i, n) ==> ValidIndex(r, n) && r == (i + 1) % n
  {
    if i == n - 1 then 0 else i + 1
  }

  /** `goToPrevious`: wrap from the first slide to the last, otherwise step back. */
  function Previous(i: int, n: nat): (r: int)
    ensures ValidIndex(i, n) ==> ValidIndex(r, n) && r == (i - 1 + n) % n
  {
    if i == 0 then n - 1 else i - 1
  }

  /** `goToSlide`: jump to the given index. */
  function GoToSlide(index: int): (r: int)
    ensures r == index
  {
    index
  }

  /** The indices the dot indicators pass to `goToSlide`: one dot per slide
      when dots are enabled, and no dots at all unless there are at least two
      slides. */
  function DotTargets(n: nat, showDots: bool): (dots: seq<int>)
    ensures !showDots || n <= 1 ==> dots == []
    ensures showDots && n > 1 ==> |dots| == n
    ensures forall k :: 0 <= k < |dots| ==> dots[k] == k && ValidIndex(dots[k], n)
  {
    if !showDots || n <= 1 then [] else seq(n, k => k)
  }

  /** The arrows are rendered only when enabled and there is more than one slide. */
  predicate ArrowsShown(showArrows: bool, n: nat) {
    showArrows && n > 1
  }

  /** A click on the right (`forward`) or left arrow. Without rendered arrows
      there is nothing to click, and the index stays where it is. */
  function ArrowClick(i: int, n: nat, showArrows: bool, forward: bool): (r: int)
    ensures !ArrowsShown(showArrows, n) ==> r == i
    ensures ArrowsShown(showArrows, n) && ValidIndex(i, n) ==>
      ValidIndex(r, n) && r == (if forward then (i + 1) % n else (i - 1 + n) % n)
  {
    if !ArrowsShown(showArrows, n) then i
    else if forward then Next(i, n)
    else Previous(i, n)
  }

  /** The autoplay timer exists only when autoplay is on and there is more than one slide. */
  predicate AutoPlayActive(autoPlay: bool, n: nat) {
    autoPlay && n > 1
  }

  /** One firing of the autoplay interval: `goToNext` when the timer is
      installed, no change otherwise. */
  function Tick(i: int, n: nat, autoPlay: bool): (r: int)
    ensures AutoPlayActive(autoPlay, n) && ValidIndex(i, n) ==> r == (i + 1) % n
    ensures !AutoPlayActive(autoPlay, n) ==> r == i
  {
    if AutoPlayActive(autoPlay, n) then Next(i, n) else i
  }

  /** `k` successive applications of `goToNext`. */
  function NextN(i: int, n: nat, k: nat): int
    decreases k
  {
    if k == 0 then i else Next(NextN(i, n, k - 1), n)
  }

  /** Autoplay over `ticks` timer firings, starting from index `i`. */
  method AutoPlay(i: int, n: nat, autoPlay: bool, ticks: nat) returns (j: int)
    requires ValidIndex(i, n)
    ensures ValidIndex(j, n)
    ensures AutoPlayActive(autoPlay, n) ==> j == NextN(i, n, ticks) == (i + ticks) % n
    ensures !AutoPlayActive(autoPlay, n) ==> j == i
  {
    j := i;
    var t := 0;
    ModUnique(i, n, 0, i);
    while t < ticks
      invariant 0 <= t <= ticks
      invariant ValidIndex(j, n)
      invariant AutoPlayActive(autoPlay, n) ==> j == NextN(i, n, t) == (i + t) % n
      invariant !AutoPlayActive(autoPlay, n) ==> j == i
    {
      if AutoPlayActive(autoPlay, n) {
        var a := i + t;
        ModStep(a, n);
        assert Next(j, n) == (a % n + 1) % n;
        assert a + 1 == i + (t + 1);
      }
      j := Tick(j, n, autoPlay);
      t := t + 1;
    }
  }

  // ---------------------------------------------------------------------------
  // Properties
  // ---------------------------------------------------------------------------

  /** The remainder is determined by any decomposition with a remainder in range. */
  lemma ModUnique(a: int, n: nat, q: int, r: int)
    requires n > 0
    requires a == q * n + r
    requires 0 <= r < n
    ensures a % n == r
  {
    var q0, r0 := a / n, a % n;
    assert a == q0 * n + r0;
    var d := q - q0;
    assert d * n == r0 - r by {
      assert q * n - q0 * n == (q - q0) * n;
    }
  }

  /** Stepping the remainder forward agrees with stepping the number forward. */
  lemma ModStep(a: int, n: nat)
    requires n > 0
    ensures (a % n + 1) % n == (a + 1) % n
  {
    var q, r := a / n, a % n;
    assert a == q * n + r;
    if r == n - 1 {
      assert a + 1 == (q + 1) * n + 0;
      ModUnique(a + 1, n, q + 1, 0);
      ModUnique(r + 1, n, 1, 0);
    } else {
      ModUnique(a + 1, n, q, r + 1);
      ModUnique(r + 1, n, 0, r + 1);
    }
  }

  /** `goToPrevious` undoes `goToNext`. */
  lemma PreviousAfterNext(i: int, n: nat)
    requires ValidIndex(i, n)
    ensures Previous(Next(i, n), n) == i
  {
  }

  /** `goToNext` undoes `goToPrevious`. */
  lemma NextAfterPrevious(i: int, n: nat)
    requires ValidIndex(i, n)
    ensures Next(Previous(i, n), n) == i
  {
  }

  /** `k` steps forward land on `(i + k) mod n`. */
  lemma {:induction false} NextNIsModular(i: int, n: nat, k: nat)
    requires ValidIndex(i, n)
    ensures NextN(i, n, k) == (i + k) % n
  {
    if k == 0 {
      ModUnique(i, n, 0, i);
    } else {
      var a := i + k - 1;
      var prev := NextN(i, n, k - 1);
      NextNIsModular(i, n, k - 1);
      assert prev == a % n;
      ModStep(a, n);
      assert Next(prev, n) == (a % n + 1) % n;
      assert a + 1 == i + k;
    }
  }

  /** `n` steps forward return to the starting slide. */
  lemma FullCycle(i: int, n: nat)
    requires ValidIndex(i, n)
    ensures NextN(i, n, n) == i
  {
    NextNIsModular(i, n, n);
    ModUnique(i + n, n, 1, i);
  }

  /** With a single slide both arrows keep index 0 and a tick changes nothing. */
  lemma SingleSlideIsFixed(autoPlay: bool)
    ensures Next(0, 1) == 0 && Previous(0, 1) == 0 && Tick(0, 1, autoPlay) == 0
  {
  }

  /** Clicking any dot selects exactly that slide, which is a valid index. */
  lemma DotSelectsItsSlide(n: nat, showDots: bool, k: int)
    requires 0 <= k < |DotTargets(n, showDots)|
    ensures GoToSlide(DotTargets(n, showDots)[k]) == k && ValidIndex(k, n)
  {
  }

  /** Three slides: previous from the first wraps to the last, and three
      nexts return to the first. */
  lemma ThreeSlideExample()
    ensures Previous(InitialIndex, 3) == 2
    ensures NextN(InitialIndex, 3, 3) == InitialIndex
  {
  }
}
