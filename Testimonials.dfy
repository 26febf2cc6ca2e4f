/**
 * The testimonial carousel: a current index over the testimonial list,
 * moved by the previous/next buttons and by the dot indicators, and the
 * gradient lookup table that colours the current card.
 */
module Testimonials {
  import opened Wrappers

  datatype Testimonial = Testimonial(
    id: nat, name: string, position: string, initials: string,
    gradientFrom: string, gradientTo: string)

  /** The testimonials shown; entries 4 to 6 are commented out in the component. */
  const TestimonialData: seq<Testimonial> := [
    Testimonial(1, "Koustubh Pande", "Full Stack Developer, Delivo", "KP", "from-purple-400", "to-pink-500"),
    Testimonial(2, "Masoom Raza", "Founder, Amayra Ethnic Collections", "MR", "from-blue-400", "to-teal-500"),
    Testimonial(3, "MD Shaheem", "Owner, Taxify Global", "MS", "from-yellow-400", "to-orange-500")
  ]

  datatype Gradient = Gradient(from: string, to: string, light: string, darkLight: string)

  /** The gradient table, keyed by testimonial index. */
  const Gradients: map<int, Gradient> := map[
    0 := Gradient("#a855f7", "#ec4899", "rgba(236, 72, 153, 0.05)", "rgba(236, 72, 153, 0.1)"),
    1 := Gradient("#3b82f6", "#14b8a6", "rgba(20, 184, 166, 0.05)", "rgba(20, 184, 166, 0.1)"),
    2 := Gradient("#facc15", "#f97316", "rgba(249, 115, 22, 0.05)", "rgba(249, 115, 22, 0.1)"),
    3 := Gradient("#22c55e", "#3b82f6", "rgba(59, 130, 246, 0.05)", "rgba(59, 130, 246, 0.1)"),
    4 := Gradient("#ec4899", "#a855f7", "rgba(168, 85, 247, 0.05)", "rgba(168, 85, 247, 0.1)"),
    5 := Gradient("#ef4444", "#facc15", "rgba(250, 204, 21, 0.05)", "rgba(250, 204, 21, 0.1)")
  ]

  /** Looking an index up in the table; an index without an entry gives `undefined`. */
  function GradientColors(index: int): (r: Option<Gradient>)
    ensures r.Some? <==> 0 <= index <= 5
    ensures r.Some? ==> r.value == Gradients[index]
  {
    if index in Gradients then Some(Gradients[index]) else None
  }

  /** Every index the carousel can reach has gradient colours. */
  lemma ReachableIndicesHaveGradients(index: int)
    requires 0 <= index < |TestimonialData|
    ensures GradientColors(index).Some?
  {
  }

  /** The next button: modular increment (operands are non-negative, so `%` agrees with JavaScript's). */
  function NextIndex(i: nat, n: nat): (r: nat)
    requires 0 < n
    ensures r < n
    ensures i + 1 < n ==> r == i + 1
    ensures i + 1 == n ==> r == 0
  {
    (i + 1) % n
  }

  /** The previous button: decrement, wrapping 0 round to the last index. */
  function PrevIndex(i: nat, n: nat): (r: int)
    requires 0 < n
    ensures i == 0 ==> r == n - 1
    ensures 0 < i ==> r == i - 1
    ensures i < n ==> 0 <= r < n
  {
    if i == 0 then n - 1 else i - 1
  }

  /** Previous undoes next on every in-range index. */
  lemma PrevUndoesNext(i: nat, n: nat)
    requires i < n
    ensures PrevIndex(NextIndex(i, n), n) == i
  {
  }

  /** Next undoes previous on every in-range index. */
  lemma NextUndoesPrev(i: nat, n: nat)
    requires i < n
    ensures PrevIndex(i, n) >= 0 && NextIndex(PrevIndex(i, n), n) == i
  {
  }

  /** The index after pressing next `k` times. */
  function NextTimes(i: nat, k: nat, n: nat): (r: nat)
    requires 0 < n
    ensures r < n || (k == 0 && r == i)
  {
    if k == 0 then i else NextIndex(NextTimes(i, k - 1, n), n)
  }

  /** Within one cycle, pressing next `k` times advances the index by `k`, wrapping once past the end. */
  lemma {:induction false} NextTimesAdvances(i: nat, k: nat, n: nat)
    requires i < n && k <= n
    ensures NextTimes(i, k, n) == if i + k < n then i + k else i + k - n
  {
    if k > 0 {
      NextTimesAdvances(i, k - 1, n);
    }
  }

  /** Pressing next `n` times brings the carousel back to where it started. */
  lemma NextCycleReturns(i: nat, n: nat)
    requires i < n
    ensures NextTimes(i, n, n) == i
  {
    NextTimesAdvances(i, n, n);
  }

  /** The dot buttons, one per testimonial, each carrying its own index. */
  function DotIndices(n: nat): (dots: seq<nat>)
    ensures |dots| == n
    ensures forall k :: 0 <= k < n ==> dots[k] == k
  {
    seq(n, k requires 0 <= k => k)
  }

  /** Any dot click sets an index that is in range. */
  lemma DotClickStaysInRange(n: nat, k: nat)
    requires k < |DotIndices(n)|
    ensures DotIndices(n)[k] < n
  {
  }

  /** Which dots are rendered wide (active): those whose index equals the current one. */
  function ActiveDots(current: int, n: nat): (flags: seq<bool>)
    ensures |flags| == n
    ensures forall k :: 0 <= k < n ==> (flags[k] <==> k == current)
  {
    seq(n, k => k == current)
  }

  function CountTrue(flags: seq<bool>): nat
  {
    if |flags| == 0 then 0
    else CountTrue(flags[..|flags| - 1]) + (if flags[|flags| - 1] then 1 else 0)
  }

  /** Exactly one dot is active when the current index is in range, none otherwise. */
  lemma {:induction false} ExactlyOneActiveDot(current: int, n: nat)
    ensures CountTrue(ActiveDots(current, n)) == (if 0 <= current < n then 1 else 0)
  {
    if n > 0 {
      var flags := ActiveDots(current, n);
      assert flags[..n - 1] == ActiveDots(current, n - 1);
      ExactlyOneActiveDot(current, n - 1);
    }
  }

  /** The carousel's mutable state: the index of the testimonial on show. */
  class Carousel {
    const count: nat
    var currentIndex: nat

    ghost predicate Valid()
      reads this
    {
      count == |TestimonialData| && currentIndex < count
    }

    constructor ()
      ensures Valid() && currentIndex == 0
    {
      count := |TestimonialData|;
      currentIndex := 0;
    }

    /** The testimonial on show. */
    function Current(): (t: Testimonial)
      reads this
      requires Valid()
      ensures t in TestimonialData
    {
      TestimonialData[currentIndex]
    }

    /** The gradient of the card on show; never `undefined` for a reachable index. */
    function CurrentGradient(): (g: Gradient)
      reads this
      requires Valid()
      ensures GradientColors(currentIndex) == Some(g)
    {
      ReachableIndicesHaveGradients(currentIndex);
      GradientColors(currentIndex).value
    }

    /**
     * The next button. The index changes in the fade-out's completion callback,
     * which is only scheduled when the card element is mounted.
     */
    method HandleNext(cardMounted: bool)
      requires Valid()
      modifies this
      ensures Valid()
      ensures currentIndex == if cardMounted then NextIndex(old(currentIndex), count) else old(currentIndex)
    {
      if cardMounted {
        currentIndex := (currentIndex + 1) % count;
      }
    }

    /** The previous button, under the same mounting condition as `HandleNext`. */
    method HandlePrev(cardMounted: bool)
      requires Valid()
      modifies this
      ensures Valid()
      ensures currentIndex == if cardMounted then PrevIndex(old(currentIndex), count) else old(currentIndex)
    {
      if cardMounted {
        currentIndex := if currentIndex == 0 then count - 1 else currentIndex - 1;
      }
    }

    /** A click on dot `k` shows testimonial `k`. */
    method ClickDot(k: nat)
      requires Valid()
      requires k < |DotIndices(count)|
      modifies this
      ensures Valid()
      ensures currentIndex == DotIndices(count)[k]
    {
      currentIndex := DotIndices(count)[k];
    }
  }
}
