/** The candidate carousel: which profile the card shows after Skip or Refresh.
    The same `onSkip` closure is written out in Meeat/MatchFlowView.swift and in
    Meeat/MainHomeView.swift; `onRefresh` exists only in the latter. */
module Carousel {
  import opened Models

  /** `onSkip`: move to the next candidate, wrapping around, but only when there
      is more than one; with zero or one candidates the index stays put. */
  function SkipIndex(i: int, count: nat): (j: int)
    ensures count <= 1 ==> j == i
    ensures 0 <= i < count ==> 0 <= j < count
    ensures 0 <= i < count && count > 1 ==> j == if i == count - 1 then 0 else i + 1
  {
    if count > 1 then Rem(i + 1, count) else i
  }

  /** `onRefresh`: move to the next candidate unconditionally; `% count` traps
      on an empty list, hence the precondition. */
  function RefreshIndex(i: int, count: nat): (j: int)
    requires count > 0
    ensures 0 <= i < count ==> 0 <= j < count
    ensures 0 <= i < count ==> j == if i == count - 1 then 0 else i + 1
  {
    Rem(i + 1, count)
  }

  /** On a non-empty list with the index in range, Skip and Refresh land on the
      same candidate: with one candidate both stay at index 0. */
  lemma SkipAgreesWithRefresh(i: int, count: nat)
    requires 0 <= i < count
    ensures SkipIndex(i, count) == RefreshIndex(i, count)
  {
  }

  datatype CarouselEvent = Skip | Refresh

  function Move(i: int, count: nat, e: CarouselEvent): (j: int)
    requires 0 <= i < count
    ensures 0 <= j < count
  {
    match e
    case Skip => SkipIndex(i, count)
    case Refresh => RefreshIndex(i, count)
  }

  /** The index after a run of Skip and Refresh taps, starting from `i`. */
  function Run(i: int, count: nat, events: seq<CarouselEvent>): (j: int)
    requires 0 <= i < count
    ensures 0 <= j < count
    decreases |events|
  {
    if events == [] then i else Run(Move(i, count, events[0]), count, events[1..])
  }

  /** Every tap advances the carousel by exactly one position modulo the list
      size (a single candidate is a fixed point of both moves). */
  lemma {:induction false} RunIsRotation(i: int, count: nat, events: seq<CarouselEvent>)
    requires 0 <= i < count
    ensures Run(i, count, events) == (i + |events|) % count
    decreases |events|
  {
    if events != [] {
      var i' := Move(i, count, events[0]);
      RunIsRotation(i', count, events[1..]);
      assert i' == (i + 1) % count;
      ShiftMod(i, count, |events| - 1);
    }
  }

  lemma ShiftMod(i: int, count: nat, k: nat)
    requires 0 <= i < count
    ensures ((i + 1) % count + k) % count == (i + 1 + k) % count
  {
    if i + 1 == count {
      ModUnique(count, count, 1, 0);
      AddDivisor(count, k);
    } else {
      ModUnique(i + 1, count, 0, i + 1);
    }
  }

  function Skips(k: nat): (s: seq<CarouselEvent>)
    ensures |s| == k && forall e :: e in s ==> e == Skip
  {
    seq(k, _ => Skip)
  }

  /** Skipping reaches every candidate: from index `i`, some number of Skip
      taps (fewer than the list size) shows candidate `j`. */
  lemma EveryCandidateReachable(i: int, count: nat, j: int)
    requires 0 <= i < count && 0 <= j < count
    ensures var k := if i <= j then j - i else count - i + j;
            k < count && Run(i, count, Skips(k)) == j
  {
    var k := if i <= j then j - i else count - i + j;
    RunIsRotation(i, count, Skips(k));
    ModUnique(j, count, 0, j);
    if i > j {
      assert i + k == count + j;
      AddDivisor(count, j);
    }
  }
}
