/**
 * The vote button of a poll grid (src/components/poll/vote-selector.tsx).
 * Every click replaces the participant's vote for one option by the next
 * one in a fixed cycle; while the option's cap of "yes" votes is reached,
 * the cycle skips "yes".
 */
module VoteSelector {
  import opened Wrappers

  datatype VoteType = Yes | IfNeedBe | No

  /** `orderedVoteTypes`: the order in which clicks cycle through the votes. */
  const OrderedVoteTypes: seq<VoteType> := [Yes, IfNeedBe, No]

  /** `orderedVoteTypes.indexOf(value)`: every vote type is in the array, so it is never -1. */
  function IndexOf(value: VoteType): (i: nat)
    ensures i < |OrderedVoteTypes| && OrderedVoteTypes[i] == value
  {
    match value
    case Yes => 0
    case IfNeedBe => 1
    case No => 2
  }

  /**
   * `getNext`: the vote one position further in the cycle; when that is
   * "yes" and the cap is reached, the vote two positions further instead.
   */
  function GetNext(value: VoteType, capReached: bool): (r: VoteType)
    ensures r != value
    ensures capReached ==> r != Yes
  {
    var n := |OrderedVoteTypes|;
    var next := OrderedVoteTypes[(IndexOf(value) + 1) % n];
    if capReached && next == Yes then OrderedVoteTypes[(IndexOf(value) + 2) % n]
    else next
  }

  /** The cycle written as a table, independently of the index arithmetic. */
  function Successor(value: VoteType, capReached: bool): VoteType
  {
    match value
    case Yes => IfNeedBe
    case IfNeedBe => No
    case No => if capReached then IfNeedBe else Yes
  }

  /** The index arithmetic of `getNext` computes exactly the table. */
  lemma GetNextIsSuccessor(value: VoteType, capReached: bool)
    ensures GetNext(value, capReached) == Successor(value, capReached)
  {
  }

  /** Without the cap, three clicks return to the start and no fewer do. */
  lemma UncappedCycleOfThree(value: VoteType)
    ensures GetNext(GetNext(GetNext(value, false), false), false) == value
    ensures GetNext(GetNext(value, false), false) != value
  {
  }

  /** With the cap, "ifNeedBe" and "no" alternate, and "yes" moves into that alternation. */
  lemma CappedAlternation(value: VoteType)
    ensures value != Yes ==> GetNext(GetNext(value, true), true) == value
    ensures GetNext(No, true) == IfNeedBe && GetNext(Yes, true) == IfNeedBe
  {
  }

  /**
   * The `onClick` handler's new value: the next vote for a set value, and
   * for an unset one the first vote of the ordering the cap allows
   * (`orderedVoteTypes[1]` when capped, `orderedVoteTypes[0]` otherwise).
   */
  function NextOnClick(value: Option<VoteType>, capReached: bool): (r: VoteType)
    ensures value.None? ==> r == (if capReached then IfNeedBe else Yes)
    ensures value.Some? ==> r != value.value
    ensures capReached ==> r != Yes
  {
    match value
    case Some(v) => GetNext(v, capReached)
    case None => if capReached then OrderedVoteTypes[1] else OrderedVoteTypes[0]
  }

  /** The value held after `n` clicks on a button that started at `value`. */
  function Clicks(value: Option<VoteType>, capReached: bool, n: nat): (r: Option<VoteType>)
    ensures n == 0 ==> r == value
    ensures n > 0 ==> r.Some?
    ensures n > 0 && capReached ==> r != Some(Yes)
  {
    if n == 0 then value else Some(NextOnClick(Clicks(value, capReached, n - 1), capReached))
  }

  /** Clicking an unset, uncapped button walks `orderedVoteTypes` in order, over and over. */
  lemma {:induction false} UncappedClicksFollowOrder(n: nat)
    requires n >= 1
    ensures Clicks(None, false, n) == Some(OrderedVoteTypes[(n - 1) % |OrderedVoteTypes|])
  {
    if n > 1 {
      UncappedClicksFollowOrder(n - 1);
      var k := (n - 2) % 3;
      assert IndexOf(OrderedVoteTypes[k]) == k;
      assert (k + 1) % 3 == (n - 1) % 3;
    }
  }

  /** Clicking an unset, capped button alternates "ifNeedBe" and "no" and never shows "yes". */
  lemma {:induction false} CappedClicksAlternate(n: nat)
    requires n >= 1
    ensures Clicks(None, true, n) == Some(if n % 2 == 1 then IfNeedBe else No)
  {
    if n > 1 {
      CappedClicksAlternate(n - 1);
    }
  }
}
