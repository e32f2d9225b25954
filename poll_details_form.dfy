/**
 * The "max votes" checkbox of the poll details form
 * (src/components/forms/poll-details-form.tsx): a flag that says whether
 * a per-option cap is wanted, and the number field that holds the cap.
 */
module PollDetailsForm {
  import opened Wrappers

  /**
   * A value read from a number input with `valueAsNumber`: an integer, or
   * NaN when the input is empty or does not parse.
   */
  datatype NumberValue = Num(n: int) | NaN

  /** `maxVotes != undefined && maxVotes >= 1`; NaN compares false with every number. */
  function AtLeastOne(maxVotes: Option<NumberValue>): (atLeastOne: bool)
    ensures atLeastOne ==> maxVotes.Some? && maxVotes.value.Num? && maxVotes.value.n >= 1
    ensures maxVotes.Some? && maxVotes.value.Num? && maxVotes.value.n >= 1 ==> atLeastOne
    ensures maxVotes == Some(NaN) ==> !atLeastOne
  {
    match maxVotes
    case Some(Num(n)) => n >= 1
    case _ => false
  }

  /** The checkbox and number field as one value. */
  datatype MaxVotesState = MaxVotesState(enabled: bool, maxVotes: Option<NumberValue>)

  /** `handleMaxVotesChecked`: flip the flag and clear the field, in both directions. */
  function Toggled(s: MaxVotesState): (r: MaxVotesState)
    ensures r.enabled != s.enabled
    ensures r.maxVotes == None
  {
    MaxVotesState(!s.enabled, None)
  }

  /** Two toggles restore the flag but not the number, which stays cleared. */
  lemma DoubleToggle(s: MaxVotesState)
    ensures Toggled(Toggled(s)).enabled == s.enabled
    ensures Toggled(Toggled(s)).maxVotes == None
  {
  }

  class MaxVotesField {
    /** The `maxVotesEnabled` state, shown as the checkbox. */
    var maxVotesEnabled: bool
    /**
     * The form's `maxVotes` field value. A field registered as disabled
     * reads as undefined.
     */
    var maxVotes: Option<NumberValue>

    /** A disabled field always reads as undefined. */
    ghost predicate Valid()
      reads this
    {
      !maxVotesEnabled ==> maxVotes == None
    }

    function State(): MaxVotesState
      reads this
    {
      MaxVotesState(maxVotesEnabled, maxVotes)
    }

    /**
     * The `disabled` rule of the number input, both on the element and in
     * its registration with the form.
     */
    function InputDisabled(): (disabled: bool)
      reads this
      ensures disabled <==> !maxVotesEnabled
      ensures Valid() && disabled ==> maxVotes == None
    {
      !maxVotesEnabled
    }

    /**
     * Mounting the form with `defaultValues.maxVotes`: the flag starts on
     * exactly when a default cap of at least one is given. Otherwise the
     * field is registered disabled, so its value reads as undefined.
     */
    constructor (defaultMaxVotes: Option<NumberValue>)
      ensures maxVotesEnabled <==> AtLeastOne(defaultMaxVotes)
      ensures InputDisabled() <==> !AtLeastOne(defaultMaxVotes)
      ensures maxVotes == (if AtLeastOne(defaultMaxVotes) then defaultMaxVotes else None)
      ensures InputDisabled() ==> maxVotes == None
      ensures Valid()
    {
      maxVotesEnabled := AtLeastOne(defaultMaxVotes);
      maxVotes := if AtLeastOne(defaultMaxVotes) then defaultMaxVotes else None;
    }

    /** A click on the checkbox. */
    method HandleMaxVotesChecked()
      modifies this
      ensures State() == Toggled(old(State()))
      ensures InputDisabled() <==> !old(InputDisabled())
      ensures maxVotes == None
      ensures InputDisabled() ==> maxVotes == None
      ensures Valid()
    {
      maxVotesEnabled := !maxVotesEnabled;
      maxVotes := None;
    }
  }
}
