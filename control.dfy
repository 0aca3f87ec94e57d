/**
 * The Python controller contract of src/control.py: `AvoidingController`
 * checks that its registered headings match the distance vector and returns
 * the zero command.
 */
module Control {
  import opened Wrappers
  import opened Vectors

  /** The `AttributeError` raised on a missing or mismatched registration. */
  datatype ControlError = HeadingsMismatch

  /**
   * What `AvoidingController.__call__` returns for the registered headings
   * (`None` until registered) and a distance vector.
   */
  function Command(headings: Option<seq<Vec>>, distances: seq<real>): (r: Result<Vec, ControlError>)
    ensures r.Failure? <==> headings.None? || |headings.value| != |distances|
    ensures r.Success? ==> r.value == Zero
  {
    if headings.None? || |headings.value| != |distances| then Failure(HeadingsMismatch)
    else Success(Zero)
  }

  class AvoidingController {
    var headings: Option<seq<Vec>>

    constructor (headings: Option<seq<Vec>>)
      ensures this.headings == headings
    {
      this.headings := headings;
    }

    /** `register_headings`, inherited from `HCS04Controller`. */
    method RegisterHeadings(headings: seq<Vec>)
      modifies this
      ensures this.headings == Some(headings)
    {
      this.headings := Some(headings);
    }

    /** `reset` has no state to clear. */
    method Reset()
      ensures unchanged(this)
    {
    }

    method Call(distances: seq<real>) returns (r: Result<Vec, ControlError>)
      ensures r == Command(headings, distances)
    {
      if headings.None? || |headings.value| != |distances| {
        return Failure(HeadingsMismatch);
      }
      return Success(Zero);
    }
  }
}
