/** What can go wrong with the statements of a database session. */
module Faults {

  /** Nothing; or the statement raises; or it is a commit that takes effect although its answer is lost. */
  datatype Fault = NoFault | Raises | AnswerLost

  /** What lies ahead of a session is taken from the front, one fault for each statement. */
  predicate Follows(before: seq<Fault>, after: seq<Fault>) {
    |after| <= |before| && after == before[|before| - |after|..]
  }

  /** What the statements in between have met. */
  function Met(before: seq<Fault>, after: seq<Fault>): seq<Fault>
    requires Follows(before, after)
  {
    before[..|before| - |after|]
  }

  /** None of the statements in between has failed. */
  predicate Smooth(before: seq<Fault>, after: seq<Fault>) {
    Follows(before, after) && forall fault :: fault in Met(before, after) ==> fault.NoFault?
  }

  lemma NothingMet(faults: seq<Fault>)
    ensures Follows(faults, faults) && Smooth(faults, faults)
  {
  }

  lemma MetJoins(before: seq<Fault>, between: seq<Fault>, after: seq<Fault>)
    requires Follows(before, between) && Follows(between, after)
    ensures Follows(before, after) && Met(before, after) == Met(before, between) + Met(between, after)
    ensures Smooth(before, after) <==> Smooth(before, between) && Smooth(between, after)
  {
  }
}
