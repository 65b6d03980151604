/** How a call into the agent movers ends in Python. */
module Outcomes {

  /** It returns; or it raises `TypeError` (arguments that do not bind to the parameters); or it
      raises `UnboundLocalError` (a local variable read before any assignment, such as a loop
      variable after a loop over an empty list). */
  datatype Outcome = Returned | TypeError | UnboundLocalError
}
