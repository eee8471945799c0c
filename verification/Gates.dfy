/** A run of checks, each with what happens when it fails. */
module Gates {
  import opened Wrappers

  /** The first failing check decides; None when every check holds. */
  function Require<E>(holds: bool, otherwise: E, rest: Option<E>): (first: Option<E>)
    ensures first == None <==> holds && rest == None
  {
    if holds then rest else Some(otherwise)
  }

  /** The checks of `first`, and then those of `second`. */
  function Then<E>(first: Option<E>, second: Option<E>): (both: Option<E>)
    ensures both == None <==> first == None && second == None
  {
    if first.Some? then first else second
  }
}
