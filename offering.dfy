/** The token (offering) record the presale API returns and every component reads. */
module Offering {
  import opened Wrappers

  /** One offering as the API returns it. `price`, `raised`, `goal` and `progress` may
      be missing from the record (`undefined`); amounts are exact reals in US dollars. */
  datatype Token = Token(
    id: int,
    symbol: string,
    price: Option<real>,
    raised: Option<real>,
    goal: Option<real>,
    progress: Option<real>
  )

  /** `token.goal - token.raised`, what is left of the goal. `None` stands for the NaN
      JavaScript computes when either field is missing. */
  function Available(t: Token): (m: Option<real>)
    ensures m.Some? <==> t.raised.Some? && t.goal.Some?
    ensures m.Some? ==> t.raised.value + m.value == t.goal.value
  {
    if t.raised.Some? && t.goal.Some? then Some(t.goal.value - t.raised.value) else None
  }
}
