/** What the five solvers share: the answer of `skip` and the result of `get_result`. */
module SolverCommon {
  import opened Tensor

  datatype Option<T> = None | Some(value: T)

  /** The pair returned by `skip`: whether to skip, and the reason given. */
  datatype SkipDecision = SkipDecision(skip: bool, reason: Option<string>)

  /** The dictionary returned by `get_result`. */
  datatype SolverResult = SolverResult(name: string, u: Vec, obj: real)

  /**
   * Every solver refuses anisotropic TV, whose dual projection it does not
   * implement, and accepts every other setting.
   */
  function SkipAnisotropic(isotropy: string): (r: SkipDecision)
    ensures r.skip <==> isotropy == "anisotropic"
    ensures r.skip ==> r.reason == Some("solver does not work with anisotropic regularization")
    ensures !r.skip ==> r.reason == None
  {
    if isotropy == "anisotropic" then
      assert "solver does not work with " + isotropy + " regularization"
        == "solver does not work with anisotropic regularization";
      SkipDecision(true, Some("solver does not work with " + isotropy + " regularization"))
    else
      SkipDecision(false, None)
  }
}
