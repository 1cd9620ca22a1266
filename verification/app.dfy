/**
 * The simulator component's state around the estimator: the stored
 * `resultado`, replaced wholesale by a successful calculation and left alone
 * by a refused one, and the guard that refuses export while it is absent.
 */
module App {
  import opened Wrappers
  import opened Calendar
  import opened Severance

  class Simulator {
    /** The last estimate; `None` until a calculation succeeds. */
    var result: Option<Breakdown>

    ghost predicate Valid()
      reads this
    {
      result.Some? ==> WellFormed(result.value)
    }

    /** The component is mounted with no result. */
    constructor ()
      ensures Valid() && result == None
    {
      result := None;
    }

    /**
     * The "calculate" button.  Returns the notice shown to the user, if any.
     * A refused form leaves the stored result as it was; an accepted one
     * replaces every field of it with the estimate for this form alone.
     */
    method Calculate(form: Form, toNumber: string -> real, toDate: string -> Date) returns (notice: Option<Failure>)
      requires Valid()
      modifies this
      ensures Valid()
      ensures Estimate(form, toNumber, toDate).Success? ==>
                notice == None && result == Some(Estimate(form, toNumber, toDate).value)
      ensures Estimate(form, toNumber, toDate).Failure? ==>
                notice == Some(Estimate(form, toNumber, toDate).error) && result == old(result)
    {
      if HasEmptyField(form) {
        return Some(MissingField);
      }
      var hire := toDate(form.hireText);
      var termination := toDate(form.terminationText);
      var salary := toNumber(ReplaceFirstComma(form.salaryText));
      if Before(termination, hire) {
        return Some(InvalidRange);
      }
      var months := CountMonths(hire, termination);
      result := Some(Components(salary, months, form.includeNotice));
      notice := None;
    }

    /**
     * The guard in front of the document export: refuses with `NoResult`
     * while nothing has been calculated, otherwise hands over the stored
     * estimate for rendering.
     */
    method Export() returns (r: Result<Breakdown, Failure>)
      requires Valid()
      ensures r == Failure(NoResult) <==> result == None
      ensures result.Some? ==> r == Success(result.value) && WellFormed(r.value)
    {
      if result == None {
        return Failure(NoResult);
      }
      r := Success(result.value);
    }
  }

  /**
   * Before any calculation export is refused; after a refused form it still
   * is; after an accepted one it yields exactly that form's estimate, and a
   * later refused form leaves that estimate in place.
   */
  method Lifecycle(good: Form, bad: Form, toNumber: string -> real, toDate: string -> Date)
    returns (first: Result<Breakdown, Failure>, second: Result<Breakdown, Failure>,
             third: Result<Breakdown, Failure>, fourth: Result<Breakdown, Failure>)
    requires Estimate(good, toNumber, toDate).Success? && Estimate(bad, toNumber, toDate).Failure?
    ensures first == Failure(NoResult) && second == Failure(NoResult)
    ensures third == Estimate(good, toNumber, toDate)
    ensures fourth == third
  {
    var sim := new Simulator();
    first := sim.Export();
    var _ := sim.Calculate(bad, toNumber, toDate);
    second := sim.Export();
    var _ := sim.Calculate(good, toNumber, toDate);
    third := sim.Export();
    var _ := sim.Calculate(bad, toNumber, toDate);
    fourth := sim.Export();
  }
}
