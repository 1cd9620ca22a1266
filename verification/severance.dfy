/**
 * The severance estimator of the agreement simulator: validation of the form,
 * the proportional-month count and the component formulas (13th salary,
 * vacation plus one third, FGTS deposit plus its 40% penalty, notice pay).
 * Amounts are exact reals; the source's `toFixed(2)` formatting is not modelled.
 */
module Severance {
  import opened Wrappers
  import opened Calendar

  /**
   * The form as the user typed it.  The three required fields are raw text,
   * because the source rejects a field exactly when its text is empty.
   */
  datatype Form = Form(salaryText: string, hireText: string, terminationText: string, includeNotice: bool)

  /** The three notices the user can be shown. */
  datatype Failure =
    | MissingField  // a required field is empty
    | InvalidRange  // the termination date lies before the hire date
    | NoResult      // export was requested before any estimate exists

  /** The stored estimate; `fgts` is the deposit plus its penalty, as reported. */
  datatype Breakdown = Breakdown(months: int, thirteenth: real, vacation: real, fgts: real, notice: real, total: real)

  /** A termination on or after this day of the month counts its month in full. */
  const HalfMonthDay: int := 15
  /** Monthly FGTS deposit rate: 8% of the salary. */
  const FgtsRate: real := 0.08
  /** Penalty on the accrued FGTS for dismissal: 40%. */
  const FgtsPenaltyRate: real := 0.40

  predicate HasEmptyField(form: Form) {
    form.salaryText == "" || form.hireText == "" || form.terminationText == ""
  }

  /**
   * JavaScript's `s.replace(",", ".")`: the first comma, and only that one,
   * becomes a decimal point; every other character is kept.
   */
  function ReplaceFirstComma(s: string): (r: string)
    ensures |r| == |s|
    ensures forall k :: 0 <= k < |s| ==>
              r[k] == (if s[k] == ',' && ',' !in s[..k] then '.' else s[k])
  {
    if s == [] then []
    else if s[0] == ',' then "." + s[1..]
    else
      var rest := ReplaceFirstComma(s[1..]);
      assert forall k :: 1 <= k < |s| ==> s[..k] == [s[0]] + s[1..][..k - 1];
      [s[0]] + rest
  }

  /** A text without a comma is passed to `Number` unchanged. */
  lemma ReplaceFirstCommaKeepsPlainText(s: string)
    requires ',' !in s
    ensures ReplaceFirstComma(s) == s
  {
  }

  /** Exactly one comma disappears when there is one: later commas survive. */
  lemma ReplaceFirstCommaKeepsLaterCommas(s: string, i: int, j: int)
    requires 0 <= i < j < |s| && s[i] == ',' && s[j] == ','
    ensures ReplaceFirstComma(s)[j] == ','
  {
  }

  /** The month count before the floor at one: only the termination day is consulted. */
  function RawMonths(hire: Date, termination: Date): (raw: int) {
    (termination.year - hire.year) * 12
      + (termination.month - hire.month)
      + (if termination.day >= HalfMonthDay then 1 else 0)
  }

  /** The proportional months: the raw count, floored at one. */
  function ProportionalMonths(hire: Date, termination: Date): (m: int)
    ensures m >= 1
    ensures m == RawMonths(hire, termination) || (m == 1 && RawMonths(hire, termination) < 1)
  {
    var raw := RawMonths(hire, termination);
    if raw < 1 then 1 else raw
  }

  /** The month count built step by step, as the source updates `meses`. */
  method CountMonths(hire: Date, termination: Date) returns (months: int)
    ensures months == ProportionalMonths(hire, termination)
  {
    months := (termination.year - hire.year) * 12;
    months := months + (termination.month - hire.month);
    if termination.day >= HalfMonthDay {
      months := months + 1;
    }
    if months < 1 {
      months := 1;
    }
  }

  function Thirteenth(salary: real, months: int): (amount: real) {
    (salary / 12.0) * (months as real)
  }

  function Vacation(salary: real, months: int): (amount: real) {
    ((salary / 12.0) * (months as real)) * (4.0 / 3.0)
  }

  function FgtsDeposit(salary: real, months: int): (amount: real) {
    salary * FgtsRate * (months as real)
  }

  function FgtsPenalty(deposit: real): (amount: real) {
    deposit * FgtsPenaltyRate
  }

  function NoticePay(salary: real, includeNotice: bool): (amount: real) {
    if includeNotice then salary else 0.0
  }

  /** The relations every stored estimate satisfies, whatever the salary. */
  predicate WellFormed(b: Breakdown) {
    b.months >= 1 &&
    b.vacation == b.thirteenth * (4.0 / 3.0) &&
    b.total == b.thirteenth + b.vacation + b.fgts + b.notice
  }

  /** The components for a salary and an already floored month count. */
  function Components(salary: real, months: int, includeNotice: bool): (b: Breakdown)
    requires months >= 1
    ensures WellFormed(b)
    ensures b.months == months
    ensures b.thirteenth * 12.0 == salary * (months as real)
    ensures b.vacation == b.thirteenth + b.thirteenth / 3.0
    ensures b.fgts == FgtsDeposit(salary, months) + FgtsPenaltyRate * FgtsDeposit(salary, months)
    ensures b.fgts == (1.0 + FgtsPenaltyRate) * FgtsRate * salary * (months as real)
    ensures b.notice == (if includeNotice then salary else 0.0)
  {
    var thirteenth := Thirteenth(salary, months);
    var vacation := Vacation(salary, months);
    var deposit := FgtsDeposit(salary, months);
    var penalty := FgtsPenalty(deposit);
    var notice := NoticePay(salary, includeNotice);
    Breakdown(months, thirteenth, vacation, deposit + penalty, notice,
              thirteenth + vacation + deposit + penalty + notice)
  }

  /**
   * The estimator: `toNumber` and `toDate` stand for JavaScript's `Number`
   * and `new Date` with its calendar getters, which are not modelled.
   */
  function Estimate(form: Form, toNumber: string -> real, toDate: string -> Date): (r: Result<Breakdown, Failure>)
    ensures r == Failure(MissingField) <==> HasEmptyField(form)
    ensures r == Failure(InvalidRange) <==>
              !HasEmptyField(form) && Before(toDate(form.terminationText), toDate(form.hireText))
    ensures r != Failure(NoResult)
    ensures r.Success? ==> WellFormed(r.value)
    ensures r.Success? ==> r.value.months == ProportionalMonths(toDate(form.hireText), toDate(form.terminationText))
    ensures r.Success? ==>
              r.value == Components(toNumber(ReplaceFirstComma(form.salaryText)),
                                    ProportionalMonths(toDate(form.hireText), toDate(form.terminationText)),
                                    form.includeNotice)
  {
    if HasEmptyField(form) then Failure(MissingField)
    else
      var hire := toDate(form.hireText);
      var termination := toDate(form.terminationText);
      var salary := toNumber(ReplaceFirstComma(form.salaryText));
      if Before(termination, hire) then Failure(InvalidRange)
      else Success(Components(salary, ProportionalMonths(hire, termination), form.includeNotice))
  }

  /**
   * On an ordered range of valid dates the raw count is never negative, and
   * the floor changes it only for a termination in the hire month before day 15.
   */
  lemma OrderedRangeMonths(hire: Date, termination: Date)
    requires Valid(hire) && Valid(termination) && !Before(termination, hire)
    ensures RawMonths(hire, termination) >= 0
    ensures ProportionalMonths(hire, termination) != RawMonths(hire, termination) <==>
              termination.year == hire.year && termination.month == hire.month && termination.day < HalfMonthDay
  {
  }

  /** The hire day never matters, only its year and month. */
  lemma HireDayIgnored(hire: Date, otherHire: Date, termination: Date)
    requires hire.year == otherHire.year && hire.month == otherHire.month
    ensures ProportionalMonths(hire, termination) == ProportionalMonths(otherHire, termination)
  {
  }

  /** A later termination never yields fewer proportional months. */
  lemma MonthsMonotone(hire: Date, termination: Date, later: Date)
    requires Valid(termination) && Valid(later) && !Before(later, termination)
    ensures ProportionalMonths(hire, termination) <= ProportionalMonths(hire, later)
  {
  }

  /**
   * For a salary that is not negative, every amount grows with the month
   * count: a longer employment never earns a smaller 13th salary, vacation,
   * FGTS or total.
   */
  lemma AmountsGrowWithMonths(salary: real, months: int, more: int, includeNotice: bool)
    requires salary >= 0.0 && 1 <= months <= more
    ensures var a := Components(salary, months, includeNotice);
            var b := Components(salary, more, includeNotice);
            a.thirteenth <= b.thirteenth && a.vacation <= b.vacation &&
            a.fgts <= b.fgts && a.total <= b.total
  {
    assert salary * (months as real) <= salary * (more as real) by {
      assert salary * ((more - months) as real) >= 0.0;
    }
  }

  /**
   * Toggling the notice flag changes neither validation nor any field except
   * the notice pay and the total, which move by the same amount.
   */
  lemma NoticeToggle(form: Form, toNumber: string -> real, toDate: string -> Date)
    ensures var a := Estimate(form, toNumber, toDate);
            var b := Estimate(form.(includeNotice := !form.includeNotice), toNumber, toDate);
            a.Success? == b.Success? &&
            (a.Failure? ==> a == b) &&
            (a.Success? ==>
               a.value.months == b.value.months &&
               a.value.thirteenth == b.value.thirteenth &&
               a.value.vacation == b.value.vacation &&
               a.value.fgts == b.value.fgts &&
               a.value.notice + b.value.notice == toNumber(ReplaceFirstComma(form.salaryText)) &&
               b.value.total - a.value.total == b.value.notice - a.value.notice)
  {
  }

  /** A salary of "0" is not an empty field: it passes the presence check. */
  lemma ZeroSalaryIsPresent(form: Form, toNumber: string -> real, toDate: string -> Date)
    requires form.salaryText == "0" && form.hireText != "" && form.terminationText != ""
    ensures Estimate(form, toNumber, toDate) != Failure(MissingField)
  {
  }

  /**
   * Salary 3000, hired 2023-01-10, dismissed 2023-07-20, no notice: seven
   * months, 13th 1750, vacation 7000/3, FGTS 1680 + 672.
   */
  lemma WorkedExample()
    ensures Estimate(Form("3000", "2023-01-10", "2023-07-20", false),
                     s => if s == "3000" then 3000.0 else 0.0,
                     s => if s == "2023-01-10" then Date(2023, 1, 10) else Date(2023, 7, 20))
            == Success(Breakdown(7, 1750.0, 7000.0 / 3.0, 2352.0, 0.0, 1750.0 + 7000.0 / 3.0 + 2352.0))
  {
    ReplaceFirstCommaKeepsPlainText("3000");
  }
}
