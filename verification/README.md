# Severance agreement simulator — verified model of the estimator

The simulator is a one-form browser page: the user types a monthly salary, a
hire date and a termination date, ticks whether paid notice is included, and
presses "calculate". The handler checks that the three fields are filled in
and that the range is ordered. It counts the proportional months: the
difference between the two calendar months (12·Δyear + Δmonth), whatever the
days, plus one when the termination falls on or after day 15, and never fewer
than one. From that count it derives the 13th salary,
vacation pay plus one third, the FGTS deposit with its 40% dismissal penalty,
the notice pay and the total. A successful calculation replaces the stored
estimate. The export button refuses to run while no estimate exists.

This project models that handler and the guard in Dafny:

- `calendar.dfy` (module `Calendar`) holds dates as (year, month, day)
  triples, their validity and their lexicographic order. It also holds the
  timeline (`DayNumber`, days since 0000-01-01) that JavaScript's comparison
  of `Date` objects amounts to, and proves the two orders agree.
- `severance.dfy` (module `Severance`) holds the form, the presence check,
  the first-comma replacement applied to the salary, the month count (as a
  function and as the step-by-step method the source writes), the component
  formulas and `Estimate`, the whole calculation as one function.
- `app.dfy` (module `App`) holds the class `Simulator`. Its mutable field
  `result` is the component's `resultado`. `Calculate` is the button handler
  and `Export` is the guard in front of the document export.
- `wrappers.dfy` holds `Option` and `Result`.

Amounts are exact reals. JavaScript's `Number` and `new Date` with its calendar
getters are foreign: the model takes them as function parameters `toNumber`
and `toDate`, and everything the handler does around them is modelled.

For salary 3000, hire 2023-01-10, termination 2023-07-20 and no notice, the
code gives 7 months, a 13th salary of 1750, vacation 7000/3, FGTS
1680 + 672 = 2352 and a total of 1750 + 7000/3 + 2352 (`WorkedExample`). The
code never checks that the salary is positive, and neither does the model.

## Model

| member | source | states |
|---|---|---|
| `Calendar.BeforeIsChronological` | src/App.jsx:21-23 | on valid dates, the lexicographic order used for the range check holds exactly when the first date is earlier on the day timeline that the source's `fim < inicio` compares |
| `Severance.ReplaceFirstComma` | src/App.jsx:19 | same length as the salary text; the first comma becomes '.', and every other character, later commas included, is kept |
| `Severance.ReplaceFirstCommaKeepsPlainText` | src/App.jsx:19 | a salary text without a comma reaches `Number` unchanged |
| `Severance.ReplaceFirstCommaKeepsLaterCommas` | src/App.jsx:19 | any comma after the first one survives the replacement |
| `Severance.ProportionalMonths` | src/App.jsx:26-29 | the count is at least 1, and equals the raw count 12·Δyear + Δmonth + (1 if termination day ≥ 15) unless that raw count is below 1 |
| `Severance.CountMonths` | src/App.jsx:26-29 | the step-by-step updates of `meses` compute exactly the proportional months |
| `Severance.OrderedRangeMonths` | src/App.jsx:21-29 | on an accepted (ordered, valid) range the raw count is never negative, and the floor at 1 changes it exactly when the termination is in the hire month before day 15 |
| `Severance.HireDayIgnored` | src/App.jsx:26-28 | two hire dates in the same year and month give the same count: the hire day is never consulted |
| `Severance.MonthsMonotone` | src/App.jsx:26-28 | a later termination date never yields fewer proportional months |
| `Severance.Components` | src/App.jsx:32-38 | 13th·12 = salary·months; vacation = 13th·4/3 = 13th + 13th/3; reported FGTS = deposit + 40% of the deposit = 1.4·0.08·salary·months; notice = salary iff the flag is set, else 0; total = 13th + vacation + FGTS + notice; months ≥ 1 |
| `Severance.AmountsGrowWithMonths` | src/App.jsx:32-38 | for a salary that is not negative, a larger month count never gives a smaller 13th salary, vacation, FGTS or total |
| `Severance.NoticeToggle` | src/App.jsx:36-38 | toggling the notice flag leaves acceptance, months, 13th, vacation and FGTS unchanged; the two notice amounts add up to the salary, and the total moves by exactly the change in notice pay |
| `Severance.Estimate` | src/App.jsx:10-47 | rejected with MissingField exactly when a required text is empty; rejected with InvalidRange exactly when all are present and termination is before hire; otherwise the result is exactly the components for the salary `toNumber` reads from the text with its first comma replaced, the proportional months of the two dates and the notice flag |
| `Severance.ZeroSalaryIsPresent` | src/App.jsx:13-15 | a salary text "0" is not empty and passes the presence check |
| `Severance.WorkedExample` | src/App.jsx:25-38 | salary 3000, 2023-01-10 to 2023-07-20, no notice: 7 months, 13th 1750, vacation 7000/3, FGTS 2352, notice 0, total their sum |
| `App.Simulator.constructor` | src/App.jsx:8 | the stored result starts absent |
| `App.Simulator.Calculate` | src/App.jsx:10-48 | a refused form shows its notice and leaves the stored result untouched (absent stays absent); an accepted one replaces the whole result with that form's estimate; the stored result stays well formed |
| `App.Simulator.Export` | src/App.jsx:50-53 | refuses with NoResult exactly when no result is stored; otherwise hands over the stored result unchanged |
| `App.Lifecycle` | src/App.jsx:8-53 | export is refused on a fresh simulator and after a refused calculation; after an accepted one it yields exactly that form's estimate, and a later refused form leaves that estimate in place |

## Left out

- Rendering, the `useState` plumbing, the input bindings and the style sheet (src/App.jsx:92-175): user-interface glue with no logic.
- The document built with jsPDF and saved to disk (src/App.jsx:55-89): a foreign library and file output. Only the guard before it is modelled (`App.Simulator.Export`).
- `alert`: modelled as the returned notice (`Option<Failure>` or the `Failure` of a `Result`), not as a side effect.
- Floating-point arithmetic and `toFixed(2)` (src/App.jsx:42-46): the model computes with exact reals and stores reals, not two-decimal strings.
- `Number` (src/App.jsx:19): taken as the parameter `toNumber`; a text that parses to `NaN` is not modelled.
- `new Date` and `getFullYear`/`getMonth`/`getDate` (src/App.jsx:17-18, 26-28): taken as the parameter `toDate`. The shift of a day that UTC parsing followed by local-time getters can cause is not modelled, nor is an unparsable date.
- Severance.Estimate: the range check compares the triples lexicographically, while the source compares instants; the two agree on valid dates (`Calendar.BeforeIsChronological`), but a `toDate` returning an invalid triple is not related to the timeline.
