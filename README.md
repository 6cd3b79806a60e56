# Employees page: payroll normalizers, attendance view state and directory paging

This project models the deterministic core of the staff-operations page `src/pages/Employees.jsx`, a single React component of a restaurant billing front end. It covers three parts of that page:

- **Payroll normalizers** (`viewSalaryDetails`, `viewPayslip`). Each one turns whatever JSON the salary endpoint returns into one fully-populated record for the salary or payslip modal. It first unwraps the `data` envelope. Then, for each field, it takes the first *truthy* value of a fixed list of candidate paths and falls back to a default. Module `Payroll` holds the normalizers written as the page writes them, one `||` chain per field. It also holds the same policy as a table of candidate paths, and proves that the two agree.
- **Attendance view state** (dashboard, employee card, attendance tab). Each snapshot record of today's attendance is read through the truthiness of `isPresent`, `onBreak` and `logoutTime`. From that the page derives a status badge, the attendance buttons offered (and whether Check Out is disabled), and the present, absent and on-break counters and the dashboard percentage. Module `Attendance` holds these derivations and the request and alert each command produces.
- **Page state** (`currentPage`, `totalPages`, `employees`, `todayAttendance`, the salary and payslip modals). Module `EmployeesPage` holds class `PageState`, whose methods replace these fields as the page's handlers do. The reply of the remote service is a parameter of each method. The pure pieces (the pager arithmetic, the directory query, the unwrapping of the directory and today-attendance replies) are functions beside the class.

Module `JsValues` gives the JavaScript semantics the page relies on: JSON values with `undefined`, truthiness, `||`, optional chaining (`?.`), strict member access that throws on `null`/`undefined`, `Number(...)`, `String(...)` and `===` between values of separate responses.

Where the page's code and the intended design of the console differ, the model follows the code:

- The attendance command handlers have no local guards. Every click sends its request whatever the worker's state, and today's list is re-fetched only after a successful request. The only guard is which buttons are rendered (`EmployeesPage.PageState.RunCommand`, `Attendance.CardButtons`).
- A change of search term or filter does not reset the page number (`EmployeesPage.PageState.Reload`). There is no sequence number or latest-wins check on replies.
- The normalizers do not treat non-numeric values as absent. A truthy value of any type wins its field and is passed through `Number(...)`, so an object there gives NaN (`JsValues.NumberOrZero`). Gross and net salary default to 0; they are never derived from the other figures.
- The payslip's deduction list is the raw `deductions.deductions` array when there is one. It is not reshaped into name/amount pairs.

## Model

| member | source | states |
|---|---|---|
| `JsValues.ResolvePicksFirstTruthy` | src/pages/Employees.jsx:412 | A `||` chain of candidate paths yields the value at the first truthy path; falsy values at higher priority fall through; the fallback is reached only when every candidate is falsy |
| `JsValues.ResolveIsCandidate` | src/pages/Employees.jsx:136 | The result of a candidate chain is the fallback or a truthy value found at one of the candidate paths |
| `JsValues.ToNumber` | src/pages/Employees.jsx:408-424 | `Number(v)`: of the falsy values only `undefined` gives NaN and the rest give 0; a non-zero number comes only from a truthy value; an object gives NaN |
| `JsValues.NumberOrZero` | src/pages/Employees.jsx:408-424 | `Number(x \|\| 0)` is 0 for a falsy candidate, the number itself for a number, NaN for an object, and the parse of the text for a non-empty string |
| `JsValues.Digits` | src/pages/Employees.jsx:407 | The decimal numeral used in `${month}/${year}` is non-empty and made of digits only |
| `JsValues.DigitsRoundTrip` | src/pages/Employees.jsx:407 | Reading the numeral back gives the number |
| `JsValues.IntText` | src/pages/Employees.jsx:407 | An integer's text is non-empty and starts with '-' exactly when the integer is negative |
| `JsValues.ToText` | src/pages/Employees.jsx:453-458 | `String(v)` outside arrays is empty exactly for the empty string; a number's text starts with '-' exactly when it is negative |
| `JsValues.TextOrEmpty` | src/pages/Employees.jsx:453-455 | `String(x \|\| '')` is empty for a falsy candidate, the string itself for a string, and the numeral of a positive number |
| `Payroll.Unwrap` | src/pages/Employees.jsx:402 | `data.data \|\| data`: the strict read of `data.data` fails exactly on a null or undefined body; otherwise yields `data.data` when truthy, else the body itself, and never null |
| `Payroll.NormalizeSalary` | src/pages/Employees.jsx:402-425 | Fails only on a null body; otherwise every field of the summary is its candidate table resolved on the unwrapped body (month label defaulting to `${month}/${year}`, every number defaulting to 0) |
| `Payroll.NormalizePayslip` | src/pages/Employees.jsx:448-472 | Fails only on a null employee or body; identity fields default to "", working days to 30, the month label to the locale month name, line items to the empty list unless an array is present, and the amounts follow the salary tables |
| `Payroll.AmountDefaultsToZero` | src/pages/Employees.jsx:408-424 | A numeric field whose candidates are all falsy reads 0 |
| `Payroll.AmountFollowsPriority` | src/pages/Employees.jsx:408-424 | A numeric field is the `Number` of its first truthy candidate |
| `Payroll.PayslipAgreesWithSalary` | src/pages/Employees.jsx:461-470 | On the same reply both normalizers succeed or fail together and agree on base salary, overtime, gross, net, total deductions, present days and a supplied month label |
| `PayrollExamples.EmptyResponseIsAllZero` | src/pages/Employees.jsx:405-425 | An empty body yields the all-zero summary labelled `${month}/${year}` |
| `PayrollExamples.FlatResponseExample` | src/pages/Employees.jsx:411-420 | `{ baseSalary: 20000, overtimePay: 1500 }` yields earnings (20000, 1500, 0, 0, 0) and no deductions |
| `PayrollExamples.FalsyFallsThroughExample` | src/pages/Employees.jsx:412 | A 0 and an "" at higher priority fall through to `basePay`, inside a `data` envelope |
| `PayrollExamples.PayslipDefaultsExample` | src/pages/Employees.jsx:452-468 | An empty employee and a body without period give empty identity, 30 working days, the locale month and no line items |
| `Attendance.RowStatus` | src/pages/Employees.jsx:636-650 | "On Break" iff present and on break, "Present" iff present and not on break, "Absent" iff not present |
| `Attendance.FindIndex` | src/pages/Employees.jsx:701 | `find` stops at the first record whose `id` is `===` to the worker's `_id` |
| `JsValues.StrictEquals` | src/pages/Employees.jsx:701 | `===` between values of separate responses holds only between equal values, and always between equal primitives (never for arrays or objects) |
| `JsValues.StrictEqualsIsPartialEquivalence` | src/pages/Employees.jsx:701 | `===` is symmetric and transitive, and reflexive exactly on primitives |
| `Attendance.FindAttendance` | src/pages/Employees.jsx:701 | The card's record is missing exactly when no record's `id` matches, and otherwise is the first matching record: every record before it does not match |
| `Attendance.CardStatus` | src/pages/Employees.jsx:702-760 | A worker missing from today's list is absent; otherwise the card's badge is the row's badge |
| `Attendance.CardButtons` | src/pages/Employees.jsx:776-819 | The card offers {Check In} when absent, {End Break, Check Out} on break, {Lunch, Tea, Check Out} when present; only Check Out is ever disabled, exactly when `logoutTime` is set |
| `Attendance.RowButtons` | src/pages/Employees.jsx:1467-1524 | The attendance tab offers the card's commands, except that on break it offers only End Break; Check Out is disabled exactly when `logoutTime` is set |
| `Attendance.RowOffersWithinCard` | src/pages/Employees.jsx:1467-1524 | The tab's commands are a subset of the card's, short of Check Out exactly during a break |
| `Attendance.RequestFor` | src/pages/Employees.jsx:221-285 | Every command is one POST to `/employees/<id>` followed by `/checkin`, `/checkout`, `/break/start` or `/break/end`; Check In sends the fixed location with `workLocation: 'dining'`, Check Out the location alone, a break start its type, End Break no body |
| `Attendance.BodyIdentifiesCommand` | src/pages/Employees.jsx:221-285 | The request body alone tells the commands apart: only End Break sends none, only Check In a work location, only a break start a type, and that type is the break's |
| `Attendance.RequestsDistinguishCommands` | src/pages/Employees.jsx:221-285 | Different commands never send the same request |
| `Attendance.Capitalize` | src/pages/Employees.jsx:266 | The break type keeps its length and tail and has its first ASCII letter upper-cased |
| `Attendance.SuccessNotice` | src/pages/Employees.jsx:234-280 | A break alert is the capitalized break type followed by " break started!"; the other commands alert one of the fixed success texts |
| `Attendance.BreakNoticeExamples` | src/pages/Employees.jsx:266 | The lunch and tea buttons alert "Lunch break started!" and "Tea break started!" |
| `Attendance.FailureNotice` | src/pages/Employees.jsx:221-285 | A failure alert ends with the error's message |
| `Attendance.CountTruthy` | src/pages/Employees.jsx:549-551 | A `filter(...).length` count never exceeds the list's length |
| `Attendance.CountFalsy` | src/pages/Employees.jsx:550 | The absent count never exceeds the list's length |
| `Attendance.PresentAndAbsentPartition` | src/pages/Employees.jsx:549-550 | Present count plus absent count equals the number of records |
| `Attendance.CountersMatchBadges` | src/pages/Employees.jsx:549-551 | Present count = "Present" + "On Break" badges; absent count = "Absent" badges; "On Break" badges never exceed the on-break count |
| `Attendance.OnBreakCounterCountsAbsentRecords` | src/pages/Employees.jsx:551 | A record on break but not present adds to the on-break counter yet shows no "On Break" badge |
| `Attendance.TallyOf` | src/pages/Employees.jsx:1377-1379 | The tab's counters: present + absent is the list's length, on-break at most that, present the number of present or on-break badges |
| `Attendance.RoundPercent` | src/pages/Employees.jsx:553 | `Math.round(present / total * 100)` is the nearest integer to 100·present/total, halves up, within [0, 100] when present ≤ total |
| `Attendance.DashboardPercentage` | src/pages/Employees.jsx:552-553 | 0 when `employees.length` is missing or not positive, else the rounded ratio of today's present count to that length (an array's or string's length, or an object's own numeric `length` key) |
| `Attendance.DashboardReadsLengthKey` | src/pages/Employees.jsx:552-553 | An object with its own `length` key of n is divided by n exactly as a page of n records is; 13 present over `{length: 12}` reads 108 |
| `Attendance.DashboardPercentageCanExceedHundred` | src/pages/Employees.jsx:552-553 | 13 present over a page of 12 employees reads 108 |
| `Attendance.DashboardPreview` | src/pages/Employees.jsx:624-656 | The dashboard lists exactly the first nine records (all of them when there are fewer), leaving some out exactly when there are more than nine |
| `EmployeesPage.PrevPage` | src/pages/Employees.jsx:1340 | Previous never goes below page 1 and otherwise steps back one page |
| `EmployeesPage.NextPage` | src/pages/Employees.jsx:1353 | Next never passes `totalPages` and otherwise steps forward one page |
| `EmployeesPage.PreviousDisabled` | src/pages/Employees.jsx:1341 | Previous is disabled exactly when a click on it would leave the page where it is |
| `EmployeesPage.NextDisabled` | src/pages/Employees.jsx:1354 | Next is disabled exactly when a click on it would leave the page where it is |
| `EmployeesPage.PagerShown` | src/pages/Employees.jsx:1337 | With at least one page, the pager is shown exactly when Next is enabled on the first page |
| `EmployeesPage.PagerStaysInRange` | src/pages/Employees.jsx:1340-1354 | From a page in [1, totalPages] both buttons stay in range; an enabled button moves one page, a disabled one would not move |
| `EmployeesPage.NextClicksReachLastPage` | src/pages/Employees.jsx:1353 | k clicks on Next from page p reach min(p + k, totalPages) |
| `EmployeesPage.EmployeesQuery` | src/pages/Employees.jsx:111-118 | The directory query is, in order, `page`, `limit` = 12, `search`, `role` and `department`, each under its own key |
| `EmployeesPage.DirectoryOf` | src/pages/Employees.jsx:121-123 | Fails exactly when the body or `data.data` is null; employees default to [], stats to {}, the page count to 1 when falsy |
| `EmployeesPage.TodayAttendanceOf` | src/pages/Employees.jsx:134-137 | Fails only on a null body; otherwise the first truthy of `data.data.attendanceSummary`, `data.data`, `data.attendanceSummary`, else [], and never falsy |
| `EmployeesPage.TodayAttendanceIsFromReply` | src/pages/Employees.jsx:136 | The stored list is one of the three envelope shapes of the reply or the empty list |
| `EmployeesPage.PageState.constructor` | src/pages/Employees.jsx:14-37 | The initial state: page 1 of 1, empty lists, no filters, no modal |
| `EmployeesPage.PageState.ClickPrevious` | src/pages/Employees.jsx:1340-1341 | The page becomes `max(p - 1, 1)`; an in-range page stays in range |
| `EmployeesPage.PageState.ClickNext` | src/pages/Employees.jsx:1353-1354 | The page becomes `min(p + 1, totalPages)`; an in-range page stays in range |
| `EmployeesPage.PageState.SetSearchTerm` | src/pages/Employees.jsx:1276 | Only the search term changes; the page number is kept |
| `EmployeesPage.PageState.SetRole` | src/pages/Employees.jsx:1282 | Only the role filter changes; the page number is kept |
| `EmployeesPage.PageState.SetDepartment` | src/pages/Employees.jsx:1294 | Only the department filter changes; the page number is kept |
| `EmployeesPage.PageState.FetchEmployees` | src/pages/Employees.jsx:108-131 | Sends the query for the page; on success stores employees, stats and page count from the reply, on failure leaves them; loading ends false |
| `EmployeesPage.PageState.Reload` | src/pages/Employees.jsx:541-545 | The effect fetches the directory for the unchanged current page and today's list: a good directory reply replaces employees, stats and page count, a failed one leaves them; a good today reply replaces the list, a failed one leaves it; loading ends false |
| `EmployeesPage.PageState.FetchTodayAttendance` | src/pages/Employees.jsx:132-142 | On success stores the unwrapped list; on failure keeps the previous one |
| `EmployeesPage.PageState.RunCommand` | src/pages/Employees.jsx:221-285 | Always sends the command's request; re-fetches today's list only after success; alerts success or the failure message |
| `EmployeesPage.PageState.ViewSalaryDetails` | src/pages/Employees.jsx:393-436 | Opens the salary modal on the normalized summary exactly when the employee and the body are non-null and the request succeeded; otherwise changes nothing |
| `EmployeesPage.PageState.ViewPayslip` | src/pages/Employees.jsx:440-483 | Opens the payslip modal on the normalized payslip under the same conditions; otherwise changes nothing |

## Left out

- `apiCall`, `fetch`, the token read from `localStorage` and the request headers: network and storage. Each handler takes the reply (`Ok(body)` or `Failed(message)`) as a parameter; how the message is chosen is not modelled.
- `alert`, `confirm`, `console` and all markup and modals: output only. Alert texts are modelled for the attendance commands only.
- Adding, editing and deactivating employees, `handleEdit`, `resetForm`, `viewEmployeeDetails`, `fetchAttendanceStats` and the reports tab: form and request plumbing around remote calls.
- Clock and locale: the month, the year, the locale month name and the `generatedOn` timestamp are parameters.
- Asynchrony: each handler runs to completion as one step, so interleaved or out-of-order replies and the intermediate `loading` state are not modelled.
- JsValues.Value: numbers are integers, so fractional amounts are not modelled.
- JsValues.ToNumber: the numeric parse of a non-empty string is left symbolic (`FromString`), so `"  "` is not read as 0. An object whose own `toString` key is not a function, where `Number` throws, reads NaN.
- JsValues.ToText: an object whose own `toString` key is not a function, where `String` throws, reads "[object Object]".
- Attendance.Capitalize: only ASCII letters are upper-cased. `toUpperCase` maps every letter and may lengthen the text (`'ß'` becomes `"SS"`); the page only passes `'lunch'` and `'tea'`.
- Attendance.SuccessNotice: the start-break handler's default type `'other'` is not modelled, since every button passes a type.
- Attendance.DashboardPercentage: a `length` that is not a number (a string such as `"12"`, or `true`) reads as no length, although the source converts it for `>` and `/`; and a string's length is counted in characters, whereas JavaScript counts UTF-16 units (`"😀".length` is 2).
- Attendance.RoundPercent: computed on exact rationals, so binary floating-point error at a .5 tie is not modelled.
- Attendance.RowStatus: a `null` record in today's list throws during rendering in the source; the model reads it as a record with no fields. The same holds for Attendance.CountTruthy, Attendance.CountFalsy and Attendance.FindIndex.
- Attendance.TallyOf: when today's list is not an array, `filter`, `find` and `map` throw in the source. The derivations take a sequence of records and do not model that failure.
- EmployeesPage.DirectoryOf: a truthy page count that is not a number is stored as 1. The source stores the raw value and coerces it later in `Math.min`.
- EmployeesPage.PageState.FetchEmployees: stores the page count as EmployeesPage.DirectoryOf does, with the same limit.
