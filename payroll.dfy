/** The payroll normalizers of the employees page: `viewSalaryDetails` and
    `viewPayslip` turn whatever the salary endpoint returned into one
    fully-populated record for the salary and payslip modals. */
module Payroll {
  import opened JsValues

  // ---------------------------------------------------------------------------
  // Canonical records

  datatype SalaryPeriod = SalaryPeriod(monthName: Value, presentDays: Numeric, attendancePercentage: Numeric)

  datatype Earnings = Earnings(
    baseSalary: Numeric,
    overtimePay: Numeric,
    totalAllowances: Numeric,
    grossSalary: Numeric,
    netSalary: Numeric)

  datatype DeductionTotals = DeductionTotals(totalDeductions: Numeric)

  datatype AttendanceFigures = AttendanceFigures(presentDays: Numeric, attendancePercentage: Numeric)

  /** What the salary modal renders. */
  datatype SalarySummary = SalarySummary(
    period: SalaryPeriod,
    earnings: Earnings,
    deductions: DeductionTotals,
    attendance: AttendanceFigures)

  datatype EmployeeIdentity = EmployeeIdentity(name: string, employeeId: string, department: string)

  datatype PayslipPeriod = PayslipPeriod(monthName: string, year: int, workingDays: Numeric, presentDays: Numeric)

  datatype PayslipEarnings = PayslipEarnings(basicSalary: Numeric, overtimePay: Numeric, totalEarnings: Numeric)

  /** What the payslip modal renders. `deductions` is the raw line-item list. */
  datatype Payslip = Payslip(
    employee: EmployeeIdentity,
    period: PayslipPeriod,
    earnings: PayslipEarnings,
    deductions: seq<Value>,
    totalDeductions: Numeric,
    netPay: Numeric,
    generatedOn: string)

  // ---------------------------------------------------------------------------
  // Envelope

  /** `data.data || data`; `None` when `data` itself is null, where reading
      `data.data` throws and the handler reports a failure. */
  function Unwrap(data: Value): (r: Option<Value>)
    ensures r.None? <==> Nullish(data)
    ensures r.Some? && Truthy(Get(data, "data")) ==> r.value == Get(data, "data")
    ensures r.Some? && !Truthy(Get(data, "data")) ==> r.value == data
    ensures r.Some? ==> !Nullish(r.value)
  {
    match Member(data, "data")
    case None => None
    case Some(inner) => Some(Or(inner, data))
  }

  /** `${month}/${year}`, the salary modal's default month label. */
  function MonthSlashYear(month: int, year: int): string {
    IntText(month) + "/" + IntText(year)
  }

  // ---------------------------------------------------------------------------
  // The normalizers as the page writes them: one `||` chain per field.

  function SalaryOf(info: Value, month: int, year: int): SalarySummary {
    SalarySummary(
      SalaryPeriod(
        Or(Lookup(info, ["period", "monthName"]), Str(MonthSlashYear(month, year))),
        ToNumber(Or(Or(Lookup(info, ["period", "presentDays"]), Lookup(info, ["attendance", "presentDays"])), Num(0))),
        ToNumber(Or(Or(Lookup(info, ["period", "attendancePercentage"]), Lookup(info, ["attendance", "attendancePercentage"])), Num(0)))),
      Earnings(
        ToNumber(Or(Or(Or(Lookup(info, ["earnings", "baseSalary"]), Get(info, "baseSalary")), Get(info, "basePay")), Num(0))),
        ToNumber(Or(Or(Lookup(info, ["earnings", "overtimePay"]), Get(info, "overtimePay")), Num(0))),
        ToNumber(Or(Lookup(info, ["earnings", "totalAllowances"]), Num(0))),
        ToNumber(Or(Or(Lookup(info, ["earnings", "grossSalary"]), Get(info, "grossSalary")), Num(0))),
        ToNumber(Or(Or(Lookup(info, ["earnings", "netSalary"]), Get(info, "netSalary")), Num(0)))),
      DeductionTotals(
        ToNumber(Or(Lookup(info, ["deductions", "totalDeductions"]), Num(0)))),
      AttendanceFigures(
        ToNumber(Or(Lookup(info, ["attendance", "presentDays"]), Num(0))),
        ToNumber(Or(Lookup(info, ["attendance", "attendancePercentage"]), Num(0)))))
  }

  function PayslipOf(employee: Value, info: Value, month: int, year: int, monthLong: string, generatedOn: string): Payslip {
    Payslip(
      EmployeeIdentity(
        ToText(Or(Get(employee, "name"), Str(""))),
        ToText(Or(Get(employee, "employeeId"), Str(""))),
        ToText(Or(Get(employee, "department"), Str("")))),
      PayslipPeriod(
        ToText(Or(Lookup(info, ["period", "monthName"]), Str(monthLong))),
        year,
        ToNumber(Or(Lookup(info, ["period", "workingDays"]), Num(30))),
        ToNumber(Or(Or(Lookup(info, ["period", "presentDays"]), Lookup(info, ["attendance", "presentDays"])), Num(0)))),
      PayslipEarnings(
        ToNumber(Or(Or(Or(Lookup(info, ["earnings", "baseSalary"]), Get(info, "baseSalary")), Get(info, "basePay")), Num(0))),
        ToNumber(Or(Or(Lookup(info, ["earnings", "overtimePay"]), Get(info, "overtimePay")), Num(0))),
        ToNumber(Or(Or(Lookup(info, ["earnings", "grossSalary"]), Get(info, "grossSalary")), Num(0)))),
      (var list := Lookup(info, ["deductions", "deductions"]); if list.Arr? then list.items else []),
      ToNumber(Or(Lookup(info, ["deductions", "totalDeductions"]), Num(0))),
      ToNumber(Or(Or(Lookup(info, ["earnings", "netSalary"]), Get(info, "netSalary")), Num(0))),
      generatedOn)
  }

  // ---------------------------------------------------------------------------
  // The same resolution policy written as a table of candidate paths, in
  // priority order.

  const PresentDaysPaths: seq<seq<string>> := [["period", "presentDays"], ["attendance", "presentDays"]]
  const AttendancePercentagePaths: seq<seq<string>> := [["period", "attendancePercentage"], ["attendance", "attendancePercentage"]]
  const BaseSalaryPaths: seq<seq<string>> := [["earnings", "baseSalary"], ["baseSalary"], ["basePay"]]
  const OvertimePayPaths: seq<seq<string>> := [["earnings", "overtimePay"], ["overtimePay"]]
  const TotalAllowancesPaths: seq<seq<string>> := [["earnings", "totalAllowances"]]
  const GrossSalaryPaths: seq<seq<string>> := [["earnings", "grossSalary"], ["grossSalary"]]
  const NetSalaryPaths: seq<seq<string>> := [["earnings", "netSalary"], ["netSalary"]]
  const TotalDeductionsPaths: seq<seq<string>> := [["deductions", "totalDeductions"]]
  const AttendancePresentDaysPaths: seq<seq<string>> := [["attendance", "presentDays"]]
  const AttendanceOnlyPercentagePaths: seq<seq<string>> := [["attendance", "attendancePercentage"]]

  /** A numeric field: the first truthy candidate, else 0, through `Number`. */
  function Amount(info: Value, paths: seq<seq<string>>): Numeric {
    ToNumber(Resolve(info, paths, Num(0)))
  }

  lemma Resolve1(info: Value, p: seq<string>, d: Value)
    ensures Resolve(info, [p], d) == Or(Lookup(info, p), d)
  {
    assert [p][1..] == [];
  }

  lemma Resolve2(info: Value, p: seq<string>, q: seq<string>, d: Value)
    ensures Resolve(info, [p, q], d) == Or(Or(Lookup(info, p), Lookup(info, q)), d)
  {
    assert [p, q][1..] == [q];
    Resolve1(info, q, d);
  }

  lemma Resolve3(info: Value, p: seq<string>, q: seq<string>, s: seq<string>, d: Value)
    ensures Resolve(info, [p, q, s], d) == Or(Or(Or(Lookup(info, p), Lookup(info, q)), Lookup(info, s)), d)
  {
    assert [p, q, s][1..] == [q, s];
    Resolve2(info, q, s, d);
  }

  /** The salary normalizer. It fails only when the response body is null;
      otherwise every field of the summary is the candidate table's
      resolution on the unwrapped envelope, so each numeric field is 0
      when all its candidates are falsy. */
  function NormalizeSalary(data: Value, month: int, year: int): (r: Option<SalarySummary>)
    ensures r.None? <==> Nullish(data)
    ensures r.Some? ==> var info := Unwrap(data).value;
      && r.value.period.monthName == Resolve(info, [["period", "monthName"]], Str(MonthSlashYear(month, year)))
      && r.value.period.presentDays == Amount(info, PresentDaysPaths)
      && r.value.period.attendancePercentage == Amount(info, AttendancePercentagePaths)
      && r.value.earnings.baseSalary == Amount(info, BaseSalaryPaths)
      && r.value.earnings.overtimePay == Amount(info, OvertimePayPaths)
      && r.value.earnings.totalAllowances == Amount(info, TotalAllowancesPaths)
      && r.value.earnings.grossSalary == Amount(info, GrossSalaryPaths)
      && r.value.earnings.netSalary == Amount(info, NetSalaryPaths)
      && r.value.deductions.totalDeductions == Amount(info, TotalDeductionsPaths)
      && r.value.attendance.presentDays == Amount(info, AttendancePresentDaysPaths)
      && r.value.attendance.attendancePercentage == Amount(info, AttendanceOnlyPercentagePaths)
  {
    match Unwrap(data)
    case None => None
    case Some(info) =>
      SalaryPeriodByTables(info, month, year);
      SalaryEarningsByTables(info, month, year);
      Some(SalaryOf(info, month, year))
  }

  // The page's `||` chains agree with the candidate tables, field group by
  // field group.

  lemma SalaryPeriodByTables(info: Value, month: int, year: int)
    ensures var r := SalaryOf(info, month, year);
      && r.period.monthName == Resolve(info, [["period", "monthName"]], Str(MonthSlashYear(month, year)))
      && r.period.presentDays == Amount(info, PresentDaysPaths)
      && r.period.attendancePercentage == Amount(info, AttendancePercentagePaths)
      && r.deductions.totalDeductions == Amount(info, TotalDeductionsPaths)
      && r.attendance.presentDays == Amount(info, AttendancePresentDaysPaths)
      && r.attendance.attendancePercentage == Amount(info, AttendanceOnlyPercentagePaths)
  {
    var d := Num(0);
    Resolve1(info, ["period", "monthName"], Str(MonthSlashYear(month, year)));
    Resolve2(info, ["period", "presentDays"], ["attendance", "presentDays"], d);
    Resolve2(info, ["period", "attendancePercentage"], ["attendance", "attendancePercentage"], d);
    Resolve1(info, ["deductions", "totalDeductions"], d);
    Resolve1(info, ["attendance", "presentDays"], d);
    Resolve1(info, ["attendance", "attendancePercentage"], d);
  }

  lemma SalaryEarningsByTables(info: Value, month: int, year: int)
    ensures var r := SalaryOf(info, month, year);
      && r.earnings.baseSalary == Amount(info, BaseSalaryPaths)
      && r.earnings.overtimePay == Amount(info, OvertimePayPaths)
      && r.earnings.totalAllowances == Amount(info, TotalAllowancesPaths)
      && r.earnings.grossSalary == Amount(info, GrossSalaryPaths)
      && r.earnings.netSalary == Amount(info, NetSalaryPaths)
  {
    var d := Num(0);
    Resolve3(info, ["earnings", "baseSalary"], ["baseSalary"], ["basePay"], d);
    Resolve2(info, ["earnings", "overtimePay"], ["overtimePay"], d);
    Resolve1(info, ["earnings", "totalAllowances"], d);
    Resolve2(info, ["earnings", "grossSalary"], ["grossSalary"], d);
    Resolve2(info, ["earnings", "netSalary"], ["netSalary"], d);
  }

  /** The payslip normalizer. It fails only when the employee is null (its
      `_id` is read to build the request) or the response body is null;
      otherwise the employee fields default to "", the working days to 30,
      the month label to the locale month name, the line items to the
      empty list unless the response carries an array, and the amounts
      follow the same candidate tables as the salary summary. */
  function NormalizePayslip(employee: Value, data: Value, month: int, year: int, monthLong: string, generatedOn: string): (r: Option<Payslip>)
    ensures r.None? <==> Nullish(employee) || Nullish(data)
    ensures r.Some? ==> var info := Unwrap(data).value;
      && r.value.employee.name == ToText(Or(Get(employee, "name"), Str("")))
      && r.value.employee.employeeId == ToText(Or(Get(employee, "employeeId"), Str("")))
      && r.value.employee.department == ToText(Or(Get(employee, "department"), Str("")))
      && r.value.period.monthName == ToText(Resolve(info, [["period", "monthName"]], Str(monthLong)))
      && r.value.period.year == year
      && r.value.period.workingDays == ToNumber(Resolve(info, [["period", "workingDays"]], Num(30)))
      && r.value.period.presentDays == Amount(info, PresentDaysPaths)
      && r.value.earnings.basicSalary == Amount(info, BaseSalaryPaths)
      && r.value.earnings.overtimePay == Amount(info, OvertimePayPaths)
      && r.value.earnings.totalEarnings == Amount(info, GrossSalaryPaths)
      && (Lookup(info, ["deductions", "deductions"]).Arr? ==> r.value.deductions == Lookup(info, ["deductions", "deductions"]).items)
      && (!Lookup(info, ["deductions", "deductions"]).Arr? ==> r.value.deductions == [])
      && r.value.totalDeductions == Amount(info, TotalDeductionsPaths)
      && r.value.netPay == Amount(info, NetSalaryPaths)
      && r.value.generatedOn == generatedOn
  {
    if Nullish(employee) then None
    else match Unwrap(data)
      case None => None
      case Some(info) =>
        PayslipPeriodByTables(employee, info, month, year, monthLong, generatedOn);
        PayslipEarningsByTables(employee, info, month, year, monthLong, generatedOn);
        PayslipTotalsByTables(employee, info, month, year, monthLong, generatedOn);
        Some(PayslipOf(employee, info, month, year, monthLong, generatedOn))
  }

  // The same agreement for the payslip, field group by field group.

  lemma PayslipPeriodByTables(employee: Value, info: Value, month: int, year: int, monthLong: string, generatedOn: string)
    ensures var r := PayslipOf(employee, info, month, year, monthLong, generatedOn);
      && r.period.monthName == ToText(Resolve(info, [["period", "monthName"]], Str(monthLong)))
      && r.period.workingDays == ToNumber(Resolve(info, [["period", "workingDays"]], Num(30)))
      && r.period.presentDays == Amount(info, PresentDaysPaths)
  {
    Resolve1(info, ["period", "monthName"], Str(monthLong));
    Resolve1(info, ["period", "workingDays"], Num(30));
    Resolve2(info, ["period", "presentDays"], ["attendance", "presentDays"], Num(0));
  }

  lemma PayslipEarningsByTables(employee: Value, info: Value, month: int, year: int, monthLong: string, generatedOn: string)
    ensures var r := PayslipOf(employee, info, month, year, monthLong, generatedOn);
      && r.earnings.basicSalary == Amount(info, BaseSalaryPaths)
      && r.earnings.overtimePay == Amount(info, OvertimePayPaths)
      && r.earnings.totalEarnings == Amount(info, GrossSalaryPaths)
  {
    var d := Num(0);
    Resolve3(info, ["earnings", "baseSalary"], ["baseSalary"], ["basePay"], d);
    Resolve2(info, ["earnings", "overtimePay"], ["overtimePay"], d);
    Resolve2(info, ["earnings", "grossSalary"], ["grossSalary"], d);
  }

  lemma PayslipTotalsByTables(employee: Value, info: Value, month: int, year: int, monthLong: string, generatedOn: string)
    ensures var r := PayslipOf(employee, info, month, year, monthLong, generatedOn);
      && r.totalDeductions == Amount(info, TotalDeductionsPaths)
      && r.netPay == Amount(info, NetSalaryPaths)
  {
    Resolve2(info, ["earnings", "netSalary"], ["netSalary"], Num(0));
    Resolve1(info, ["deductions", "totalDeductions"], Num(0));
  }

  // ---------------------------------------------------------------------------
  // Properties of the resolution policy

  /** A numeric field whose candidates are all falsy (missing, null, 0, "",
      false) reads 0: the summary never shows a missing number. */
  lemma AmountDefaultsToZero(info: Value, paths: seq<seq<string>>)
    requires forall i :: 0 <= i < |paths| ==> !Truthy(Lookup(info, paths[i]))
    ensures Amount(info, paths) == Finite(0)
  {
    ResolvePicksFirstTruthy(info, paths, Num(0), |paths|);
  }

  /** A numeric field is the `Number` of the value at its first truthy
      candidate path: a falsy value at a higher priority falls through. */
  lemma AmountFollowsPriority(info: Value, paths: seq<seq<string>>, i: nat)
    requires i < |paths| && Truthy(Lookup(info, paths[i]))
    requires forall j :: 0 <= j < i ==> !Truthy(Lookup(info, paths[j]))
    ensures Amount(info, paths) == ToNumber(Lookup(info, paths[i]))
  {
    ResolvePicksFirstTruthy(info, paths, Num(0), i);
  }

  /** The salary modal and the payslip modal read the same response the same
      way: base salary, overtime, gross, net, total deductions and present
      days agree field for field, and the payslip's month label is the text
      of the summary's whenever the response supplies one. */
  lemma PayslipAgreesWithSalary(employee: Value, data: Value, month: int, year: int, monthLong: string, generatedOn: string)
    requires !Nullish(employee)
    ensures var s := NormalizeSalary(data, month, year);
      var p := NormalizePayslip(employee, data, month, year, monthLong, generatedOn);
      && (s.Some? <==> p.Some?)
      && (s.Some? ==>
        && p.value.earnings.basicSalary == s.value.earnings.baseSalary
        && p.value.earnings.overtimePay == s.value.earnings.overtimePay
        && p.value.earnings.totalEarnings == s.value.earnings.grossSalary
        && p.value.netPay == s.value.earnings.netSalary
        && p.value.totalDeductions == s.value.deductions.totalDeductions
        && p.value.period.presentDays == s.value.period.presentDays
        && (Truthy(Lookup(Unwrap(data).value, ["period", "monthName"])) ==>
              p.value.period.monthName == ToText(s.value.period.monthName)))
  {
    if !Nullish(data) {
      var info := Unwrap(data).value;
      assert NormalizeSalary(data, month, year) == Some(SalaryOf(info, month, year));
      assert NormalizePayslip(employee, data, month, year, monthLong, generatedOn)
        == Some(PayslipOf(employee, info, month, year, monthLong, generatedOn));
    }
  }
}
