/** Worked inputs for the payroll normalizers: what the salary and payslip
    modals show for a few concrete responses. */
module PayrollExamples {
  import opened JsValues
  import opened Payroll

  /** An empty response object yields the all-zero summary labelled
      `${month}/${year}`. */
  lemma EmptyResponseIsAllZero(month: int, year: int)
    ensures var z := Finite(0);
      NormalizeSalary(Obj(map[]), month, year) == Some(SalarySummary(
        SalaryPeriod(Str(MonthSlashYear(month, year)), z, z),
        Earnings(z, z, z, z, z),
        DeductionTotals(z),
        AttendanceFigures(z, z)))
  {
    var body := Obj(map[]);
    assert Unwrap(body) == Some(body);
    assert NormalizeSalary(body, month, year) == Some(SalaryOf(body, month, year));
  }

  const FlatBody := Obj(map["baseSalary" := Num(20000), "overtimePay" := Num(1500)])

  /** A flat response `{ baseSalary: 20000, overtimePay: 1500 }` with no
      nested `earnings`: the top-level figures are used, gross and net are
      not derived from them but read 0, and so do the deductions. */
  lemma FlatResponseExample(month: int, year: int)
    ensures var r := NormalizeSalary(FlatBody, month, year);
      && r.Some?
      && r.value.earnings == Earnings(Finite(20000), Finite(1500), Finite(0), Finite(0), Finite(0))
      && r.value.deductions.totalDeductions == Finite(0)
  {
    assert Unwrap(FlatBody) == Some(FlatBody) by { assert Get(FlatBody, "data") == Undefined; }
    FlatFiguresAreUsed();
    FlatMissingFiguresAreZero();
  }

  lemma FlatFiguresAreUsed()
    ensures Amount(FlatBody, BaseSalaryPaths) == Finite(20000)
    ensures Amount(FlatBody, OvertimePayPaths) == Finite(1500)
  {
    assert Get(FlatBody, "earnings") == Undefined;
    assert Lookup(FlatBody, ["earnings", "baseSalary"]) == Undefined;
    assert Lookup(FlatBody, ["earnings", "overtimePay"]) == Undefined;
    assert Lookup(FlatBody, ["baseSalary"]) == Num(20000);
    assert Lookup(FlatBody, ["overtimePay"]) == Num(1500);
    AmountFollowsPriority(FlatBody, BaseSalaryPaths, 1);
    AmountFollowsPriority(FlatBody, OvertimePayPaths, 1);
  }

  lemma FlatMissingFiguresAreZero()
    ensures Amount(FlatBody, TotalAllowancesPaths) == Finite(0)
    ensures Amount(FlatBody, GrossSalaryPaths) == Finite(0)
    ensures Amount(FlatBody, NetSalaryPaths) == Finite(0)
    ensures Amount(FlatBody, TotalDeductionsPaths) == Finite(0)
  {
    assert Get(FlatBody, "earnings") == Undefined && Get(FlatBody, "deductions") == Undefined;
    assert Lookup(FlatBody, ["earnings", "totalAllowances"]) == Undefined;
    assert Lookup(FlatBody, ["earnings", "grossSalary"]) == Undefined;
    assert Lookup(FlatBody, ["earnings", "netSalary"]) == Undefined;
    assert Lookup(FlatBody, ["deductions", "totalDeductions"]) == Undefined;
    assert Lookup(FlatBody, ["grossSalary"]) == Undefined;
    assert Lookup(FlatBody, ["netSalary"]) == Undefined;
    AmountDefaultsToZero(FlatBody, TotalAllowancesPaths);
    AmountDefaultsToZero(FlatBody, GrossSalaryPaths);
    AmountDefaultsToZero(FlatBody, NetSalaryPaths);
    AmountDefaultsToZero(FlatBody, TotalDeductionsPaths);
  }

  const FalsyInfo := Obj(map["earnings" := Obj(map["baseSalary" := Num(0)]), "baseSalary" := Str(""), "basePay" := Num(900)])

  /** A zero at a higher-priority path does not stick: `earnings.baseSalary`
      of 0 and an empty `baseSalary` fall through to `basePay`, and the
      `data` envelope is unwrapped first. */
  lemma FalsyFallsThroughExample(month: int, year: int)
    ensures var r := NormalizeSalary(Obj(map["data" := FalsyInfo]), month, year);
      r.Some? && r.value.earnings.baseSalary == Finite(900)
  {
    var body := Obj(map["data" := FalsyInfo]);
    assert Unwrap(body) == Some(FalsyInfo) by { assert Get(body, "data") == FalsyInfo; }
    FalsyBaseFallsThrough();
  }

  lemma FalsyBaseFallsThrough()
    ensures Amount(FalsyInfo, BaseSalaryPaths) == Finite(900)
  {
    assert Get(FalsyInfo, "earnings") == Obj(map["baseSalary" := Num(0)]);
    assert Lookup(FalsyInfo, ["earnings", "baseSalary"]) == Num(0);
    assert Lookup(FalsyInfo, ["baseSalary"]) == Str("");
    assert Lookup(FalsyInfo, ["basePay"]) == Num(900);
    AmountFollowsPriority(FalsyInfo, BaseSalaryPaths, 2);
  }

  const BareSlipBody := Obj(map["deductions" := Obj(map["deductions" := Str("n/a")])])

  /** A payslip for an employee without identity fields, from a response
      without a period and with a non-array line-item list: empty identity,
      30 working days, the locale month name and no line items. */
  lemma PayslipDefaultsExample(month: int, year: int, monthLong: string, generatedOn: string)
    ensures var r := NormalizePayslip(Obj(map[]), BareSlipBody, month, year, monthLong, generatedOn);
      && r.Some?
      && r.value.employee == EmployeeIdentity("", "", "")
      && r.value.period == PayslipPeriod(monthLong, year, Finite(30), Finite(0))
      && r.value.deductions == []
  {
    assert Unwrap(BareSlipBody) == Some(BareSlipBody) by { assert Get(BareSlipBody, "data") == Undefined; }
    BareSlipPeriod(monthLong);
    BareEmployeeIdentity();
    var r := NormalizePayslip(Obj(map[]), BareSlipBody, month, year, monthLong, generatedOn);
    assert r.Some?;
    assert r.value.employee == EmployeeIdentity("", "", "");
    assert r.value.period == PayslipPeriod(monthLong, year, Finite(30), Finite(0));
  }

  lemma BareEmployeeIdentity()
    ensures ToText(Or(Get(Obj(map[]), "name"), Str(""))) == ""
    ensures ToText(Or(Get(Obj(map[]), "employeeId"), Str(""))) == ""
    ensures ToText(Or(Get(Obj(map[]), "department"), Str(""))) == ""
  {
    TextOrEmpty(Undefined);
  }

  lemma BareSlipPeriod(monthLong: string)
    ensures ToText(Resolve(BareSlipBody, [["period", "monthName"]], Str(monthLong))) == monthLong
    ensures ToNumber(Resolve(BareSlipBody, [["period", "workingDays"]], Num(30))) == Finite(30)
    ensures Amount(BareSlipBody, PresentDaysPaths) == Finite(0)
    ensures !Lookup(BareSlipBody, ["deductions", "deductions"]).Arr?
  {
    assert Get(BareSlipBody, "period") == Undefined && Get(BareSlipBody, "attendance") == Undefined;
    assert Lookup(BareSlipBody, ["period", "monthName"]) == Undefined;
    assert Lookup(BareSlipBody, ["period", "workingDays"]) == Undefined;
    assert Lookup(BareSlipBody, ["period", "presentDays"]) == Undefined;
    assert Lookup(BareSlipBody, ["attendance", "presentDays"]) == Undefined;
    assert Get(BareSlipBody, "deductions") == Obj(map["deductions" := Str("n/a")]);
    assert Lookup(BareSlipBody, ["deductions", "deductions"]) == Str("n/a");
    Resolve1(BareSlipBody, ["period", "monthName"], Str(monthLong));
    Resolve1(BareSlipBody, ["period", "workingDays"], Num(30));
    AmountDefaultsToZero(BareSlipBody, PresentDaysPaths);
  }
}
