/** The state of the employees page and the handlers that replace it: the
    directory page and its pager, today's attendance list, the attendance
    command handlers, and the salary and payslip modals. Each handler takes
    the gateway's reply as a parameter. */
module EmployeesPage {
  import opened JsValues
  import opened Payroll
  import opened Attendance

  /** What `apiCall` yields: the parsed body of a successful response, or the
      message of the error it throws. */
  datatype Reply = Ok(body: Value) | Failed(message: string)

  // ---------------------------------------------------------------------------
  // Pager

  /** Previous: `Math.max(prev - 1, 1)`. */
  function PrevPage(p: int): (r: int)
    ensures r >= 1
    ensures p > 1 ==> r == p - 1
    ensures p <= 1 ==> r == 1
  {
    if p - 1 > 1 then p - 1 else 1
  }

  /** Next: `Math.min(prev + 1, totalPages)`. */
  function NextPage(p: int, totalPages: int): (r: int)
    ensures r <= totalPages
    ensures p < totalPages ==> r == p + 1
    ensures p >= totalPages ==> r == totalPages
  {
    if p + 1 < totalPages then p + 1 else totalPages
  }

  /** From a page within `[1, totalPages]` both buttons keep the page within
      it; an enabled button (Previous away from page 1, Next away from the
      last page) moves by exactly one page, and a disabled one would not
      move at all. */
  lemma PagerStaysInRange(p: int, totalPages: int)
    requires 1 <= p <= totalPages
    ensures 1 <= PrevPage(p) <= totalPages && 1 <= NextPage(p, totalPages) <= totalPages
    ensures !PreviousDisabled(p) ==> PrevPage(p) == p - 1
    ensures PreviousDisabled(p) ==> PrevPage(p) == p
    ensures !NextDisabled(p, totalPages) ==> NextPage(p, totalPages) == p + 1
    ensures NextDisabled(p, totalPages) ==> NextPage(p, totalPages) == p
  {
  }

  /** `disabled={currentPage === 1}`: Previous is disabled exactly when a
      click on it would leave the page where it is. */
  predicate PreviousDisabled(p: int): (r: bool)
    ensures r <==> PrevPage(p) == p
  {
    p == 1
  }

  /** `disabled={currentPage === totalPages}`: Next is disabled exactly when
      a click on it would leave the page where it is. */
  predicate NextDisabled(p: int, totalPages: int): (r: bool)
    ensures r <==> NextPage(p, totalPages) == p
  {
    p == totalPages
  }

  /** The page reached by `clicks` clicks on Next. */
  function NextClicks(p: int, totalPages: int, clicks: nat): int
    decreases clicks
  {
    if clicks == 0 then p else NextClicks(NextPage(p, totalPages), totalPages, clicks - 1)
  }

  /** Walking Next from any page in range moves one page per click until the
      last page, and then stays there. */
  lemma {:induction false} NextClicksReachLastPage(p: int, totalPages: int, clicks: nat)
    requires 1 <= p <= totalPages
    ensures NextClicks(p, totalPages, clicks) == if p + clicks <= totalPages then p + clicks else totalPages
    decreases clicks
  {
    if clicks > 0 {
      NextClicksReachLastPage(NextPage(p, totalPages), totalPages, clicks - 1);
    }
  }

  /** `totalPages > 1 && ...`: the pager is shown only with more than one
      page, that is, exactly when Next is enabled on the first page. */
  predicate PagerShown(totalPages: int): (r: bool)
    ensures totalPages >= 1 ==> (r <==> !NextDisabled(1, totalPages))
  {
    totalPages > 1
  }

  // ---------------------------------------------------------------------------
  // Directory query and reply

  const PageSize := "12"

  /** The query string of `fetchEmployees(page)`, in the order it is built. */
  function EmployeesQuery(page: int, search: string, role: string, department: string): (q: seq<(string, string)>)
    ensures |q| == 5
    ensures q[0] == ("page", IntText(page)) && q[1] == ("limit", PageSize)
    ensures q[2] == ("search", search) && q[3] == ("role", role) && q[4] == ("department", department)
  {
    [("page", IntText(page)), ("limit", PageSize), ("search", search), ("role", role), ("department", department)]
  }

  datatype Directory = Directory(employees: Value, stats: Value, totalPages: int)

  /** The stored page count: the number the server sent. */
  function PageCount(v: Value): int {
    if v.Num? then v.n else 1
  }

  /** What a successful directory reply stores: `data.data.employees || []`,
      `data.data.stats || {}` and `data.meta?.pagination?.totalPages || 1`.
      `None` when `data` or `data.data` is null or missing, where the strict
      `data.data.employees` throws and nothing is stored. */
  function DirectoryOf(data: Value): (r: Option<Directory>)
    ensures r.None? <==> Nullish(data) || Nullish(Get(data, "data"))
    ensures r.Some? ==> var inner := Get(data, "data");
      && (Truthy(Get(inner, "employees")) ==> r.value.employees == Get(inner, "employees"))
      && (!Truthy(Get(inner, "employees")) ==> r.value.employees == Arr([]))
      && (Truthy(Get(inner, "stats")) ==> r.value.stats == Get(inner, "stats"))
      && (!Truthy(Get(inner, "stats")) ==> r.value.stats == Obj(map[]))
      && (Lookup(data, ["meta", "pagination", "totalPages"]).Num? && Truthy(Lookup(data, ["meta", "pagination", "totalPages"]))
          ==> r.value.totalPages == Lookup(data, ["meta", "pagination", "totalPages"]).n)
      && (!Truthy(Lookup(data, ["meta", "pagination", "totalPages"])) ==> r.value.totalPages == 1)
  {
    match Member(data, "data")
    case None => None
    case Some(inner) =>
      match Member(inner, "employees")
      case None => None
      case Some(employees) =>
        Some(Directory(
          Or(employees, Arr([])),
          Or(Get(inner, "stats"), Obj(map[])),
          PageCount(Or(Lookup(Get(data, "meta"), ["pagination", "totalPages"]), Num(1)))))
  }

  // ---------------------------------------------------------------------------
  // Today's attendance reply

  const TodayPaths: seq<seq<string>> := [["data", "attendanceSummary"], ["data"], ["attendanceSummary"]]

  /** `data.data?.attendanceSummary || data.data || data.attendanceSummary || []`:
      the first truthy of the three envelope shapes, else the empty list.
      `None` when `data` is null, where reading `data.data` throws. */
  function TodayAttendanceOf(data: Value): (r: Option<Value>)
    ensures r.None? <==> Nullish(data)
    ensures r.Some? ==> r.value == Resolve(data, TodayPaths, Arr([]))
    ensures r.Some? ==> Truthy(r.value)
  {
    match Member(data, "data")
    case None => None
    case Some(inner) =>
      assert TodayPaths[1..] == [["data"], ["attendanceSummary"]];
      assert TodayPaths[2..] == [["attendanceSummary"]];
      assert Lookup(data, ["data", "attendanceSummary"]) == Get(inner, "attendanceSummary");
      Some(Or(Or(Or(Get(inner, "attendanceSummary"), inner), Get(data, "attendanceSummary")), Arr([])))
  }

  /** The list shown is always one of the three envelope shapes found in the
      reply, or the empty list. */
  lemma TodayAttendanceIsFromReply(data: Value)
    requires !Nullish(data)
    ensures var r := TodayAttendanceOf(data).value;
      r == Arr([]) || r == Lookup(data, ["data", "attendanceSummary"]) || r == Get(data, "data") || r == Get(data, "attendanceSummary")
  {
    ResolveIsCandidate(data, TodayPaths, Arr([]));
  }

  // ---------------------------------------------------------------------------
  // The page's state

  class PageState {
    var currentPage: int
    var totalPages: int
    var employees: Value
    var stats: Value
    var loading: bool
    var todayAttendance: Value
    var searchTerm: string
    var selectedRole: string
    var selectedDepartment: string
    var selectedEmployee: Value
    var salaryData: Option<SalarySummary>
    var payslipData: Option<Payslip>
    var showSalaryModal: bool
    var showPayslipModal: bool

    /** The page's state when it mounts. */
    constructor ()
      ensures currentPage == 1 && totalPages == 1
      ensures employees == Arr([]) && stats == Obj(map[]) && !loading
      ensures todayAttendance == Arr([])
      ensures searchTerm == "" && selectedRole == "" && selectedDepartment == ""
      ensures selectedEmployee == Null && salaryData.None? && payslipData.None?
      ensures !showSalaryModal && !showPayslipModal
    {
      currentPage, totalPages := 1, 1;
      employees, stats, loading := Arr([]), Obj(map[]), false;
      todayAttendance := Arr([]);
      searchTerm, selectedRole, selectedDepartment := "", "", "";
      selectedEmployee, salaryData, payslipData := Null, None, None;
      showSalaryModal, showPayslipModal := false, false;
    }

    ghost predicate PageInRange()
      reads this
    {
      1 <= currentPage <= totalPages
    }

    /** The Previous button. */
    method ClickPrevious()
      modifies this`currentPage
      ensures currentPage == PrevPage(old(currentPage))
      ensures old(PageInRange()) ==> PageInRange()
    {
      currentPage := if currentPage - 1 > 1 then currentPage - 1 else 1;
    }

    /** The Next button. */
    method ClickNext()
      modifies this`currentPage
      ensures currentPage == NextPage(old(currentPage), totalPages)
      ensures old(PageInRange()) ==> PageInRange()
    {
      currentPage := if currentPage + 1 < totalPages then currentPage + 1 else totalPages;
    }

    /** Typing in the search box. The page number is kept as it is. */
    method SetSearchTerm(term: string)
      modifies this`searchTerm
      ensures searchTerm == term
    {
      searchTerm := term;
    }

    /** Choosing a role filter. The page number is kept as it is. */
    method SetRole(role: string)
      modifies this`selectedRole
      ensures selectedRole == role
    {
      selectedRole := role;
    }

    /** Choosing a department filter. The page number is kept as it is. */
    method SetDepartment(department: string)
      modifies this`selectedDepartment
      ensures selectedDepartment == department
    {
      selectedDepartment := department;
    }

    /** `fetchEmployees(page)`: sends the directory query and stores the
      directory from the reply; on a failed request or a reply without
      `data.data` the directory is left as it was. Loading ends false. */
    method FetchEmployees(page: int, reply: Reply) returns (query: seq<(string, string)>, failed: bool)
      modifies this`employees, this`stats, this`totalPages, this`loading
      ensures query == EmployeesQuery(page, searchTerm, selectedRole, selectedDepartment)
      ensures failed <==> reply.Failed? || DirectoryOf(reply.body).None?
      ensures !failed ==> var d := DirectoryOf(reply.body).value;
        employees == d.employees && stats == d.stats && totalPages == d.totalPages
      ensures failed ==> employees == old(employees) && stats == old(stats) && totalPages == old(totalPages)
      ensures !loading
    {
      loading := true;
      query := EmployeesQuery(page, searchTerm, selectedRole, selectedDepartment);
      failed := true;
      if reply.Ok? {
        var d := DirectoryOf(reply.body);
        if d.Some? {
          employees := d.value.employees;
          stats := d.value.stats;
          totalPages := d.value.totalPages;
          failed := false;
        }
      }
      loading := false;
    }

    /** The page's effect, run whenever the page number, the search term or a
      filter changes: the directory is fetched for the current page, which a
      new search term or filter does not reset, and today's list is fetched. */
    method Reload(directoryReply: Reply, todayReply: Reply) returns (query: seq<(string, string)>)
      modifies this`employees, this`stats, this`totalPages, this`loading, this`todayAttendance
      ensures query == EmployeesQuery(currentPage, searchTerm, selectedRole, selectedDepartment)
      ensures currentPage == old(currentPage)
      ensures directoryReply.Ok? && DirectoryOf(directoryReply.body).Some? ==>
        var d := DirectoryOf(directoryReply.body).value;
        employees == d.employees && stats == d.stats && totalPages == d.totalPages
      ensures !(directoryReply.Ok? && DirectoryOf(directoryReply.body).Some?) ==>
        employees == old(employees) && stats == old(stats) && totalPages == old(totalPages)
      ensures !loading
      ensures todayReply.Ok? && TodayAttendanceOf(todayReply.body).Some? ==>
        todayAttendance == TodayAttendanceOf(todayReply.body).value
      ensures !(todayReply.Ok? && TodayAttendanceOf(todayReply.body).Some?) ==>
        todayAttendance == old(todayAttendance)
    {
      var failed;
      query, failed := FetchEmployees(currentPage, directoryReply);
      FetchTodayAttendance(todayReply);
    }

    /** `fetchTodayAttendance()`: stores the list from the reply; a failure is
      only logged and leaves the list as it was. */
    method FetchTodayAttendance(reply: Reply)
      modifies this`todayAttendance
      ensures reply.Ok? && TodayAttendanceOf(reply.body).Some? ==> todayAttendance == TodayAttendanceOf(reply.body).value
      ensures !(reply.Ok? && TodayAttendanceOf(reply.body).Some?) ==> todayAttendance == old(todayAttendance)
    {
      if reply.Ok? {
        var list := TodayAttendanceOf(reply.body);
        if list.Some? {
          todayAttendance := list.value;
        }
      }
    }

    /** `handleCheckIn`, `handleCheckOut`, `handleStartBreak`, `handleEndBreak`:
      whatever today's list says, the command's request is sent; today's list
      is fetched again only when that request succeeded, and the alert
      reports the outcome. */
    method RunCommand(employeeId: Value, cmd: Command, reply: Reply, refresh: Reply) returns (sent: Request, notice: string)
      modifies this`todayAttendance
      ensures sent == RequestFor(employeeId, cmd)
      ensures reply.Ok? ==> notice == SuccessNotice(cmd)
      ensures reply.Failed? ==> notice == FailureNotice(cmd, reply.message)
      ensures reply.Ok? && refresh.Ok? && TodayAttendanceOf(refresh.body).Some? ==>
        todayAttendance == TodayAttendanceOf(refresh.body).value
      ensures !(reply.Ok? && refresh.Ok? && TodayAttendanceOf(refresh.body).Some?) ==>
        todayAttendance == old(todayAttendance)
    {
      sent := RequestFor(employeeId, cmd);
      if reply.Ok? {
        FetchTodayAttendance(refresh);
        notice := SuccessNotice(cmd);
      } else {
        notice := FailureNotice(cmd, reply.message);
      }
    }

    /** `viewSalaryDetails(employee)`: on success the salary modal opens on
      the normalized summary; on any failure nothing changes. */
    method ViewSalaryDetails(employee: Value, reply: Reply, month: int, year: int) returns (shown: bool)
      modifies this`salaryData, this`selectedEmployee, this`showSalaryModal
      ensures shown <==> !Nullish(employee) && reply.Ok? && !Nullish(reply.body)
      ensures shown ==> (salaryData == NormalizeSalary(reply.body, month, year) && salaryData.Some?
        && selectedEmployee == employee && showSalaryModal)
      ensures !shown ==> (salaryData == old(salaryData) && selectedEmployee == old(selectedEmployee)
        && showSalaryModal == old(showSalaryModal))
    {
      shown := !Nullish(employee) && reply.Ok? && !Nullish(reply.body);
      if shown {
        salaryData := NormalizeSalary(reply.body, month, year);
        selectedEmployee := employee;
        showSalaryModal := true;
      }
    }

    /** `viewPayslip(employee)`: on success the payslip modal opens on the
      normalized payslip; on any failure nothing changes. */
    method ViewPayslip(employee: Value, reply: Reply, month: int, year: int, monthLong: string, generatedOn: string)
      returns (shown: bool)
      modifies this`payslipData, this`selectedEmployee, this`showPayslipModal
      ensures shown <==> !Nullish(employee) && reply.Ok? && !Nullish(reply.body)
      ensures shown ==> (payslipData == NormalizePayslip(employee, reply.body, month, year, monthLong, generatedOn)
        && payslipData.Some? && selectedEmployee == employee && showPayslipModal)
      ensures !shown ==> (payslipData == old(payslipData) && selectedEmployee == old(selectedEmployee)
        && showPayslipModal == old(showPayslipModal))
    {
      shown := !Nullish(employee) && reply.Ok? && !Nullish(reply.body);
      if shown {
        payslipData := NormalizePayslip(employee, reply.body, month, year, monthLong, generatedOn);
        selectedEmployee := employee;
        showPayslipModal := true;
      }
    }
  }
}
