/** What the employees page derives from today's attendance snapshot: the
    status badge of each worker, the attendance commands it offers, the
    requests and notices those commands produce, and the dashboard's
    counters. */
module Attendance {
  import opened JsValues

  // ---------------------------------------------------------------------------
  // One snapshot record: its three flags, read by truthiness.

  predicate IsPresent(att: Value) {
    Truthy(Get(att, "isPresent"))
  }

  predicate IsOnBreak(att: Value) {
    Truthy(Get(att, "onBreak"))
  }

  predicate IsCheckedOut(att: Value) {
    Truthy(Get(att, "logoutTime"))
  }

  /** The badge: "Present", "On Break" or "Absent". */
  datatype Status = Present | OnBreak | Absent

  /** The badge of a row of the dashboard and of the attendance tab. A record
      flagged on break but not present reads "Absent". */
  function RowStatus(att: Value): (s: Status)
    ensures s == OnBreak <==> IsPresent(att) && IsOnBreak(att)
    ensures s == Present <==> IsPresent(att) && !IsOnBreak(att)
    ensures s == Absent <==> !IsPresent(att)
  {
    if IsPresent(att) then (if IsOnBreak(att) then OnBreak else Present) else Absent
  }

  // ---------------------------------------------------------------------------
  // The employee card looks its worker up in today's list.

  /** `todayAttendance.find(att => att.id === employeeId)`, as the index of the
      first match (|list| when there is none). */
  function FindIndex(list: seq<Value>, employeeId: Value): (k: nat)
    ensures k <= |list|
    ensures k < |list| ==> StrictEquals(Get(list[k], "id"), employeeId)
    ensures forall j :: 0 <= j < k ==> !StrictEquals(Get(list[j], "id"), employeeId)
    decreases |list|
  {
    if list == [] then 0
    else if StrictEquals(Get(list[0], "id"), employeeId) then 0
    else 1 + FindIndex(list[1..], employeeId)
  }

  /** `list[k]` is the first record whose `id` is `===` to `employeeId`. */
  predicate FirstMatchAt(list: seq<Value>, employeeId: Value, k: int) {
    0 <= k < |list| && StrictEquals(Get(list[k], "id"), employeeId)
    && forall j :: 0 <= j < k ==> !StrictEquals(Get(list[j], "id"), employeeId)
  }

  /** `todayAttendance.find(att => att.id === employeeId)`: the first matching
      record, or nothing. */
  function FindAttendance(list: seq<Value>, employeeId: Value): (r: Option<Value>)
    ensures r.None? <==> forall j :: 0 <= j < |list| ==> !StrictEquals(Get(list[j], "id"), employeeId)
    ensures r.Some? ==> exists k :: FirstMatchAt(list, employeeId, k) && r.value == list[k]
  {
    var k := FindIndex(list, employeeId);
    if k < |list| then Some(list[k]) else None
  }

  /** The card's badge: `attendance?.isPresent ? (isOnBreak ? ...) : 'Absent'`
      with `isOnBreak = attendance?.onBreak || false`. A worker missing from
      today's list is absent; a worker in it gets the same badge as its row. */
  function CardStatus(attendance: Option<Value>): (s: Status)
    ensures attendance.None? ==> s == Absent
    ensures attendance.Some? ==> s == RowStatus(attendance.value)
  {
    match attendance
    case None => Absent
    case Some(att) =>
      if IsPresent(att) then (if Truthy(Or(Get(att, "onBreak"), Bool(false))) then OnBreak else Present) else Absent
  }

  // ---------------------------------------------------------------------------
  // Commands and buttons

  datatype Command = CheckIn | CheckOut | StartBreak(kind: string) | EndBreak

  datatype Button = Button(command: Command, caption: string, disabled: bool)

  function Commands(bs: seq<Button>): set<Command> {
    set b | b in bs :: b.command
  }

  /** The commands a worker in status `s` is meant to be offered. */
  function Offered(s: Status): set<Command> {
    match s
    case Absent => {CheckIn}
    case OnBreak => {EndBreak, CheckOut}
    case Present => {StartBreak("lunch"), StartBreak("tea"), CheckOut}
  }

  function CheckOutButton(att: Value): Button {
    Button(CheckOut, if IsCheckedOut(att) then "Checked Out" else "Check Out", IsCheckedOut(att))
  }

  const CheckInButton := Button(CheckIn, "Check In", false)
  const EndBreakButton := Button(EndBreak, "End Break", false)
  const LunchButton := Button(StartBreak("lunch"), "Lunch", false)
  const TeaButton := Button(StartBreak("tea"), "Tea", false)

  /** The buttons of an employee card. It offers exactly the commands of the
      card's status, and the only button ever disabled is Check Out, which is
      disabled exactly when the record has a logout time. */
  function CardButtons(attendance: Option<Value>): (bs: seq<Button>)
    ensures Commands(bs) == Offered(CardStatus(attendance))
    ensures forall b :: b in bs ==>
      (b.disabled <==> b.command == CheckOut && attendance.Some? && IsCheckedOut(attendance.value))
  {
    match attendance
    case None => [CheckInButton]
    case Some(att) =>
      if !IsPresent(att) then [CheckInButton]
      else if Truthy(Or(Get(att, "onBreak"), Bool(false))) then [EndBreakButton, CheckOutButton(att)]
      else [LunchButton, TeaButton, CheckOutButton(att)]
  }

  /** The buttons of a row of the attendance tab. Unlike the card, a worker on
      break is offered End Break alone, with no Check Out. */
  function RowButtons(att: Value): (bs: seq<Button>)
    ensures RowStatus(att) != OnBreak ==> Commands(bs) == Offered(RowStatus(att))
    ensures RowStatus(att) == OnBreak ==> Commands(bs) == {EndBreak}
    ensures forall b :: b in bs ==> (b.disabled <==> b.command == CheckOut && IsCheckedOut(att))
  {
    if !IsPresent(att) then [CheckInButton]
    else if Truthy(Or(Get(att, "onBreak"), Bool(false))) then [EndBreakButton]
    else [LunchButton, TeaButton, CheckOutButton(att)]
  }

  /** The attendance tab never offers a command the card of the same worker
      does not, and offers the same ones except Check Out during a break. */
  lemma RowOffersWithinCard(att: Value)
    ensures Commands(RowButtons(att)) <= Commands(CardButtons(Some(att)))
    ensures Commands(CardButtons(Some(att))) - Commands(RowButtons(att))
      == if RowStatus(att) == OnBreak then {CheckOut} else {}
  {
  }

  // ---------------------------------------------------------------------------
  // Requests and notices

  datatype Request = Request(verb: string, path: string, body: Option<Value>)

  const Location: map<string, Value> := map["latitude" := Num(0), "longitude" := Num(0), "address" := Str("Restaurant Location")]

  /** The request a command sends for the worker `employeeId`: one POST to
      the worker's endpoint for that command, whatever the worker's state. */
  function RequestFor(employeeId: Value, cmd: Command): (r: Request)
    ensures r.verb == "POST"
    ensures cmd == CheckIn ==>
      r.path == "/employees/" + ToText(employeeId) + "/checkin"
      && r.body == Some(Obj(Location["workLocation" := Str("dining")]))
    ensures cmd == CheckOut ==>
      r.path == "/employees/" + ToText(employeeId) + "/checkout" && r.body == Some(Obj(Location))
    ensures cmd.StartBreak? ==>
      r.path == "/employees/" + ToText(employeeId) + "/break/start"
      && r.body == Some(Obj(map["type" := Str(cmd.kind)]))
    ensures cmd == EndBreak ==>
      r.path == "/employees/" + ToText(employeeId) + "/break/end" && r.body.None?
  {
    var base := "/employees/" + ToText(employeeId);
    match cmd
    case CheckIn => Request("POST", base + "/checkin", Some(Obj(Location["workLocation" := Str("dining")])))
    case CheckOut => Request("POST", base + "/checkout", Some(Obj(Location)))
    case StartBreak(kind) => Request("POST", base + "/break/start", Some(Obj(map["type" := Str(kind)])))
    case EndBreak => Request("POST", base + "/break/end", None)
  }

  /** Two different commands never send the same request. */
  lemma RequestsDistinguishCommands(employeeId: Value, c1: Command, c2: Command)
    requires RequestFor(employeeId, c1) == RequestFor(employeeId, c2)
    ensures c1 == c2
  {
    BodyIdentifiesCommand(employeeId, c1);
    BodyIdentifiesCommand(employeeId, c2);
  }

  /** The body alone tells the commands apart: only End Break sends none,
      only Check In sends a work location, only a break start sends a type. */
  lemma BodyIdentifiesCommand(employeeId: Value, cmd: Command)
    ensures var b := RequestFor(employeeId, cmd).body;
      && (b.None? <==> cmd == EndBreak)
      && (b.Some? ==> b.value.Obj?)
      && (b.Some? ==> ("workLocation" in b.value.fields <==> cmd == CheckIn))
      && (b.Some? ==> ("type" in b.value.fields <==> cmd.StartBreak?))
      && (cmd.StartBreak? ==> b.value.fields["type"] == Str(cmd.kind))
  {
    assert "workLocation" !in Location && "type" !in Location;
  }

  function UpperAscii(c: char): char {
    if 'a' <= c <= 'z' then (c as int - 'a' as int + 'A' as int) as char else c
  }

  /** `type.charAt(0).toUpperCase() + type.slice(1)` for ASCII text. */
  function Capitalize(s: string): (r: string)
    ensures |r| == |s|
    ensures |s| > 0 ==> r[1..] == s[1..] && r[0] == UpperAscii(s[0])
  {
    if s == [] then [] else [UpperAscii(s[0])] + s[1..]
  }

  /** The alert after a command whose request succeeded. A break notice
      names the break type, capitalized. */
  function SuccessNotice(cmd: Command): (r: string)
    ensures cmd.StartBreak? ==>
      |r| == |cmd.kind| + 15 && r[..|cmd.kind|] == Capitalize(cmd.kind)
      && r[|cmd.kind|..] == " break started!"
    ensures !cmd.StartBreak? ==> r in {"Check-in successful!", "Check-out successful!", "Break ended!"}
  {
    match cmd
    case CheckIn => "Check-in successful!"
    case CheckOut => "Check-out successful!"
    case StartBreak(kind) => Capitalize(kind) + " break started!"
    case EndBreak => "Break ended!"
  }

  /** The alert after a command whose request failed with `message`. */
  function FailureNotice(cmd: Command, message: string): (r: string)
    ensures |r| > |message| && r[|r| - |message|..] == message
  {
    var prefix := match cmd
      case CheckIn => "Check-in failed: "
      case CheckOut => "Check-out failed: "
      case StartBreak(_) => "Failed to start break: "
      case EndBreak => "Failed to end break: ";
    prefix + message
  }

  lemma BreakNoticeExamples()
    ensures SuccessNotice(StartBreak("lunch")) == "Lunch break started!"
    ensures SuccessNotice(StartBreak("tea")) == "Tea break started!"
  {
    LunchNotice();
    TeaNotice();
  }

  lemma LunchNotice()
    ensures SuccessNotice(StartBreak("lunch")) == "Lunch break started!"
  {
    CapitalizeWord("lunch", 'L', "Lunch");
    JoinLiteral("Lunch", " break started!", "Lunch break started!");
  }

  lemma TeaNotice()
    ensures SuccessNotice(StartBreak("tea")) == "Tea break started!"
  {
    CapitalizeWord("tea", 'T', "Tea");
    JoinLiteral("Tea", " break started!", "Tea break started!");
  }

  lemma JoinLiteral(a: string, b: string, c: string)
    requires |c| == |a| + |b| && c[..|a|] == a && c[|a|..] == b
    ensures a + b == c
  {
  }

  /** One break notice, worked out from the capitalized type. */
  lemma CapitalizeWord(kind: string, upper: char, word: string)
    requires |kind| > 0 && UpperAscii(kind[0]) == upper && word == [upper] + kind[1..]
    ensures SuccessNotice(StartBreak(kind)) == word + " break started!"
  {
    assert Capitalize(kind) == word;
  }

  // ---------------------------------------------------------------------------
  // Counters: `todayAttendance.filter(...).length`

  /** How many records have a truthy `key`. */
  function CountTruthy(list: seq<Value>, key: string): (n: nat)
    ensures n <= |list|
    decreases |list|
  {
    if list == [] then 0
    else (if Truthy(Get(list[0], key)) then 1 else 0) + CountTruthy(list[1..], key)
  }

  /** How many records have a falsy `key`. */
  function CountFalsy(list: seq<Value>, key: string): (n: nat)
    ensures n <= |list|
    decreases |list|
  {
    if list == [] then 0
    else (if Truthy(Get(list[0], key)) then 0 else 1) + CountFalsy(list[1..], key)
  }

  /** How many rows carry badge `s`. */
  function CountStatus(list: seq<Value>, s: Status): nat
    decreases |list|
  {
    if list == [] then 0
    else (if RowStatus(list[0]) == s then 1 else 0) + CountStatus(list[1..], s)
  }

  /** Every record is counted once, as present or as absent. */
  lemma {:induction false} PresentAndAbsentPartition(list: seq<Value>)
    ensures CountTruthy(list, "isPresent") + CountFalsy(list, "isPresent") == |list|
    decreases |list|
  {
    if list != [] {
      PresentAndAbsentPartition(list[1..]);
    }
  }

  /** The counters agree with the badges: the present count is the number of
      "Present" and "On Break" badges, the absent count is the number of
      "Absent" badges, and there are no more "On Break" badges than records
      flagged on break. */
  lemma {:induction false} CountersMatchBadges(list: seq<Value>)
    ensures CountStatus(list, Present) + CountStatus(list, OnBreak) == CountTruthy(list, "isPresent")
    ensures CountStatus(list, Absent) == CountFalsy(list, "isPresent")
    ensures CountStatus(list, OnBreak) <= CountTruthy(list, "onBreak")
    decreases |list|
  {
    if list != [] {
      CountersMatchBadges(list[1..]);
    }
  }

  /** The on-break counter counts every record flagged on break, present or
      not, so it can exceed the number of "On Break" badges. */
  lemma OnBreakCounterCountsAbsentRecords()
    ensures var list := [Obj(map["onBreak" := Bool(true)])];
      CountTruthy(list, "onBreak") == 1 && CountStatus(list, OnBreak) == 0 && CountTruthy(list, "isPresent") == 0
  {
    var list := [Obj(map["onBreak" := Bool(true)])];
    assert list[1..] == [];
    assert Get(list[0], "isPresent") == Undefined;
  }

  datatype Tally = Tally(present: nat, absent: nat, onBreak: nat)

  /** The present, absent and on-break counters of the dashboard and of the
      attendance tab. */
  function TallyOf(list: seq<Value>): (t: Tally)
    ensures t.present + t.absent == |list|
    ensures t.onBreak <= |list|
    ensures t.present == CountStatus(list, Present) + CountStatus(list, OnBreak)
  {
    PresentAndAbsentPartition(list);
    CountersMatchBadges(list);
    Tally(CountTruthy(list, "isPresent"), CountFalsy(list, "isPresent"), CountTruthy(list, "onBreak"))
  }

  // ---------------------------------------------------------------------------
  // Dashboard attendance percentage

  /** `Math.round((present / total) * 100)` for a positive total, computed
      exactly: the integer nearest to 100 * present / total, halves rounding up. */
  function RoundPercent(present: nat, total: nat): (pct: int)
    requires total > 0
    ensures 2 * total * pct <= 200 * present + total < 2 * total * pct + 2 * total
    ensures pct >= 0
    ensures present <= total ==> pct <= 100
  {
    var num, den := 200 * present + total, 2 * total;
    DivisionBounds(num, den);
    if present <= total then
      QuotientBelow(num, den, 101);
      num / den
    else
      num / den
  }

  lemma DivisionBounds(num: nat, den: nat)
    requires den > 0
    ensures 0 <= num / den
    ensures den * (num / den) <= num < den * (num / den) + den
  {
  }

  lemma QuotientBelow(num: nat, den: nat, k: nat)
    requires den > 0 && num < den * k
    ensures num / den < k
  {
    DivisionBounds(num, den);
  }

  /** `employees.length`: arrays and strings have a length, and an object
      reads its own `length` key. Only a positive number passes the page's
      `> 0` test, so any other length (`undefined`, zero, negative) is `None`;
      a `length` key of another type is not followed (see README). */
  function LengthOf(v: Value): Option<nat> {
    match v
    case Arr(xs) => Some(|xs|)
    case Str(s) => Some(|s|)
    case Obj(f) =>
      if "length" in f && f["length"].Num? && f["length"].n > 0 then Some(f["length"].n) else None
    case _ => None
  }

  /** The dashboard's percentage: 0 when the loaded employee page is empty
      (or has no length), else today's present count over the number of
      employees on the loaded page, rounded. */
  function DashboardPercentage(present: nat, employees: Value): (pct: int)
    ensures (LengthOf(employees).None? || LengthOf(employees).value == 0) ==> pct == 0
    ensures LengthOf(employees).Some? && LengthOf(employees).value > 0 ==>
      var n := LengthOf(employees).value;
      2 * n * pct <= 200 * present + n < 2 * n * pct + 2 * n
  {
    var n := LengthOf(employees);
    if n.Some? && n.value > 0 then RoundPercent(present, n.value) else 0
  }

  /** The percentage is taken over the current page of the directory (at most
      12 workers) while the present count covers everyone checked in today,
      so it can pass 100: 13 present over a page of 12 reads 108. */
  lemma DashboardPercentageCanExceedHundred(employees: seq<Value>)
    requires |employees| == 12
    ensures DashboardPercentage(13, Arr(employees)) == 108
  {
  }

  /** An object carrying its own numeric `length` key is divided by that
      length, as an array of that many records would be. */
  lemma DashboardReadsLengthKey(present: nat, employees: seq<Value>, f: map<string, Value>)
    requires "length" in f && f["length"] == Num(|employees|)
    ensures DashboardPercentage(present, Obj(f)) == DashboardPercentage(present, Arr(employees))
    ensures DashboardPercentage(13, Obj(map["length" := Num(12)])) == 108
  {
  }

  /** The dashboard lists the first nine records, with a "View All" link
      exactly when some record is left out. */
  function DashboardPreview(list: seq<Value>): (r: seq<Value>)
    ensures r <= list
    ensures |r| == if |list| <= 9 then |list| else 9
    ensures |r| < |list| <==> |list| > 9
  {
    if |list| <= 9 then list else list[..9]
  }
}
