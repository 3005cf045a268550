/**
 * The weekly schedule page (app/schedule/page.tsx): the Monday-to-Sunday
 * grid of the week shown, the shifts of each day, and the page's load and
 * auto-generate handlers.
 */
module Schedule {
  import opened Wrappers
  import opened Web
  import opened Calendar

  datatype Employee = Employee(id: string, name: string, role: string)

  /** One shift: the weekday it falls on (0 is Sunday), its times and its employee. */
  datatype Shift = Shift(id: string, dayOfWeek: int, startTime: string, endTime: string, employee: Employee)

  datatype WeekSchedule = WeekSchedule(id: string, weekStart: string, weekEnd: string)

  /** The body of a successful `GET /schedules/{weekStart}`; either field may be missing. */
  datatype ScheduleData = ScheduleData(schedule: Option<WeekSchedule>, shifts: Option<seq<Shift>>)

  const LoadError := "Erro ao carregar escala"
  const GenerateError := "Erro ao gerar escala automaticamente"

  // ---------------------------------------------------------------------
  // The grid

  /** `DAYS_OF_WEEK`: the grid's columns in order, Monday first and Sunday last, as (weekday key, label). */
  const Columns: seq<(int, string)> :=
    [(1, "Segunda"), (2, "Terça"), (3, "Quarta"), (4, "Quinta"), (5, "Sexta"), (6, "Sábado"), (0, "Domingo")]

  /** The column that shows weekday `k`. */
  function ColumnOf(k: int): int {
    (k + 6) % 7
  }

  /** The seven keys are the seven weekdays, each once: column i shows weekday (i + 1) mod 7. */
  lemma ColumnKeys()
    ensures |Columns| == 7
    ensures forall i :: 0 <= i < 7 ==> Columns[i].0 == (i + 1) % 7
    ensures forall k :: 0 <= k < 7 ==> 0 <= ColumnOf(k) < 7 && Columns[ColumnOf(k)].0 == k
    ensures forall i, j :: 0 <= i < 7 && 0 <= j < 7 && Columns[i].0 == Columns[j].0 ==> i == j
  {
  }

  /** `getShiftsForDay(k)`: the shifts on weekday `k`, in their original order. */
  function ShiftsForDay(shifts: seq<Shift>, k: int): (r: seq<Shift>)
    ensures forall i :: 0 <= i < |r| ==> r[i].dayOfWeek == k
    ensures |r| <= |shifts|
  {
    if shifts == [] then []
    else if shifts[0].dayOfWeek == k then [shifts[0]] + ShiftsForDay(shifts[1..], k)
    else ShiftsForDay(shifts[1..], k)
  }

  /** A shift on weekday `k` is kept as often as it occurs, any other is dropped. */
  lemma {:induction false} ShiftsForDayCount(shifts: seq<Shift>, k: int)
    ensures forall x :: multiset(ShiftsForDay(shifts, k))[x] == if x.dayOfWeek == k then multiset(shifts)[x] else 0
  {
    if shifts != [] {
      ShiftsForDayCount(shifts[1..], k);
      assert shifts == [shifts[0]] + shifts[1..];
    }
  }

  /** Filtering distributes over concatenation, so the order of the shifts is kept. */
  lemma {:induction false} ShiftsForDayAppend(a: seq<Shift>, b: seq<Shift>, k: int)
    ensures ShiftsForDay(a + b, k) == ShiftsForDay(a, k) + ShiftsForDay(b, k)
    decreases |a|
  {
    if a != [] {
      assert (a + b)[1..] == a[1..] + b;
      ShiftsForDayAppend(a[1..], b, k);
    } else {
      assert a + b == b;
    }
  }

  /** A column of the grid: its weekday key, heading, date and shifts. */
  datatype Column = Column(key: int, heading: string, date: Instant, shifts: seq<Shift>)

  /** The grid for the week starting `weekStart`: column i is `addDays(weekStart, i)` with `getShiftsForDay(DAYS_OF_WEEK[i].key)`. */
  function Grid(weekStart: Instant, shifts: seq<Shift>): (g: seq<Column>)
    ensures |g| == 7
    ensures forall i :: 0 <= i < 7 ==> g[i].key == Columns[i].0 && g[i].heading == Columns[i].1
    ensures forall i :: 0 <= i < 7 ==> g[i].date == AddDays(weekStart, i) && g[i].shifts == ShiftsForDay(shifts, g[i].key)
  {
    seq(7, i requires 0 <= i < 7 =>
      Column(Columns[i].0, Columns[i].1, AddDays(weekStart, i), ShiftsForDay(shifts, Columns[i].0)))
  }

  /** Under a week start every column's date falls on the weekday its key names. */
  lemma GridDatesMatchKeys(weekStart: Instant, shifts: seq<Shift>)
    requires IsWeekStart(weekStart)
    ensures forall i :: 0 <= i < 7 ==> WeekDay(Grid(weekStart, shifts)[i].date.day) == Grid(weekStart, shifts)[i].key
  {
    ColumnKeys();
  }

  /** All the shifts shown in a grid, counted with multiplicity. */
  function Shown(g: seq<Column>): multiset<Shift> {
    if g == [] then multiset{} else multiset(g[0].shifts) + Shown(g[1..])
  }

  /** The grid partitions the shifts: each shift on a weekday 0 to 6 shows exactly as often as it occurs, any other shift never. */
  lemma GridPartition(weekStart: Instant, shifts: seq<Shift>)
    ensures forall x :: Shown(Grid(weekStart, shifts))[x] == if 0 <= x.dayOfWeek < 7 then multiset(shifts)[x] else 0
  {
    var g := Grid(weekStart, shifts);
    ShownSeven(g);
    ColumnKeys();
    forall i | 0 <= i < 7 {
      ShiftsForDayCount(shifts, Columns[i].0);
    }
  }

  /** What a seven-column grid shows is what its seven columns hold. */
  lemma ShownSeven(g: seq<Column>)
    requires |g| == 7
    ensures Shown(g) == multiset(g[0].shifts) + multiset(g[1].shifts) + multiset(g[2].shifts)
      + multiset(g[3].shifts) + multiset(g[4].shifts) + multiset(g[5].shifts) + multiset(g[6].shifts)
  {
    assert Shown(g[7..]) == multiset{};
    assert Shown(g[6..]) == multiset(g[6].shifts) + Shown(g[7..]);
    assert Shown(g[5..]) == multiset(g[5].shifts) + Shown(g[6..]);
    assert Shown(g[4..]) == multiset(g[4].shifts) + Shown(g[5..]);
    assert Shown(g[3..]) == multiset(g[3].shifts) + Shown(g[4..]);
    assert Shown(g[2..]) == multiset(g[2].shifts) + Shown(g[3..]);
    assert Shown(g[1..]) == multiset(g[1].shifts) + Shown(g[2..]);
  }

  // ---------------------------------------------------------------------
  // The page

  /** The request `fetchSchedule` sends for the week starting `weekStart`. */
  function LoadRequest(weekStart: Instant, authorization: string): Request {
    Request(GET, Api("/schedules/" + FormatDate(weekStart)), Some(authorization), None)
  }

  /** The request `handleAutoGenerate` sends for schedule `id`: a POST with no body. */
  function GenerateRequest(id: string, authorization: string): Request {
    Request(POST, Api("/schedules/" + id + "/auto-generate"), Some(authorization), None)
  }

  class SchedulePage {
    var currentWeekStart: Instant
    var schedule: Option<WeekSchedule>
    var shifts: seq<Shift>
    var loading: bool
    var generating: bool
    var error: string
    const window: Browser

    /** The week shown always starts on a Monday at midnight. */
    predicate Valid()
      reads this
    {
      IsWeekStart(currentWeekStart)
    }

    /** The initial state: the week of `now`, nothing loaded yet, `loading` true. */
    constructor (window: Browser, now: Instant)
      ensures this.window == window && Valid()
      ensures currentWeekStart == GetMonday(now) && currentWeekStart.day <= now.day <= currentWeekStart.day + 6
      ensures schedule == None && shifts == [] && loading && !generating && error == ""
    {
      this.window := window;
      currentWeekStart := GetMonday(now);
      schedule := None;
      shifts := [];
      loading := true;
      generating := false;
      error := "";
    }

    /** `weekEndDate`: the Sunday six days after the week start. */
    function WeekEnd(): (e: Instant)
      reads this
      requires Valid()
      ensures WeekDay(e.day) == Sunday && e.day == currentWeekStart.day + 6 && e.time == 0
    {
      WeekEndIsSunday(currentWeekStart);
      AddDays(currentWeekStart, 6)
    }

    /** What the page holds once `fetchSchedule` has had `reply`, given what it held before. */
    predicate LoadedFrom(reply: Fetched<ScheduleData>, prevSchedule: Option<WeekSchedule>, prevShifts: seq<Shift>)
      reads this
    {
      && !loading
      && if reply.HasStatus(401) then schedule == prevSchedule && shifts == prevShifts && error == ""
         else if reply.HasStatus(404) then schedule == None && shifts == [] && error == ""
         else if reply.IsOk() && reply.body.Parsed? then
           schedule == reply.body.data.schedule && shifts == reply.body.data.shifts.GetOr([]) && error == ""
         else schedule == prevSchedule && shifts == prevShifts && error == LoadError
    }

    /** `fetchSchedule`, with `reply` the outcome of its request. */
    method FetchSchedule(reply: Fetched<ScheduleData>)
      modifies this, window
      ensures window.requests == old(window.requests) + [LoadRequest(old(currentWeekStart), old(window.Authorization()))]
      ensures LoadedFrom(reply, old(schedule), old(shifts))
      ensures window.history == old(window.history) + (if reply.HasStatus(401) then [Push("/signup")] else [])
      ensures window.storage == old(window.storage)
      ensures currentWeekStart == old(currentWeekStart) && generating == old(generating)
    {
      window.Send(LoadRequest(currentWeekStart, window.Authorization()));
      Load(reply);
    }

    /** What `fetchSchedule` does with the outcome of its request. */
    method Load(reply: Fetched<ScheduleData>)
      modifies this, window
      ensures LoadedFrom(reply, old(schedule), old(shifts))
      ensures window.history == old(window.history) + (if reply.HasStatus(401) then [Push("/signup")] else [])
      ensures window.storage == old(window.storage) && window.requests == old(window.requests)
      ensures currentWeekStart == old(currentWeekStart) && generating == old(generating)
    {
      loading := true;
      error := "";
      if reply.HasStatus(401) {
        window.Navigate(Push("/signup"));
      } else if reply.HasStatus(404) {
        schedule := None;
        shifts := [];
      } else if reply.IsOk() && reply.body.Parsed? {
        schedule := reply.body.data.schedule;
        shifts := reply.body.data.shifts.GetOr([]);
      } else {
        error := LoadError;
      }
      loading := false;
    }

    /** The effect run whenever the week shown changes: without a token, off to /signup; otherwise load the week. */
    method OnWeekStartChange(reply: Fetched<ScheduleData>)
      modifies this, window
      ensures !old(window.HasToken()) ==>
        window.history == old(window.history) + [Push("/signup")] && window.requests == old(window.requests)
        && schedule == old(schedule) && shifts == old(shifts) && loading == old(loading) && error == old(error)
      ensures old(window.HasToken()) ==>
        window.requests == old(window.requests) + [LoadRequest(old(currentWeekStart), old(window.Authorization()))] && LoadedFrom(reply, old(schedule), old(shifts))
        && window.history == old(window.history) + (if reply.HasStatus(401) then [Push("/signup")] else [])
      ensures window.storage == old(window.storage)
      ensures currentWeekStart == old(currentWeekStart) && generating == old(generating)
    {
      if !window.HasToken() {
        window.Navigate(Push("/signup"));
        return;
      }
      FetchSchedule(reply);
    }

    /**
     * `handleAutoGenerate`: without a schedule nothing happens; otherwise POST
     * `/schedules/{id}/auto-generate` with no body and, when that succeeds,
     * load the week again with `refetch` as its outcome.
     */
    method AutoGenerate(generate: Fetched<()>, refetch: Fetched<ScheduleData>)
      modifies this, window
      ensures old(schedule) == None ==>
        schedule == None && shifts == old(shifts) && loading == old(loading) && generating == old(generating)
        && error == old(error) && window.requests == old(window.requests) && window.history == old(window.history)
      ensures old(schedule).Some? ==> !generating
      ensures old(schedule).Some? && !generate.IsOk() ==>
        window.requests == old(window.requests) + [GenerateRequest(old(schedule).value.id, old(window.Authorization()))]
        && schedule == old(schedule) && shifts == old(shifts) && loading == old(loading) && error == GenerateError
        && window.history == old(window.history)
      ensures old(schedule).Some? && generate.IsOk() ==>
        window.requests == old(window.requests) + [GenerateRequest(old(schedule).value.id, old(window.Authorization())), LoadRequest(old(currentWeekStart), old(window.Authorization()))]
        && LoadedFrom(refetch, old(schedule), old(shifts))
        && window.history == old(window.history) + (if refetch.HasStatus(401) then [Push("/signup")] else [])
      ensures window.storage == old(window.storage) && currentWeekStart == old(currentWeekStart)
    {
      if schedule == None {
        return;
      }
      window.Send(GenerateRequest(schedule.value.id, window.Authorization()));
      Generated(generate, refetch);
    }

    /** What `handleAutoGenerate` does once its request is sent, with `generate` its outcome. */
    method Generated(generate: Fetched<()>, refetch: Fetched<ScheduleData>)
      modifies this, window
      ensures !generating
      ensures !generate.IsOk() ==>
        window.requests == old(window.requests) && window.history == old(window.history)
        && schedule == old(schedule) && shifts == old(shifts) && loading == old(loading) && error == GenerateError
      ensures generate.IsOk() ==>
        window.requests == old(window.requests) + [LoadRequest(old(currentWeekStart), old(window.Authorization()))]
        && LoadedFrom(refetch, old(schedule), old(shifts))
        && window.history == old(window.history) + (if refetch.HasStatus(401) then [Push("/signup")] else [])
      ensures window.storage == old(window.storage) && currentWeekStart == old(currentWeekStart)
    {
      generating := true;
      error := "";
      if generate.IsOk() {
        ghost var expected := LoadRequest(currentWeekStart, window.Authorization());
        FetchSchedule(refetch);
        assert window.requests == old(window.requests) + [expected];
      } else {
        error := GenerateError;
      }
      generating := false;
    }

    /** `goToPreviousWeek`: seven days back; the week start stays a Monday. */
    method GoToPreviousWeek()
      requires Valid()
      modifies this
      ensures Valid() && currentWeekStart == AddDays(old(currentWeekStart), -7)
      ensures schedule == old(schedule) && shifts == old(shifts) && loading == old(loading)
      ensures generating == old(generating) && error == old(error)
    {
      ShiftByWeeks(currentWeekStart, -1);
      currentWeekStart := AddDays(currentWeekStart, -7);
    }

    /** `goToNextWeek`: seven days on; the week start stays a Monday. */
    method GoToNextWeek()
      requires Valid()
      modifies this
      ensures Valid() && currentWeekStart == AddDays(old(currentWeekStart), 7)
      ensures schedule == old(schedule) && shifts == old(shifts) && loading == old(loading)
      ensures generating == old(generating) && error == old(error)
    {
      ShiftByWeeks(currentWeekStart, 1);
      currentWeekStart := AddDays(currentWeekStart, 7);
    }
  }

  /** Going back a week and then forward a week returns to the same week, and the other way round. */
  lemma WeekNavigationInverse(w: Instant)
    ensures AddDays(AddDays(w, -7), 7) == w && AddDays(AddDays(w, 7), -7) == w
  {
    AddDaysAdditive(w, -7, 7);
    AddDaysAdditive(w, 7, -7);
  }
}
