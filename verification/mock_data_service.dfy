/**
 * The in-memory data store. Three catalogs (specialists, projects, payment periods
 * with their embedded time entries) are each read at most once, on first use, and
 * then served from the cache: lookup by id, and filtering by equality criteria
 * combined with AND. Reading and parsing a file is represented by `Load`, the
 * outcome of reading that file at the moment of the call.
 */
module MockData {
  import opened Wrappers
  import opened Dates
  import opened Seqs
  import opened Specialists
  import opened Projects
  import opened Payment

  /** What reading and parsing one data file produces. */
  datatype Load<T> = Loaded(items: seq<T>) | FileMissing | ParseFailed

  /** The three data files as they would read at the moment of a call. */
  datatype Disk = Disk(specialists: Load<Specialist>, projects: Load<Project>, paymentPeriods: Load<PaymentPeriod>)

  /** `_load_data`: the parsed items, or an empty list when the file is missing or unreadable. */
  function LoadData<T>(l: Load<T>): (r: seq<T>)
    ensures l.Loaded? ==> r == l.items
    ensures !l.Loaded? ==> r == []
  {
    match l
    case Loaded(items) => items
    case _ => []
  }

  /** The first item whose id is `id`, if any. */
  function FirstWithId<T>(items: seq<T>, idOf: T -> string, id: string): (r: Option<T>)
    ensures r.None? <==> forall i :: 0 <= i < |items| ==> idOf(items[i]) != id
    ensures r.Some? ==> exists i :: 0 <= i < |items| && items[i] == r.value && idOf(items[i]) == id
                                    && forall j :: 0 <= j < i ==> idOf(items[j]) != id
  {
    if items == [] then None
    else if idOf(items[0]) == id then Some(items[0])
    else
      var r := FirstWithId(items[1..], idOf, id);
      assert forall i :: 0 < i < |items| ==> items[i] == items[1..][i - 1];
      r
  }

  /** The early-return scan of `get_specialist`, `get_project` and `get_payment_period`. */
  method FindById<T>(items: seq<T>, idOf: T -> string, id: string) returns (r: Option<T>)
    ensures r == FirstWithId(items, idOf, id)
  {
    var i := 0;
    while i < |items|
      invariant 0 <= i <= |items|
      invariant FirstWithId(items, idOf, id) == FirstWithId(items[i..], idOf, id)
    {
      if idOf(items[i]) == id {
        return Some(items[i]);
      }
      assert items[i..][1..] == items[i + 1..];
      i := i + 1;
    }
    return None;
  }

  /** A value of the filter dictionary. */
  datatype FilterValue = NoneValue | BoolValue(b: bool) | StrValue(s: string) | DateValue(d: DateTime)

  type Filters = map<string, FilterValue>

  /** `filters or {}`. */
  function FiltersOrEmpty(filters: Option<Filters>): Filters {
    if filters.Some? then filters.value else map[]
  }

  /** An absent key does not filter; a present one must equal the item's value. */
  predicate Admits(f: Filters, key: string, v: FilterValue) {
    key !in f || f[key] == v
  }

  function ActiveIs(f: Filters): Specialist -> bool {
    (s: Specialist) => Admits(f, "active", BoolValue(s.active))
  }

  function RoleIs(f: Filters): Specialist -> bool {
    (s: Specialist) => Admits(f, "role", StrValue(RoleValue(s.role)))
  }

  function SpecialistMatches(f: Filters): Specialist -> bool {
    s => ActiveIs(f)(s) && RoleIs(f)(s)
  }

  /** The "specialists" branch: by `active`, then by `role` value. */
  function FilterSpecialists(data: seq<Specialist>, f: Filters): (r: seq<Specialist>)
    ensures r == Filter(data, SpecialistMatches(f))
    ensures IsSubsequence(r, data)
    ensures "active" !in f && "role" !in f ==> r == data
  {
    FilterIfTwice(data, "active" in f, ActiveIs(f), "role" in f, RoleIs(f), SpecialistMatches(f));
    FilterIsSubsequence(data, SpecialistMatches(f));
    FilterIf("role" in f, FilterIf("active" in f, data, ActiveIs(f)), RoleIs(f))
  }

  function ProjectStatusIs(f: Filters): Project -> bool {
    (p: Project) => Admits(f, "status", StrValue(ProjectStatusValue(p.status)))
  }

  function ProjectTypeIs(f: Filters): Project -> bool {
    (p: Project) => Admits(f, "project_type", StrValue(ProjectTypeValue(p.projectType)))
  }

  function ProjectMatches(f: Filters): Project -> bool {
    p => ProjectStatusIs(f)(p) && ProjectTypeIs(f)(p)
  }

  /** The "projects" branch: by `status` value, then by `project_type` value. */
  function FilterProjects(data: seq<Project>, f: Filters): (r: seq<Project>)
    ensures r == Filter(data, ProjectMatches(f))
    ensures IsSubsequence(r, data)
    ensures "status" !in f && "project_type" !in f ==> r == data
  {
    FilterIfTwice(data, "status" in f, ProjectStatusIs(f), "project_type" in f, ProjectTypeIs(f), ProjectMatches(f));
    FilterIsSubsequence(data, ProjectMatches(f));
    FilterIf("project_type" in f, FilterIf("status" in f, data, ProjectStatusIs(f)), ProjectTypeIs(f))
  }

  function PeriodStatusIs(f: Filters): PaymentPeriod -> bool {
    (p: PaymentPeriod) => Admits(f, "status", StrValue(StatusValue(p.status)))
  }

  /** The "payment_periods" branch: by `status` value. */
  function FilterPeriods(data: seq<PaymentPeriod>, f: Filters): (r: seq<PaymentPeriod>)
    ensures r == Filter(data, PeriodStatusIs(f))
    ensures IsSubsequence(r, data)
    ensures "status" !in f ==> r == data
  {
    FilterIsSubsequence(data, PeriodStatusIs(f));
    FilterIfTwice(data, "status" in f, PeriodStatusIs(f), false, PeriodStatusIs(f), PeriodStatusIs(f));
    FilterIf("status" in f, data, PeriodStatusIs(f))
  }

  /** The arguments of `get_time_entries`; None leaves a criterion out. */
  datatype EntryQuery = EntryQuery(
    specialistId: Option<string>, projectId: Option<string>,
    startDate: Option<DateTime>, endDate: Option<DateTime>)

  const NoCriteria := EntryQuery(None, None, None, None)

  /** The condition of `get_time_entries`; both date bounds are inclusive. */
  predicate EntryMatches(q: EntryQuery, e: TimeEntry) {
    && (q.specialistId.None? || e.specialistId == q.specialistId.value)
    && (q.projectId.None? || e.projectId == q.projectId.value)
    && (q.startDate.None? || LessEq(q.startDate.value, e.date))
    && (q.endDate.None? || LessEq(e.date, q.endDate.value))
  }

  function EntryFilter(q: EntryQuery): TimeEntry -> bool {
    e => EntryMatches(q, e)
  }

  /** Every period's entry list, one period after the other. */
  function Flatten(periods: seq<PaymentPeriod>): seq<TimeEntry>
    reads periods
  {
    if periods == [] then []
    else Flatten(periods[..|periods| - 1]) + periods[|periods| - 1].timeEntries
  }

  /** An entry dated exactly on a bound is inside it. */
  lemma EntryOnBoundsMatches(e: TimeEntry)
    ensures EntryMatches(EntryQuery(None, None, Some(e.date), Some(e.date)), e)
  {
    LexLessEqReflexive(Fields(e.date));
  }

  /** With no criteria every entry is returned, in period-then-entry order. */
  lemma NoCriteriaKeepsAll(periods: seq<PaymentPeriod>)
    ensures Filter(Flatten(periods), EntryFilter(NoCriteria)) == Flatten(periods)
  {
    FilterKeepsAll(Flatten(periods), EntryFilter(NoCriteria));
  }

  lemma FlattenStep(periods: seq<PaymentPeriod>, i: nat)
    requires i < |periods|
    ensures Flatten(periods[..i + 1]) == Flatten(periods[..i]) + periods[i].timeEntries
  {
    assert periods[..i + 1][..i] == periods[..i];
  }

  /** The inner loop of `get_time_entries`: appends one period's matching entries. */
  method AppendMatching(result: seq<TimeEntry>, entries: seq<TimeEntry>, q: EntryQuery) returns (r: seq<TimeEntry>)
    ensures r == result + Filter(entries, EntryFilter(q))
  {
    r := result;
    var j := 0;
    while j < |entries|
      invariant 0 <= j <= |entries|
      invariant r == result + Filter(entries[..j], EntryFilter(q))
    {
      var entry := entries[j];
      assert entries[..j + 1] == entries[..j] + [entry];
      FilterAppend(entries[..j], [entry], EntryFilter(q));
      if EntryMatches(q, entry) {
        assert Filter([entry], EntryFilter(q)) == [entry];
        assert r + [entry] == result + (Filter(entries[..j], EntryFilter(q)) + [entry]);
        r := r + [entry];
      } else {
        assert Filter([entry], EntryFilter(q)) == [];
      }
      j := j + 1;
    }
    assert entries[..j] == entries;
  }

  /** The outer loop of `get_time_entries` over the given periods. */
  method CollectEntries(periods: seq<PaymentPeriod>, q: EntryQuery) returns (result: seq<TimeEntry>)
    ensures result == Filter(Flatten(periods), EntryFilter(q))
    ensures IsSubsequence(result, Flatten(periods))
  {
    result := [];
    var i := 0;
    while i < |periods|
      invariant 0 <= i <= |periods|
      invariant result == Filter(Flatten(periods[..i]), EntryFilter(q))
    {
      result := AppendMatching(result, periods[i].timeEntries, q);
      FlattenStep(periods, i);
      FilterAppend(Flatten(periods[..i]), periods[i].timeEntries, EntryFilter(q));
      i := i + 1;
    }
    assert periods[..i] == periods;
    FilterIsSubsequence(Flatten(periods), EntryFilter(q));
  }

  /** Why a call fails: `ValueError` for an unknown kind, or a wrongly typed criterion. */
  datatype Error = InvalidDataType(dataType: string) | FilterTypeError(key: string)

  /** What `get_filtered_data` returns, by kind. */
  datatype Items =
    | SpecialistItems(specialists: seq<Specialist>)
    | ProjectItems(projects: seq<Project>)
    | PeriodItems(periods: seq<PaymentPeriod>)
    | EntryItems(entries: seq<TimeEntry>)

  /** `filters.get(key)` for an id criterion: absent or None leaves it out. */
  function IdCriterion(f: Filters, key: string): Result<Option<string>, Error> {
    if key !in f || f[key] == NoneValue then Ok(None)
    else if f[key].StrValue? then Ok(Some(f[key].s))
    else Err(FilterTypeError(key))
  }

  /** `filters.get(key)` for a date bound: absent or None leaves it out. */
  function DateCriterion(f: Filters, key: string): Result<Option<DateTime>, Error> {
    if key !in f || f[key] == NoneValue then Ok(None)
    else if f[key].DateValue? then Ok(Some(f[key].d))
    else Err(FilterTypeError(key))
  }

  /** The arguments the "time_entries" branch passes to `get_time_entries`. */
  function EntryQueryOf(f: Filters): (r: Result<EntryQuery, Error>)
    ensures r.Err? <==>
      || ("specialist_id" in f && f["specialist_id"] != NoneValue && !f["specialist_id"].StrValue?)
      || ("project_id" in f && f["project_id"] != NoneValue && !f["project_id"].StrValue?)
      || ("start_date" in f && f["start_date"] != NoneValue && !f["start_date"].DateValue?)
      || ("end_date" in f && f["end_date"] != NoneValue && !f["end_date"].DateValue?)
    ensures r.Err? ==>
      (r.error.FilterTypeError? && r.error.key in f && f[r.error.key] != NoneValue &&
       r.error.key in {"specialist_id", "project_id", "start_date", "end_date"} &&
       (r.error.key in {"specialist_id", "project_id"} ==> !f[r.error.key].StrValue?) &&
       (r.error.key in {"start_date", "end_date"} ==> !f[r.error.key].DateValue?))
    ensures r.Ok? ==> (r.value.specialistId.Some? <==> "specialist_id" in f && f["specialist_id"] != NoneValue)
    ensures r.Ok? ==> (r.value.projectId.Some? <==> "project_id" in f && f["project_id"] != NoneValue)
    ensures r.Ok? ==> (r.value.startDate.Some? <==> "start_date" in f && f["start_date"] != NoneValue)
    ensures r.Ok? ==> (r.value.endDate.Some? <==> "end_date" in f && f["end_date"] != NoneValue)
    ensures r.Ok? && r.value.specialistId.Some? ==> f["specialist_id"] == StrValue(r.value.specialistId.value)
    ensures r.Ok? && r.value.projectId.Some? ==> f["project_id"] == StrValue(r.value.projectId.value)
    ensures r.Ok? && r.value.startDate.Some? ==> f["start_date"] == DateValue(r.value.startDate.value)
    ensures r.Ok? && r.value.endDate.Some? ==> f["end_date"] == DateValue(r.value.endDate.value)
    ensures (forall k :: k in f ==> k !in {"specialist_id", "project_id", "start_date", "end_date"}) ==> r == Ok(NoCriteria)
  {
    match (IdCriterion(f, "specialist_id"), IdCriterion(f, "project_id"),
           DateCriterion(f, "start_date"), DateCriterion(f, "end_date"))
    case (Ok(s), Ok(p), Ok(from), Ok(to)) => Ok(EntryQuery(s, p, from, to))
    case (Err(e), _, _, _) => Err(e)
    case (_, Err(e), _, _) => Err(e)
    case (_, _, Err(e), _) => Err(e)
    case (_, _, _, Err(e)) => Err(e)
  }

  /** A cache slot after a getter ran: unchanged, or filled from the file if it was empty. */
  ghost predicate CacheStep<T>(before: Option<seq<T>>, after: Option<seq<T>>, l: Load<T>) {
    after == before || (before.None? && after == Some(LoadData(l)))
  }

  class MockDataService {
    var specialists: Option<seq<Specialist>>
    var projects: Option<seq<Project>>
    var paymentPeriods: Option<seq<PaymentPeriod>>

    constructor()
      ensures specialists.None? && projects.None? && paymentPeriods.None?
    {
      specialists, projects, paymentPeriods := None, None, None;
    }

    /** Loads the specialists on first use; afterwards returns the cached list unread. */
    method GetSpecialists(disk: Disk) returns (r: seq<Specialist>)
      modifies this`specialists
      ensures old(specialists).Some? ==> r == old(specialists).value
      ensures old(specialists).None? ==> r == LoadData(disk.specialists)
      ensures specialists == Some(r)
    {
      if specialists.None? {
        specialists := Some(LoadData(disk.specialists));
      }
      r := specialists.value;
    }

    /** Loads the projects on first use; afterwards returns the cached list unread. */
    method GetProjects(disk: Disk) returns (r: seq<Project>)
      modifies this`projects
      ensures old(projects).Some? ==> r == old(projects).value
      ensures old(projects).None? ==> r == LoadData(disk.projects)
      ensures projects == Some(r)
    {
      if projects.None? {
        projects := Some(LoadData(disk.projects));
      }
      r := projects.value;
    }

    /** Loads the payment periods on first use; afterwards returns the cached list unread. */
    method GetPaymentPeriods(disk: Disk) returns (r: seq<PaymentPeriod>)
      modifies this`paymentPeriods
      ensures old(paymentPeriods).Some? ==> r == old(paymentPeriods).value
      ensures old(paymentPeriods).None? ==> r == LoadData(disk.paymentPeriods)
      ensures paymentPeriods == Some(r)
    {
      if paymentPeriods.None? {
        paymentPeriods := Some(LoadData(disk.paymentPeriods));
      }
      r := paymentPeriods.value;
    }

    method GetSpecialist(disk: Disk, specialistId: string) returns (r: Option<Specialist>)
      modifies this`specialists
      ensures CacheStep(old(specialists), specialists, disk.specialists) && specialists.Some?
      ensures r == FirstWithId(specialists.value, SpecialistId, specialistId)
    {
      var all := GetSpecialists(disk);
      r := FindById(all, SpecialistId, specialistId);
    }

    method GetProject(disk: Disk, projectId: string) returns (r: Option<Project>)
      modifies this`projects
      ensures CacheStep(old(projects), projects, disk.projects) && projects.Some?
      ensures r == FirstWithId(projects.value, ProjectId, projectId)
    {
      var all := GetProjects(disk);
      r := FindById(all, ProjectId, projectId);
    }

    method GetPaymentPeriod(disk: Disk, periodId: string) returns (r: Option<PaymentPeriod>)
      modifies this`paymentPeriods
      ensures CacheStep(old(paymentPeriods), paymentPeriods, disk.paymentPeriods) && paymentPeriods.Some?
      ensures r == FirstWithId(paymentPeriods.value, PeriodId, periodId)
    {
      var all := GetPaymentPeriods(disk);
      r := FindById(all, PeriodId, periodId);
    }

    /** The entries of all periods, in order, that meet every criterion of `q`. */
    method GetTimeEntries(disk: Disk, q: EntryQuery) returns (result: seq<TimeEntry>)
      modifies this`paymentPeriods
      ensures CacheStep(old(paymentPeriods), paymentPeriods, disk.paymentPeriods) && paymentPeriods.Some?
      ensures result == Filter(Flatten(paymentPeriods.value), EntryFilter(q))
      ensures IsSubsequence(result, Flatten(paymentPeriods.value))
    {
      var periods := GetPaymentPeriods(disk);
      result := CollectEntries(periods, q);
    }

    /** Items of one kind that meet all the given criteria; `None` means no criteria. */
    method GetFilteredData(dataType: string, filters: Option<Filters>, disk: Disk) returns (r: Result<Items, Error>)
      modifies this
      ensures CacheStep(old(specialists), specialists, disk.specialists)
      ensures CacheStep(old(projects), projects, disk.projects)
      ensures CacheStep(old(paymentPeriods), paymentPeriods, disk.paymentPeriods)
      ensures dataType != "specialists" ==> specialists == old(specialists)
      ensures dataType != "projects" ==> projects == old(projects)
      ensures dataType !in {"payment_periods", "time_entries"} ==> paymentPeriods == old(paymentPeriods)
      ensures dataType == "specialists" ==> (specialists.Some? &&
        r == Ok(SpecialistItems(FilterSpecialists(specialists.value, FiltersOrEmpty(filters)))))
      ensures dataType == "projects" ==> (projects.Some? &&
        r == Ok(ProjectItems(FilterProjects(projects.value, FiltersOrEmpty(filters)))))
      ensures dataType == "payment_periods" ==> (paymentPeriods.Some? &&
        r == Ok(PeriodItems(FilterPeriods(paymentPeriods.value, FiltersOrEmpty(filters)))))
      ensures dataType == "time_entries" ==>
        match EntryQueryOf(FiltersOrEmpty(filters))
        case Ok(q) => paymentPeriods.Some? && r == Ok(EntryItems(Filter(Flatten(paymentPeriods.value), EntryFilter(q))))
        case Err(e) => r == Err(e)
      ensures dataType !in {"specialists", "projects", "payment_periods", "time_entries"} ==>
        r == Err(InvalidDataType(dataType)) && unchanged(this)
    {
      var f := FiltersOrEmpty(filters);
      if dataType == "specialists" {
        var data := GetSpecialists(disk);
        r := Ok(SpecialistItems(FilterSpecialists(data, f)));
      } else if dataType == "projects" {
        var data := GetProjects(disk);
        r := Ok(ProjectItems(FilterProjects(data, f)));
      } else if dataType == "payment_periods" {
        var data := GetPaymentPeriods(disk);
        r := Ok(PeriodItems(FilterPeriods(data, f)));
      } else if dataType == "time_entries" {
        match EntryQueryOf(f)
        case Ok(q) =>
          var entries := GetTimeEntries(disk, q);
          r := Ok(EntryItems(entries));
        case Err(e) =>
          r := Err(e);
      } else {
        r := Err(InvalidDataType(dataType));
      }
    }
  }
}
