/**
 * The payment-period routes: list with an optional status filter, fetch by id with a
 * 404 for an unknown id, and the entries of one period filtered by specialist and
 * project. Each handler works against the shared data store.
 */
module Periods {
  import opened Wrappers
  import opened Seqs
  import opened Payment
  import opened MockData

  /** A handler's outcome: the body, or an HTTP error status with its detail text. */
  datatype Response<T> = Success(body: T) | HttpError(statusCode: int, detail: string)

  function NotFoundDetail(periodId: string): string {
    "Payment period with ID " + periodId + " not found"
  }

  /** The criteria the list route forwards: `status` only when it was given. */
  function StatusFilters(status: Option<string>): (r: Filters)
    ensures "status" in r <==> status.Some?
    ensures forall k :: k in r ==> k == "status"
    ensures status.Some? ==> r["status"] == StrValue(status.value)
  {
    if status.Some? then map["status" := StrValue(status.value)] else map[]
  }

  function StatusValueIs(value: string): PaymentPeriod -> bool {
    (p: PaymentPeriod) => StatusValue(p.status) == value
  }

  /** Without a status every period is listed; with one, exactly those whose status value equals it. */
  lemma StatusFiltersSelect(periods: seq<PaymentPeriod>, status: Option<string>)
    ensures status.None? ==> FilterPeriods(periods, StatusFilters(status)) == periods
    ensures status.Some? ==> FilterPeriods(periods, StatusFilters(status)) == Filter(periods, StatusValueIs(status.value))
  {
    if status.Some? {
      var f := StatusFilters(status);
      FilterExtensional(periods, PeriodStatusIs(f), StatusValueIs(status.value));
    }
  }

  /** GET /periods/ */
  method GetPaymentPeriods(store: MockDataService, disk: Disk, status: Option<string>) returns (r: seq<PaymentPeriod>)
    modifies store
    ensures CacheStep(old(store.paymentPeriods), store.paymentPeriods, disk.paymentPeriods)
    ensures store.specialists == old(store.specialists) && store.projects == old(store.projects)
    ensures store.paymentPeriods.Some?
    ensures status.None? ==> r == store.paymentPeriods.value
    ensures status.Some? ==> r == Filter(store.paymentPeriods.value, StatusValueIs(status.value))
  {
    var filters := StatusFilters(status);
    var result := store.GetFilteredData("payment_periods", Some(filters), disk);
    r := result.value.periods;
    StatusFiltersSelect(store.paymentPeriods.value, status);
  }

  /** GET /periods/{period_id} */
  method GetPaymentPeriod(store: MockDataService, disk: Disk, periodId: string) returns (r: Response<PaymentPeriod>)
    modifies store`paymentPeriods
    ensures CacheStep(old(store.paymentPeriods), store.paymentPeriods, disk.paymentPeriods)
    ensures store.paymentPeriods.Some?
    ensures r.HttpError? <==> FirstWithId(store.paymentPeriods.value, PeriodId, periodId).None?
    ensures r.HttpError? ==> r == HttpError(404, NotFoundDetail(periodId))
    ensures r.Success? ==> r.body == FirstWithId(store.paymentPeriods.value, PeriodId, periodId).value
  {
    var period := store.GetPaymentPeriod(disk, periodId);
    if period.None? {
      return HttpError(404, NotFoundDetail(periodId));
    }
    return Success(period.value);
  }

  function SpecialistIs(specialistId: string): TimeEntry -> bool {
    (e: TimeEntry) => e.specialistId == specialistId
  }

  function ProjectIs(projectId: string): TimeEntry -> bool {
    (e: TimeEntry) => e.projectId == projectId
  }

  /** Both optional criteria of the time-entries route at once: the id part of `EntryMatches`. */
  function EntryIdsMatch(specialistId: Option<string>, projectId: Option<string>): TimeEntry -> bool {
    EntryFilter(EntryQuery(specialistId, projectId, None, None))
  }

  /** The post-filter of the time-entries route: by specialist if given, then by project if given. */
  function PeriodEntries(entries: seq<TimeEntry>, specialistId: Option<string>, projectId: Option<string>): (r: seq<TimeEntry>)
    ensures r == Filter(entries, EntryIdsMatch(specialistId, projectId))
    ensures IsSubsequence(r, entries)
    ensures specialistId.None? && projectId.None? ==> r == entries
  {
    var bySpecialist := SpecialistIs(if specialistId.Some? then specialistId.value else "");
    var byProject := ProjectIs(if projectId.Some? then projectId.value else "");
    FilterIfTwice(entries, specialistId.Some?, bySpecialist, projectId.Some?, byProject,
                  EntryIdsMatch(specialistId, projectId));
    FilterIsSubsequence(entries, EntryIdsMatch(specialistId, projectId));
    FilterIf(projectId.Some?, FilterIf(specialistId.Some?, entries, bySpecialist), byProject)
  }

  /** Filtering by project first and by specialist second gives the same list. */
  lemma PeriodEntriesFilterOrder(entries: seq<TimeEntry>, specialistId: string, projectId: string)
    ensures PeriodEntries(entries, Some(specialistId), Some(projectId))
            == Filter(Filter(entries, ProjectIs(projectId)), SpecialistIs(specialistId))
  {
    FilterCommutes(entries, SpecialistIs(specialistId), ProjectIs(projectId));
    FilterThenFilter(entries, SpecialistIs(specialistId), ProjectIs(projectId), EntryIdsMatch(Some(specialistId), Some(projectId)));
  }

  /** GET /periods/{period_id}/time-entries */
  method GetPeriodTimeEntries(store: MockDataService, disk: Disk, periodId: string,
                              specialistId: Option<string>, projectId: Option<string>)
    returns (r: Response<seq<TimeEntry>>)
    modifies store`paymentPeriods
    ensures CacheStep(old(store.paymentPeriods), store.paymentPeriods, disk.paymentPeriods)
    ensures store.paymentPeriods.Some?
    ensures var found := FirstWithId(store.paymentPeriods.value, PeriodId, periodId);
      && (found.None? ==> r == HttpError(404, NotFoundDetail(periodId)))
      && (found.Some? ==> r == Success(PeriodEntries(found.value.timeEntries, specialistId, projectId)))
  {
    var period := store.GetPaymentPeriod(disk, periodId);
    if period.None? {
      return HttpError(404, NotFoundDetail(periodId));
    }
    var entries := period.value.timeEntries;
    if specialistId.Some? {
      entries := Filter(entries, SpecialistIs(specialistId.value));
    }
    if projectId.Some? {
      entries := Filter(entries, ProjectIs(projectId.value));
    }
    return Success(entries);
  }
}
