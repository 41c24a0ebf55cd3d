/**
 * Time entries and payment periods. A period keeps its entries together with three
 * running aggregates (hours per specialist, hours per project, total hours) that
 * `AddTimeEntry` folds each new entry into.
 */
module Payment {
  import opened Wrappers
  import opened Dates
  import opened Seqs
  import Utils

  datatype PaymentStatus = Draft | Submitted | Approved | Paid | Rejected

  datatype PeriodStatus = Open | Closed | Locked

  /** A period's status may be drawn from either enumeration. */
  datatype Status = PaymentStatusOf(payment: PaymentStatus) | PeriodStatusOf(period: PeriodStatus)

  /** The string value of a status, `status.value`. */
  function StatusValue(s: Status): string {
    match s
    case PaymentStatusOf(Draft) => "Draft"
    case PaymentStatusOf(Submitted) => "Submitted"
    case PaymentStatusOf(Approved) => "Approved"
    case PaymentStatusOf(Paid) => "Paid"
    case PaymentStatusOf(Rejected) => "Rejected"
    case PeriodStatusOf(Open) => "Open"
    case PeriodStatusOf(Closed) => "Closed"
    case PeriodStatusOf(Locked) => "Locked"
  }

  datatype TimeEntry = TimeEntry(
    id: string,
    specialistId: string,
    projectId: string,
    date: DateTime,
    hours: real,
    description: string,
    createdAt: DateTime,
    updatedAt: DateTime)

  /** Whether the constructor's keyword arguments contain `name`, and with what value. */
  datatype NameArg = NameAbsent | NameGiven(name: Option<string>)

  /**
   * The name a new period gets: a supplied `name` is kept as given (even None); without
   * one, both dates present give the formatted range, else the field default None.
   */
  function DerivedName(name: NameArg, startDate: Option<DateTime>, endDate: Option<DateTime>): (r: Option<string>)
    ensures name.NameGiven? ==> r == name.name
    ensures name.NameAbsent? && startDate.Some? && endDate.Some? ==>
      r == Some(Utils.FormatDateRange(startDate.value, endDate.value))
    ensures name.NameAbsent? && (startDate.None? || endDate.None?) ==> r == None
  {
    match name
    case NameGiven(n) => n
    case NameAbsent =>
      if startDate.Some? && endDate.Some? then Some(Utils.FormatDateRange(startDate.value, endDate.value))
      else None
  }

  /** The two keys an entry is totalled under. */
  datatype Grouping = BySpecialist | ByProject

  function KeyOf(g: Grouping, e: TimeEntry): string {
    match g
    case BySpecialist => e.specialistId
    case ByProject => e.projectId
  }

  /** `totals[key] = totals.get(key, 0.0) + hours`. */
  function AddHours(totals: map<string, real>, key: string, hours: real): (r: map<string, real>)
    ensures r.Keys == totals.Keys + {key}
    ensures r[key] == (if key in totals then totals[key] else 0.0) + hours
    ensures forall k :: k in totals && k != key ==> r[k] == totals[k]
  {
    totals[key := (if key in totals then totals[key] else 0.0) + hours]
  }

  /** The hours of a list of entries, summed in order. */
  function SumHours(entries: seq<TimeEntry>): real {
    if entries == [] then 0.0 else SumHours(entries[..|entries| - 1]) + entries[|entries| - 1].hours
  }

  /** The totals map obtained by folding the entries in, one after the other. */
  function TotalsBy(g: Grouping, entries: seq<TimeEntry>): map<string, real> {
    if entries == [] then map[]
    else
      var last := entries[|entries| - 1];
      AddHours(TotalsBy(g, entries[..|entries| - 1]), KeyOf(g, last), last.hours)
  }

  /** The entries filed under `key`. */
  function KeyIs(g: Grouping, key: string): TimeEntry -> bool {
    e => KeyOf(g, e) == key
  }

  lemma SumHoursAppend(entries: seq<TimeEntry>, e: TimeEntry)
    ensures SumHours(entries + [e]) == SumHours(entries) + e.hours
  {
    assert (entries + [e])[..|entries|] == entries;
  }

  /** A key has a total exactly when some entry carries it. */
  lemma {:induction false} TotalsByKeys(g: Grouping, entries: seq<TimeEntry>)
    ensures forall key :: key in TotalsBy(g, entries) <==> exists i :: 0 <= i < |entries| && KeyOf(g, entries[i]) == key
  {
    if entries != [] {
      var init, last := entries[..|entries| - 1], entries[|entries| - 1];
      TotalsByKeys(g, init);
      assert TotalsBy(g, entries) == AddHours(TotalsBy(g, init), KeyOf(g, last), last.hours);
      forall key | key in TotalsBy(g, entries) && key != KeyOf(g, last)
        ensures exists i :: 0 <= i < |entries| && KeyOf(g, entries[i]) == key
      {
        assert key in TotalsBy(g, init);
        var i :| 0 <= i < |init| && KeyOf(g, init[i]) == key;
        assert entries[i] == init[i];
      }
      forall key | exists i :: 0 <= i < |entries| && KeyOf(g, entries[i]) == key
        ensures key in TotalsBy(g, entries)
      {
        var i :| 0 <= i < |entries| && KeyOf(g, entries[i]) == key;
        if i < |init| {
          assert init[i] == entries[i];
        }
      }
    }
  }

  /** Each total is the sum of the hours of the entries that carry its key. */
  lemma {:induction false} TotalsByArePerKeySums(g: Grouping, entries: seq<TimeEntry>, key: string)
    requires key in TotalsBy(g, entries)
    ensures TotalsBy(g, entries)[key] == SumHours(Filter(entries, KeyIs(g, key)))
  {
    var init, last := entries[..|entries| - 1], entries[|entries| - 1];
    assert entries == init + [last];
    FilterAppend(init, [last], KeyIs(g, key));
    if KeyOf(g, last) == key {
      assert Filter([last], KeyIs(g, key)) == [last];
      SumHoursAppend(Filter(init, KeyIs(g, key)), last);
      if key in TotalsBy(g, init) {
        TotalsByArePerKeySums(g, init, key);
      } else {
        TotalsByKeys(g, init);
        assert Filter(init, KeyIs(g, key)) == [];
      }
    } else {
      assert Filter([last], KeyIs(g, key)) == [];
      assert Filter(init, KeyIs(g, key)) + [] == Filter(init, KeyIs(g, key));
      TotalsByArePerKeySums(g, init, key);
    }
  }

  /** Folding one more entry into the totals of a list gives the totals of the longer list. */
  lemma TotalsByAppend(g: Grouping, entries: seq<TimeEntry>, e: TimeEntry)
    ensures TotalsBy(g, entries + [e]) == AddHours(TotalsBy(g, entries), KeyOf(g, e), e.hours)
  {
    assert (entries + [e])[..|entries|] == entries;
  }

  class PaymentPeriod {
    const id: string
    const name: Option<string>
    const startDate: DateTime
    const endDate: DateTime
    const status: Status
    const reportId: Option<string>
    const createdAt: DateTime
    var timeEntries: seq<TimeEntry>
    var specialistTotals: map<string, real>
    var projectTotals: map<string, real>
    var totalHours: real
    var updatedAt: DateTime

    /** The aggregates agree with the entry list. */
    ghost predicate TotalsConsistent()
      reads this
    {
      && totalHours == SumHours(timeEntries)
      && specialistTotals == TotalsBy(BySpecialist, timeEntries)
      && projectTotals == TotalsBy(ByProject, timeEntries)
    }

    /**
     * A period built from keyword arguments; `None` stands for an argument left out,
     * which takes its default. `id` and `now` stand for the generated identifier and
     * the clock. The aggregates are taken as given, or start empty, whatever entries
     * are given: they are not computed from `timeEntries`.
     */
    constructor(id: string, name: NameArg, startDate: DateTime, endDate: DateTime,
                status: Option<Status>, reportId: Option<string>, timeEntries: seq<TimeEntry>,
                specialistTotals: Option<map<string, real>>, projectTotals: Option<map<string, real>>,
                totalHours: Option<real>, createdAt: Option<DateTime>, updatedAt: Option<DateTime>,
                now: DateTime)
      ensures this.id == id && this.startDate == startDate && this.endDate == endDate
      ensures this.name == DerivedName(name, Some(startDate), Some(endDate))
      ensures this.status == (if status.Some? then status.value else PaymentStatusOf(Draft))
      ensures this.reportId == reportId
      ensures this.timeEntries == timeEntries
      ensures this.specialistTotals == (if specialistTotals.Some? then specialistTotals.value else map[])
      ensures this.projectTotals == (if projectTotals.Some? then projectTotals.value else map[])
      ensures this.totalHours == (if totalHours.Some? then totalHours.value else 0.0)
      ensures this.createdAt == (if createdAt.Some? then createdAt.value else now)
      ensures this.updatedAt == (if updatedAt.Some? then updatedAt.value else now)
      ensures timeEntries == [] && specialistTotals.None? && projectTotals.None? && totalHours.None? ==>
        TotalsConsistent()
    {
      this.id := id;
      this.name := DerivedName(name, Some(startDate), Some(endDate));
      this.startDate := startDate;
      this.endDate := endDate;
      this.status := if status.Some? then status.value else PaymentStatusOf(Draft);
      this.reportId := reportId;
      this.createdAt := if createdAt.Some? then createdAt.value else now;
      this.timeEntries := timeEntries;
      this.specialistTotals := if specialistTotals.Some? then specialistTotals.value else map[];
      this.projectTotals := if projectTotals.Some? then projectTotals.value else map[];
      this.totalHours := if totalHours.Some? then totalHours.value else 0.0;
      this.updatedAt := if updatedAt.Some? then updatedAt.value else now;
    }

    /** Appends an entry, folds it into the aggregates and stamps `updatedAt` with `now`. */
    method AddTimeEntry(entry: TimeEntry, now: DateTime)
      modifies this`timeEntries, this`specialistTotals, this`projectTotals, this`totalHours, this`updatedAt
      ensures timeEntries == old(timeEntries) + [entry]
      ensures specialistTotals == AddHours(old(specialistTotals), entry.specialistId, entry.hours)
      ensures projectTotals == AddHours(old(projectTotals), entry.projectId, entry.hours)
      ensures totalHours == old(totalHours) + entry.hours
      ensures updatedAt == now
      ensures old(TotalsConsistent()) ==> TotalsConsistent()
      ensures entry.hours >= 0.0 ==>
        && totalHours >= old(totalHours)
        && (forall k :: k in old(specialistTotals) ==> specialistTotals[k] >= old(specialistTotals)[k])
        && (forall k :: k in old(projectTotals) ==> projectTotals[k] >= old(projectTotals)[k])
    {
      timeEntries := timeEntries + [entry];
      UpdateTotals(entry);
      updatedAt := now;
      SumHoursAppend(old(timeEntries), entry);
      TotalsByAppend(BySpecialist, old(timeEntries), entry);
      TotalsByAppend(ByProject, old(timeEntries), entry);
    }

    /** Folds one entry into the three aggregates. */
    method UpdateTotals(entry: TimeEntry)
      modifies this`specialistTotals, this`projectTotals, this`totalHours
      ensures specialistTotals == AddHours(old(specialistTotals), entry.specialistId, entry.hours)
      ensures projectTotals == AddHours(old(projectTotals), entry.projectId, entry.hours)
      ensures totalHours == old(totalHours) + entry.hours
    {
      var specialistId := entry.specialistId;
      specialistTotals := specialistTotals[specialistId :=
        (if specialistId in specialistTotals then specialistTotals[specialistId] else 0.0) + entry.hours];
      var projectId := entry.projectId;
      projectTotals := projectTotals[projectId :=
        (if projectId in projectTotals then projectTotals[projectId] else 0.0) + entry.hours];
      totalHours := totalHours + entry.hours;
    }
  }

  function PeriodId(p: PaymentPeriod): string {
    p.id
  }
}
