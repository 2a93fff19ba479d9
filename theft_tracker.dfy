/** The theft tracker (components/TheftTracker.tsx): the in-memory report list, its search
    filter and statistics, and the create / edit / resolve / load handlers that keep the
    `theft-reports` storage copy next to it. Each API call either reaches the server, whose
    reply is the record the server's handler builds, or fails and takes the offline path. */
module TheftTracker {
  import opened Common
  import opened Text
  import opened Records
  import opened Storage
  import opened TheftReportForm
  import KvServer
  import Json

  // ---------------------------------------------------------------- statistics

  function HasStatus(st: string): TheftReport -> bool {
    (r: TheftReport) => r.status == st
  }

  predicate IsKnownStatus(st: string) {
    st == UnderInvestigation || st == Resolved || st == Closed
  }

  datatype TrackerStats = TrackerStats(total: nat, investigating: nat, resolved: nat, closed: nat)

  /** `calculateStats`: the list length and one count per status. The three counts never add
      up to more than the total, and add up to it exactly when every status is one of the three. */
  function CalculateStats(rs: seq<TheftReport>): (s: TrackerStats)
    ensures s.total == |rs|
    ensures s.investigating == |set i | 0 <= i < |rs| && rs[i].status == UnderInvestigation|
    ensures s.resolved == |set i | 0 <= i < |rs| && rs[i].status == Resolved|
    ensures s.closed == |set i | 0 <= i < |rs| && rs[i].status == Closed|
    ensures s.investigating + s.resolved + s.closed <= s.total
    ensures (forall i | 0 <= i < |rs| :: IsKnownStatus(rs[i].status)) ==>
      s.investigating + s.resolved + s.closed == s.total
  {
    StatusCountsBounded(rs);
    StatusCountIsPositions(rs, UnderInvestigation);
    StatusCountIsPositions(rs, Resolved);
    StatusCountIsPositions(rs, Closed);
    TrackerStats(
      |rs|,
      |Filter(HasStatus(UnderInvestigation), rs)|,
      |Filter(HasStatus(Resolved), rs)|,
      |Filter(HasStatus(Closed), rs)|)
  }

  /** `reports.filter(r => r.status === st).length` is the number of positions holding a
      report with status `st`. */
  lemma StatusCountIsPositions(rs: seq<TheftReport>, st: string)
    ensures |Filter(HasStatus(st), rs)| == |set i | 0 <= i < |rs| && rs[i].status == st|
  {
    FilterCountsIndices(HasStatus(st), rs);
    assert IndicesWhere(HasStatus(st), rs) == set i | 0 <= i < |rs| && rs[i].status == st;
  }

  lemma {:induction false} StatusCountsBounded(rs: seq<TheftReport>)
    ensures var n := |Filter(HasStatus(UnderInvestigation), rs)| + |Filter(HasStatus(Resolved), rs)|
                     + |Filter(HasStatus(Closed), rs)|;
      && n <= |rs|
      && ((forall i | 0 <= i < |rs| :: IsKnownStatus(rs[i].status)) ==> n == |rs|)
  {
    if rs != [] {
      StatusCountsBounded(rs[1..]);
      assert forall i | 0 <= i < |rs[1..]| :: rs[1..][i] == rs[i + 1];
    }
  }

  /** A new report counts as one more report under investigation and changes no other count. */
  lemma CreateCountsAsInvestigating(r: TheftReport, rs: seq<TheftReport>)
    requires r.status == UnderInvestigation
    ensures var before, after := CalculateStats(rs), CalculateStats([r] + rs);
      && after.total == before.total + 1
      && after.investigating == before.investigating + 1
      && after.resolved == before.resolved
      && after.closed == before.closed
  {
    assert ([r] + rs)[1..] == rs;
  }

  // ---------------------------------------------------------------- search

  /** `field.toLowerCase().includes(query.toLowerCase())` */
  predicate FieldMatches(field: string, query: string) {
    Contains(LowerStr(field), LowerStr(query))
  }

  /** The search predicate of `filteredReports`; a report without a suspect name is not
      matched on that field (`suspectName?.…` is undefined). */
  predicate MatchesSearch(r: TheftReport, query: string) {
    || FieldMatches(r.itemName, query)
    || FieldMatches(r.description, query)
    || FieldMatches(r.location, query)
    || FieldMatches(r.reporterName, query)
    || (r.suspectName.Some? && FieldMatches(r.suspectName.value, query))
  }

  function SearchBy(query: string): TheftReport -> bool {
    (r: TheftReport) => MatchesSearch(r, query)
  }

  /** `filteredReports`: the reports the search matches, in list order; an empty query keeps
      them all. */
  function FilteredReports(rs: seq<TheftReport>, query: string): (out: seq<TheftReport>)
    ensures IsSubsequence(out, rs)
    ensures forall r :: r in out <==> r in rs && MatchesSearch(r, query)
    ensures forall r :: multiset(out)[r] == (if MatchesSearch(r, query) then multiset(rs)[r] else 0)
    ensures query == "" ==> out == rs
  {
    FilteredReportsFacts(rs, query);
    Filter(SearchBy(query), rs)
  }

  lemma FilteredReportsFacts(rs: seq<TheftReport>, query: string)
    ensures IsSubsequence(Filter(SearchBy(query), rs), rs)
    ensures forall r :: r in Filter(SearchBy(query), rs) <==> r in rs && MatchesSearch(r, query)
    ensures forall r :: (multiset(Filter(SearchBy(query), rs))[r] ==
      if MatchesSearch(r, query) then multiset(rs)[r] else 0)
    ensures query == "" ==> Filter(SearchBy(query), rs) == rs
  {
    FilterIsSubsequence(SearchBy(query), rs);
    FilterMultiset(SearchBy(query), rs);
    forall r ensures r in Filter(SearchBy(query), rs) <==> r in rs && MatchesSearch(r, query) {
      FilterMember(SearchBy(query), rs, r);
    }
    if query == "" {
      forall i | 0 <= i < |rs| ensures SearchBy(query)(rs[i]) {
        ContainsEmpty(LowerStr(rs[i].itemName));
      }
      FilterKeepsAll(SearchBy(query), rs);
    }
  }

  // ---------------------------------------------------------------- list updates

  /** `reports.map(r => r.id === id ? replacement : r)` */
  function ReplaceById(rs: seq<TheftReport>, id: Option<string>, replacement: TheftReport)
    : (out: seq<TheftReport>)
    ensures |out| == |rs|
    ensures forall i | 0 <= i < |rs| :: out[i] == (if rs[i].id == id then replacement else rs[i])
  {
    if rs == [] then []
    else [if rs[0].id == id then replacement else rs[0]] + ReplaceById(rs[1..], id, replacement)
  }

  const LocalIdPrefix := "theft-local-"

  /** The id `${id}` the update's URL carries: the report's id, or "undefined" without one. */
  function UrlId(id: Option<string>): string {
    id.GetOr("undefined")
  }

  /** The report a create adds. Online it is the server's `{ id, ...body, createdAt }` for the
      body `{ ...formData, status }`; offline it is `{ id: theft-local-…, ...formData, status,
      createdAt }`. Either way: the form's fields, status "Under Investigation", a creation time. */
  function NewReport(form: TheftForm, reachable: bool, suffix: string, now: string): (r: TheftReport)
    ensures r.status == UnderInvestigation
    ensures FormOf(r) == form && r.suspectName.Some?
    ensures r.createdAt == Some(now) && r.updatedAt == None
    ensures r.id == Some((if reachable then "theft:" else LocalIdPrefix) + suffix)
  {
    TheftReport(
      Some((if reachable then "theft:" else LocalIdPrefix) + suffix),
      form.itemName, form.description, form.date, form.location, form.reporterName,
      form.reporterContact, Some(form.suspectName), form.suspectDescription, form.suspectLastSeen,
      UnderInvestigation, Some(now), None)
  }

  /** The report an edit of `e` puts in the list. Online it is the server's overwrite
      `{ id, ...formData, status: e.status, updatedAt }`, which keeps the status but, being
      a full overwrite, no longer has `createdAt`; offline it is `{ ...e, ...formData }`,
      which keeps every field of `e` the form does not hold. */
  function EditedReport(e: TheftReport, form: TheftForm, reachable: bool, now: string): (r: TheftReport)
    ensures r.status == e.status
    ensures FormOf(r) == form
    ensures reachable ==> r.id == Some(UrlId(e.id)) && r.createdAt == None && r.updatedAt == Some(now)
    ensures !reachable ==> r.id == e.id && r.createdAt == e.createdAt && r.updatedAt == e.updatedAt
  {
    if reachable then
      TheftReport(
        Some(UrlId(e.id)),
        form.itemName, form.description, form.date, form.location, form.reporterName,
        form.reporterContact, Some(form.suspectName), form.suspectDescription, form.suspectLastSeen,
        e.status, None, Some(now))
    else
      e.(itemName := form.itemName, description := form.description, date := form.date,
         location := form.location, reporterName := form.reporterName,
         reporterContact := form.reporterContact, suspectName := Some(form.suspectName),
         suspectDescription := form.suspectDescription, suspectLastSeen := form.suspectLastSeen)
  }

  /** The report a resolve puts in the list: online the server's `{ id, ...report, status,
      updatedAt }`, offline `{ ...report, status: "Resolved" }`. Only the status (and online
      the update stamp) differ from `report`. */
  function ResolvedReport(report: TheftReport, reachable: bool, now: string): (r: TheftReport)
    ensures r.status == Resolved
    ensures FormOf(r) == FormOf(report) && r.suspectName == report.suspectName
    ensures r.createdAt == report.createdAt
    ensures report.id.Some? ==> r.id == report.id
    ensures !reachable ==> r == report.(status := Resolved)
    ensures reachable ==> r.updatedAt == Some(now)
  {
    if reachable then report.(id := Some(UrlId(report.id)), status := Resolved, updatedAt := Some(now))
    else report.(status := Resolved)
  }

  /** Editing a report offline without touching the form leaves it exactly as it was. */
  lemma UntouchedOfflineEdit(e: TheftReport, today: string, now: string)
    requires e.date != "" && e.suspectName.Some?
    ensures EditedReport(e, Initial(Some(e), today), false, now) == e
  {
  }

  /** A report created offline keeps its `theft-local-` id, which is not under the server's
      `theft:` prefix: editing or resolving it online stores the record under a key the
      theft-report listing never returns. */
  lemma OfflineReportUpdatedOnlineIsUnlisted(form: TheftForm, suffix: string, created: string,
                                             store: KvServer.Store, body: Json.Record, now: string)
    ensures var id := UrlId(NewReport(form, false, suffix, created).id);
      && !StartsWith(KvServer.TheftPrefix, id)
      && KvServer.PrefixKeys(store[id := KvServer.ReplacementRecord(id, body, now)], KvServer.TheftPrefix)
         == KvServer.PrefixKeys(store, KvServer.TheftPrefix)
  {
    var id := UrlId(NewReport(form, false, suffix, created).id);
    assert id[5] == '-' && KvServer.TheftPrefix[5] == ':';
    KvServer.UpdateOffPrefixUnlisted(store, id, body, now);
  }

  /** The reply of `api.getTheftReports()`: `response.reports`, possibly missing, or a failure. */
  datatype Fetch = Answered(reports: Option<seq<TheftReport>>) | Unavailable

  class Tracker {
    const storage: LocalStorage
    var reports: seq<TheftReport>
    var searchQuery: string
    var formOpen: bool
    var editing: Option<TheftReport>

    constructor (storage: LocalStorage)
      ensures this.storage == storage
      ensures reports == [] && searchQuery == "" && !formOpen && editing == None
    {
      this.storage := storage;
      reports, searchQuery, formOpen, editing := [], "", false, None;
    }

    /** `stats`, recomputed whenever `reports` changes. */
    function Stats(): TrackerStats
      reads this
    {
      CalculateStats(reports)
    }

    /** What the list shows: `filteredReports`. */
    function Visible(): seq<TheftReport>
      reads this
    {
      FilteredReports(reports, searchQuery)
    }

    /** What every handler leaves behind: the storage copy equals the list, or there is no
        copy and the list is empty. */
    ghost predicate CacheConsistent()
      reads this, storage
    {
      storage.theftReports == Cached(reports) || (storage.theftReports == Absent && reports == [])
    }

    /** `loadReports`: the server's list (or [] if it sent none), also saved to storage; on
        failure the stored copy, or nothing; a copy that does not parse is removed. */
    method LoadReports(response: Fetch)
      modifies this`reports, storage`theftReports
      ensures response.Answered? ==>
        reports == response.reports.GetOr([]) && storage.theftReports == Cached(reports)
      ensures response.Unavailable? ==> match old(storage.theftReports)
        case Cached(saved) => reports == saved && storage.theftReports == old(storage.theftReports)
        case Absent => reports == [] && storage.theftReports == Absent
        case Corrupt => reports == [] && storage.theftReports == Absent
      ensures CacheConsistent()
    {
      if response.Answered? {
        reports := response.reports.GetOr([]);
        storage.theftReports := Cached(reports);
      } else {
        match storage.theftReports
        case Cached(saved) =>
          reports := saved;
        case Absent =>
          reports := [];
        case Corrupt =>
          storage.theftReports := Absent;
          reports := [];
      }
    }

    /** The "Add Report" button. */
    method OpenNewReport()
      modifies this`formOpen, this`editing
      ensures formOpen && editing == None
    {
      editing := None;
      formOpen := true;
    }

    /** `handleEdit(report)` */
    method StartEdit(report: TheftReport)
      modifies this`formOpen, this`editing
      ensures formOpen && editing == Some(report)
    {
      editing := Some(report);
      formOpen := true;
    }

    /** The form's `onCancel`. */
    method CancelForm()
      modifies this`formOpen, this`editing
      ensures !formOpen && editing == None
    {
      formOpen := false;
      editing := None;
    }

    method SetSearchQuery(query: string)
      modifies this`searchQuery
      ensures searchQuery == query
      ensures query == "" ==> Visible() == reports
      ensures forall r :: r in Visible() <==> r in reports && MatchesSearch(r, query)
    {
      searchQuery := query;
    }

    /** `handleSubmitReport(formData)`. Without a report being edited, a new report goes in
        front of the list; otherwise every entry with the edited report's id is replaced.
        Either way the storage copy is the new list and the form closes. */
    method SubmitReport(form: TheftForm, reachable: bool, suffix: string, now: string)
      modifies this`reports, this`formOpen, this`editing, storage`theftReports
      ensures old(editing).None? ==>
        && reports == [NewReport(form, reachable, suffix, now)] + old(reports)
        && Stats() == old(Stats()).(total := old(Stats()).total + 1,
                                    investigating := old(Stats()).investigating + 1)
      ensures old(editing).Some? ==>
        var e := old(editing).value;
        reports == ReplaceById(old(reports), e.id, EditedReport(e, form, reachable, now))
      ensures storage.theftReports == Cached(reports)
      ensures !formOpen && editing == None
      ensures CacheConsistent()
    {
      if editing.Some? {
        var e := editing.value;
        reports := ReplaceById(reports, e.id, EditedReport(e, form, reachable, now));
      } else {
        CreateCountsAsInvestigating(NewReport(form, reachable, suffix, now), reports);
        reports := [NewReport(form, reachable, suffix, now)] + reports;
      }
      storage.theftReports := Cached(reports);
      formOpen := false;
      editing := None;
    }

    /** `handleResolve(report)`: every entry with the report's id becomes the resolved report;
        the storage copy is the new list. */
    method Resolve(report: TheftReport, reachable: bool, now: string)
      modifies this`reports, storage`theftReports
      ensures reports == ReplaceById(old(reports), report.id, ResolvedReport(report, reachable, now))
      ensures storage.theftReports == Cached(reports)
      ensures CacheConsistent()
    {
      reports := ReplaceById(reports, report.id, ResolvedReport(report, reachable, now));
      storage.theftReports := Cached(reports);
    }
  }
}
