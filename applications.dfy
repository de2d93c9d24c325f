/** The student's "my applications" page: the tab and search filter, the status
    labels and the per-status counters. */
module MyApplications {
  import opened Wrappers
  import opened Text
  import opened Lists

  /** An application with the two optional fields the search looks at:
      `project.title` and `project.umkm.umkmProfile.business_name`. */
  datatype Application = Application(
    id: int, status: string, projectTitle: Option<string>, businessName: Option<string>)

  /** `field?.toLowerCase().includes(term.toLowerCase())`: an absent field never matches. */
  predicate FieldContains(field: Option<string>, searchTerm: string) {
    field.Some? && ContainsIgnoringCase(field.value, searchTerm)
  }

  /** The row test of `filteredApplications`: the tab is 'all' or the status, and
      the search is empty or found in the title or the business name. */
  predicate ApplicationMatches(filter: string, searchTerm: string, app: Application) {
    && (filter == "all" || app.status == filter)
    && (searchTerm == "" || FieldContains(app.projectTitle, searchTerm)
                         || FieldContains(app.businessName, searchTerm))
  }

  function Matcher(filter: string, searchTerm: string): Application -> bool {
    (app: Application) => ApplicationMatches(filter, searchTerm, app)
  }

  /** `filteredApplications`: an order-preserving sub-list holding exactly the
      matching applications. */
  function FilterApplications(apps: seq<Application>, filter: string, searchTerm: string): (r: seq<Application>)
    ensures IsSubsequence(r, apps)
    ensures forall a :: a in r <==> a in apps && ApplicationMatches(filter, searchTerm, a)
    ensures forall a :: a in r && filter != "all" ==> a.status == filter
  {
    Filter(apps, Matcher(filter, searchTerm))
  }

  /** The 'all' tab with no search shows every application. */
  lemma EmptySearchShowsAll(apps: seq<Application>)
    ensures FilterApplications(apps, "all", "") == apps
  {
    FilterAll(apps, Matcher("all", ""));
  }

  /** A search term drops an application that has neither a title nor a business
      name, whatever the tab. */
  lemma SearchDropsUnnamed(apps: seq<Application>, filter: string, searchTerm: string, app: Application)
    requires searchTerm != "" && app.projectTitle.None? && app.businessName.None?
    ensures app !in FilterApplications(apps, filter, searchTerm)
  {
  }

  function HasStatus(status: string): Application -> bool {
    (app: Application) => app.status == status
  }

  /** `applications.filter(app => app.status === status).length`. */
  function StatusCount(apps: seq<Application>, status: string): (n: nat)
    ensures n <= |apps|
  {
    |Filter(apps, HasStatus(status))|
  }

  /** The counter of a status equals the length of that status's tab with no
      search, so the counters and the tabs agree. */
  lemma CountMatchesTab(apps: seq<Application>, status: string)
    requires status != "all"
    ensures StatusCount(apps, status) == |FilterApplications(apps, status, "")|
  {
    FilterAgree(apps, HasStatus(status), Matcher(status, ""));
  }

  /** The pending, accepted and rejected counters together never exceed the
      total counter. */
  lemma {:induction false} CountsBounded(apps: seq<Application>)
    ensures StatusCount(apps, "pending") + StatusCount(apps, "accepted")
            + StatusCount(apps, "rejected") <= |apps|
  {
    if apps != [] {
      CountsBounded(apps[1..]);
    }
  }

  /** `getStatusText`: the four known statuses get their labels, any other
      status is shown as it is. */
  function StatusText(status: string): (r: string)
    ensures status == "pending" ==> r == "Menunggu Review"
    ensures status == "accepted" ==> r == "Diterima"
    ensures status == "rejected" ==> r == "Ditolak"
    ensures status == "withdrawn" ==> r == "Ditarik"
    ensures r != status <==> status in {"pending", "accepted", "rejected", "withdrawn"}
  {
    match status
    case "pending" => "Menunggu Review"
    case "accepted" => "Diterima"
    case "rejected" => "Ditolak"
    case "withdrawn" => "Ditarik"
    case _ => status
  }
}
