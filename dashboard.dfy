/** The dashboard page (app/page.tsx): the repository selection, the query
    parameters of the PR and report requests, the all-or-nothing gathering
    of the per-repository PR lists, and the evaluation report's input.

    A request to the backend is a function from query parameters to an
    optional PR list (None when the response is not ok or the call throws);
    the page's React state is the class DashboardState. */
module Dashboard {
  import opened Records
  import opened Metrics
  import opened Charts
  import opened Layout

  // ---------------------------------------------------------------------
  // The repository selection

  /** `prev.filter((r) => r !== repo)` */
  function Without(repos: seq<string>, repo: string): (r: seq<string>)
    ensures repo !in r
    ensures forall x :: x != repo ==> (x in r <==> x in repos)
    ensures |r| <= |repos|
  {
    if repos == [] then []
    else (if repos[0] == repo then [] else [repos[0]]) + Without(repos[1..], repo)
  }

  /** `toggleRepo`: a selected repository is removed (every occurrence), an
      unselected one is appended at the end. */
  function Toggle(repos: seq<string>, repo: string): (r: seq<string>)
    ensures repo in r <==> repo !in repos
    ensures forall x :: x != repo ==> (x in r <==> x in repos)
    ensures repo !in repos ==> |r| == |repos| + 1 && r[..|repos|] == repos
  {
    if repo in repos then Without(repos, repo) else repos + [repo]
  }

  /** Filtering out a repository that is not there changes nothing. */
  lemma {:induction false} WithoutAbsent(repos: seq<string>, repo: string)
    requires repo !in repos
    ensures Without(repos, repo) == repos
  {
    if repos != [] {
      WithoutAbsent(repos[1..], repo);
      assert [repos[0]] + repos[1..] == repos;
    }
  }

  /** Filtering distributes over concatenation. */
  lemma {:induction false} WithoutAppend(a: seq<string>, b: seq<string>, repo: string)
    ensures Without(a + b, repo) == Without(a, repo) + Without(b, repo)
  {
    if a == [] {
      assert a + b == b;
    } else {
      var ab := a + b;
      assert ab[0] == a[0] && ab[1..] == a[1..] + b;
      WithoutAppend(a[1..], b, repo);
      var head := if a[0] == repo then [] else [a[0]];
      assert Without(ab, repo) == head + Without(a[1..] + b, repo);
      assert Without(a, repo) == head + Without(a[1..], repo);
    }
  }

  /** Selecting an unselected repository and deselecting it again restores
      the selection. */
  lemma ToggleTwice(repos: seq<string>, repo: string)
    requires repo !in repos
    ensures Toggle(Toggle(repos, repo), repo) == repos
  {
    WithoutAppend(repos, [repo], repo);
    WithoutAbsent(repos, repo);
  }

  /** The other repositories keep their relative order. */
  lemma ToggleKeepsOthersInOrder(repos: seq<string>, repo: string)
    ensures Without(Toggle(repos, repo), repo) == Without(repos, repo)
  {
    if repo in repos {
      WithoutAbsent(Without(repos, repo), repo);
    } else {
      WithoutAppend(repos, [repo], repo);
      WithoutAbsent(repos, repo);
    }
  }

  predicate Distinct(repos: seq<string>) {
    forall i, j :: 0 <= i < j < |repos| ==> repos[i] != repos[j]
  }

  /** Filtering keeps the entries in order, so it keeps them distinct. */
  lemma {:induction false} WithoutDistinct(repos: seq<string>, repo: string)
    requires Distinct(repos)
    ensures Distinct(Without(repos, repo))
  {
    if repos != [] {
      WithoutDistinct(repos[1..], repo);
      assert repos[0] !in repos[1..];
    }
  }

  /** A selection built by toggling never names a repository twice. */
  lemma ToggleDistinct(repos: seq<string>, repo: string)
    requires Distinct(repos)
    ensures Distinct(Toggle(repos, repo))
  {
    if repo in repos {
      WithoutDistinct(repos, repo);
    }
  }

  // ---------------------------------------------------------------------
  // Query parameters

  /** The parameter names the page sends. */
  datatype Key = Author | From | To | Repo | State | TargetBranch

  /** The name of a parameter on the wire. */
  function Name(k: Key): string {
    match k
    case Author => "author"
    case From => "from"
    case To => "to"
    case Repo => "repo"
    case State => "state"
    case TargetBranch => "target_branch"
  }

  /** Distinct keys have distinct names ("from" and "repo" share a length
      but not a last letter). */
  lemma NamesDistinct(a: Key, b: Key)
    requires a != b
    ensures Name(a) != Name(b)
  {
    assert Name(From)[3] == 'm' && Name(Repo)[3] == 'o';
  }

  /** One `URLSearchParams` entry. */
  datatype Param = Param(key: Key, value: string)
  type Query = seq<Param>

  /** `params.get(key)`: the first entry with that key. */
  function Lookup(q: Query, key: Key): (r: Option<string>)
    ensures r.None? <==> forall i :: 0 <= i < |q| ==> q[i].key != key
  {
    if q == [] then None
    else if q[0].key == key then Some(q[0].value)
    else Lookup(q[1..], key)
  }

  /** A lookup in a concatenation looks in the first part, then the second. */
  lemma {:induction false} LookupAppend(a: Query, b: Query, key: Key)
    ensures Lookup(a + b, key) == if Lookup(a, key).Some? then Lookup(a, key) else Lookup(b, key)
  {
    if a != [] {
      LookupAppend(a[1..], b, key);
      assert (a + b)[1..] == a[1..] + b;
    } else {
      assert a + b == b;
    }
  }

  /** A lookup in four parts, first to last. */
  lemma LookupParts(a: Query, b: Query, c: Query, d: Query, key: Key)
    ensures Lookup(a + b + c + d, key) ==
      if Lookup(a, key).Some? then Lookup(a, key)
      else if Lookup(b, key).Some? then Lookup(b, key)
      else if Lookup(c, key).Some? then Lookup(c, key)
      else Lookup(d, key)
  {
    LookupAppend(a, b, key);
    LookupAppend(a + b, c, key);
    LookupAppend(a + b + c, d, key);
  }

  /** A single entry answers for its key only. */
  lemma LookupOne(p: Param, key: Key)
    ensures Lookup([p], key) == if p.key == key then Some(p.value) else None
  {
    assert [p][1..] == [];
  }

  /** `if (value) params.append(key, value)`: only a non-empty value. */
  function Optional(key: Key, value: string): (q: Query)
    ensures forall k :: Lookup(q, k) == if k == key then Given(value) else None
  {
    assert forall k :: Lookup([Param(key, value)], k) == if key == k then Some(value) else None by {
      forall k { LookupOne(Param(key, value), k); }
    }
    if value == "" then [] else [Param(key, value)]
  }

  /** The form's filters. */
  datatype Filters = Filters(author: string, from: string, to: string, state: string, targetBranch: string)

  /** A present value, or none for the empty string. */
  function Given(value: string): Option<string> {
    if value == "" then None else Some(value)
  }

  /** The query of one per-repository PR request: author, from, to and repo
      always, then state and target_branch when they are set. */
  function FetchQuery(f: Filters, repo: string): (q: Query)
    ensures 4 <= |q| <= 6
  {
    [Param(Author, f.author), Param(From, f.from)] + [Param(To, f.to), Param(Repo, repo)]
      + Optional(State, f.state) + Optional(TargetBranch, f.targetBranch)
  }

  /** What the PR request sends: every form field, the date range always,
      the state and branch filters only when set. */
  lemma FetchQueryParams(f: Filters, repo: string, key: Key)
    ensures Lookup(FetchQuery(f, repo), key) ==
      match key
      case Author => Some(f.author)
      case From => Some(f.from)
      case To => Some(f.to)
      case Repo => Some(repo)
      case State => Given(f.state)
      case TargetBranch => Given(f.targetBranch)
  {
    var p0, p1, p2, p3 := Param(Author, f.author), Param(From, f.from), Param(To, f.to), Param(Repo, repo);
    LookupOne(p0, key); LookupOne(p1, key); LookupOne(p2, key); LookupOne(p3, key);
    LookupAppend([p0], [p1], key);
    LookupAppend([p2], [p3], key);
    assert [p0] + [p1] == [p0, p1] && [p2] + [p3] == [p2, p3];
    LookupParts([p0, p1], [p2, p3], Optional(State, f.state), Optional(TargetBranch, f.targetBranch), key);
  }

  /** The query of the report download: author and the first selected
      repository always, the dates, state and branch only when set. */
  function ReportQuery(f: Filters, repos: seq<string>): (q: Query)
    requires repos != []
    ensures 2 <= |q| <= 6
  {
    [Param(Author, f.author), Param(Repo, repos[0])]
      + (Optional(From, f.from) + Optional(To, f.to))
      + Optional(State, f.state) + Optional(TargetBranch, f.targetBranch)
  }

  /** What the report request sends: the author and only the first selected
      repository, the other fields only when set. */
  lemma ReportQueryParams(f: Filters, repos: seq<string>, key: Key)
    requires repos != []
    ensures Lookup(ReportQuery(f, repos), key) ==
      match key
      case Author => Some(f.author)
      case Repo => Some(repos[0])
      case From => Given(f.from)
      case To => Given(f.to)
      case State => Given(f.state)
      case TargetBranch => Given(f.targetBranch)
  {
    var p0, p1 := Param(Author, f.author), Param(Repo, repos[0]);
    LookupOne(p0, key); LookupOne(p1, key);
    LookupAppend([p0], [p1], key);
    assert [p0] + [p1] == [p0, p1];
    LookupAppend(Optional(From, f.from), Optional(To, f.to), key);
    LookupParts([p0, p1], Optional(From, f.from) + Optional(To, f.to),
      Optional(State, f.state), Optional(TargetBranch, f.targetBranch), key);
  }

  // ---------------------------------------------------------------------
  // Gathering the PRs

  /** The backend's PR endpoint: a list, or None when the request fails. */
  type Fetcher = Query -> Option<seq<PullRequest>>

  /** The request for one repository. */
  function Request(fetch: Fetcher, f: Filters, repo: string): Option<seq<PullRequest>> {
    fetch(FetchQuery(f, repo))
  }

  /** The PRs of `repos` requested one after the other and joined in
      selection order; one failed request fails the whole. */
  function FetchAll(fetch: Fetcher, f: Filters, repos: seq<string>): Option<seq<PullRequest>>
    decreases |repos|
  {
    if repos == [] then Some([])
    else
      var init := FetchAll(fetch, f, repos[..|repos| - 1]);
      var last := Request(fetch, f, repos[|repos| - 1]);
      if init.Some? && last.Some? then Some(init.value + last.value) else None
  }

  /** A single repository is gathered by exactly one request, with that
      repository's query. */
  lemma FetchAllOne(fetch: Fetcher, f: Filters, repo: string)
    ensures FetchAll(fetch, f, [repo]) == fetch(FetchQuery(f, repo))
  {
    assert [repo][..0] == [];
    var r := fetch(FetchQuery(f, repo));
    if r.Some? {
      assert [] + r.value == r.value;
    }
  }

  /** The gathering fails exactly when some repository's request fails. */
  lemma {:induction false} FetchAllFails(fetch: Fetcher, f: Filters, repos: seq<string>)
    ensures FetchAll(fetch, f, repos).None? <==>
      exists i :: 0 <= i < |repos| && Request(fetch, f, repos[i]).None?
    decreases |repos|
  {
    if repos != [] {
      var n := |repos| - 1;
      var init := repos[..n];
      FetchAllFails(fetch, f, init);
      if FetchAll(fetch, f, repos).None? {
        if FetchAll(fetch, f, init).None? {
          var i :| 0 <= i < |init| && Request(fetch, f, init[i]).None?;
          assert repos[i] == init[i];
        } else {
          assert Request(fetch, f, repos[n]).None?;
        }
      } else {
        forall i | 0 <= i < |repos|
          ensures Request(fetch, f, repos[i]).Some?
        {
          if i < n {
            assert repos[i] == init[i];
          }
        }
      }
    }
  }

  /** Gathering over two selections in a row joins the two lists: the
      result is the concatenation of the per-repository lists. */
  lemma {:induction false} FetchAllAppend(fetch: Fetcher, f: Filters, a: seq<string>, b: seq<string>)
    ensures FetchAll(fetch, f, a + b).Some? <==> FetchAll(fetch, f, a).Some? && FetchAll(fetch, f, b).Some?
    ensures FetchAll(fetch, f, a + b).Some? ==>
      FetchAll(fetch, f, a + b).value == FetchAll(fetch, f, a).value + FetchAll(fetch, f, b).value
    decreases |b|
  {
    if b == [] {
      assert a + b == a;
    } else {
      var n := |b| - 1;
      FetchAllAppend(fetch, f, a, b[..n]);
      assert (a + b)[..|a + b| - 1] == a + b[..n];
      assert (a + b)[|a + b| - 1] == b[n];
      var x, y := FetchAll(fetch, f, a), FetchAll(fetch, f, b[..n]);
      var z := Request(fetch, f, b[n]);
      if x.Some? && y.Some? && z.Some? {
        assert x.value + y.value + z.value == x.value + (y.value + z.value);
      }
    }
  }

  /** The loop of `fetchPRs`: request each repository in selection order,
      append each list to `allPRs`, stop at the first failed request. */
  method GatherPRs(fetch: Fetcher, f: Filters, repos: seq<string>) returns (result: Option<seq<PullRequest>>)
    ensures result == FetchAll(fetch, f, repos)
  {
    var allPRs: seq<PullRequest> := [];
    var failed := false;
    var i := 0;
    while i < |repos| && !failed
      invariant 0 <= i <= |repos|
      invariant FetchAll(fetch, f, repos[..i]) == if failed then None else Some(allPRs)
    {
      var data := fetch(FetchQuery(f, repos[i]));
      assert data == Request(fetch, f, repos[i]);
      assert repos[..i + 1][..i] == repos[..i];
      if data.None? {
        failed := true;
      } else {
        allPRs := allPRs + data.value;
      }
      i := i + 1;
    }
    if failed {
      FetchAllAppend(fetch, f, repos[..i], repos[i..]);
      assert repos[..i] + repos[i..] == repos;
      result := None;
    } else {
      assert repos[..i] == repos;
      result := Some(allPRs);
    }
  }

  // ---------------------------------------------------------------------
  // The evaluation report's input

  /** `members.find((m) => m.uuid === uuid)`: the first member with that id. */
  function FindMember(members: seq<Member>, uuid: string): (r: Option<Member>)
    ensures r.None? <==> forall i :: 0 <= i < |members| ==> members[i].uuid != uuid
    ensures r.Some? ==> r.value.uuid == uuid
    ensures r.Some? ==> exists i :: (0 <= i < |members| && members[i] == r.value &&
      forall j :: 0 <= j < i ==> members[j].uuid != uuid)
  {
    if members == [] then None
    else if members[0].uuid == uuid then Some(members[0])
    else
      var r := FindMember(members[1..], uuid);
      if r.Some? then
        var i :| 0 <= i < |members[1..]| && members[1..][i] == r.value &&
          forall j :: 0 <= j < i ==> members[1..][j].uuid != uuid;
        assert members[i + 1] == r.value;
        assert forall j :: 0 <= j < i + 1 ==> members[j].uuid != uuid by {
          forall j | 0 <= j < i + 1 ensures members[j].uuid != uuid {
            if j > 0 {
              assert members[j] == members[1..][j - 1];
            }
          }
        }
        r
      else
        r
  }

  /** `selectedMemberData?.display_name || "Unknown"` */
  function EmployeeName(members: seq<Member>, uuid: string): (name: string)
    ensures name != ""
    ensures name != "Unknown" ==>
      FindMember(members, uuid).Some? && name == FindMember(members, uuid).value.displayName
    ensures FindMember(members, uuid).None? ==> name == "Unknown"
    ensures FindMember(members, uuid).Some? && FindMember(members, uuid).value.displayName != "" ==>
      name == FindMember(members, uuid).value.displayName
  {
    var m := FindMember(members, uuid);
    if m.Some? && m.value.displayName != "" then m.value.displayName else "Unknown"
  }

  /** The report data `generateEvaluationReport` hands to the generator: none
      for an empty PR list, so the scoring always sees at least one PR. */
  function EvaluationReportData(members: seq<Member>, f: Filters, repos: seq<string>,
                                prs: seq<PullRequest>): (r: Option<ReportData>)
    ensures r.None? <==> prs == []
    ensures r.Some? ==> r.value.summary.totalPRs == |prs| > 0
    ensures r.Some? ==> r.value.employee == EmployeeName(members, f.author)
    ensures r.Some? ==> r.value.dateRange == f.from + " to " + f.to
    ensures r.Some? ==> r.value.repositories == repos && r.value.prs == prs
    ensures r.Some? ==> r.value.summary == Summarize(prs)
  {
    if prs == [] then None
    else Some(ReportData(EmployeeName(members, f.author), f.from + " to " + f.to, repos, prs, Summarize(prs)))
  }

  /** What `generateEvaluationReport` produces for the given page state:
      the report data, and no PDF when there is none; otherwise the
      generator's document over that data and the three rendered charts. */
  method Report(members: seq<Member>, f: Filters, repos: seq<string>, prs: seq<PullRequest>,
                wrap: (Text, int) -> nat, generatedOn: string, isoTimestamp: string)
    returns (data: Option<ReportData>, pdf: PdfLayout?, fileName: string)
    ensures data == EvaluationReportData(members, f, repos, prs)
    ensures pdf == null <==> prs == []
    ensures pdf != null ==> fresh(pdf) && pdf.Valid() && pdf.pages >= 4
    ensures pdf != null ==> fileName == FileName(EmployeeName(members, f.author), isoTimestamp)
    ensures pdf != null ==> data.Some? && pdf.placed == Document(data.value, RenderedCharts, wrap, generatedOn).items
  {
    data := EvaluationReportData(members, f, repos, prs);
    if data.None? {
      return data, null, "";
    }
    pdf, fileName := GeneratePdfReport(data.value, RenderedCharts, wrap, generatedOn, isoTimestamp);
    DocumentOpensPages(data.value, RenderedCharts, wrap, generatedOn);
  }

  // ---------------------------------------------------------------------
  // The page

  const FillAllFields := "⚠️ Please fill all fields"
  const FetchFailed := "❌ Failed to fetch PRs."
  const ReportNeedsMemberAndRepo := "⚠️ Member & repo required for report"
  const NoDataForReport := "⚠️ No PR data available for report generation"

  /** The page's state (its `useState` hooks, without the popover flags). */
  class DashboardState {
    var members: seq<Member>
    var selectedMember: string
    var fromDate: string
    var toDate: string
    var selectedRepos: seq<string>
    var selectedState: string
    var targetBranch: string
    var prs: seq<PullRequest>
    var loading: bool
    var generatingReport: bool
    var error: string

    /** The selection only changes by toggling, so it names each repository
        at most once. */
    ghost predicate Valid()
      reads this
    {
      Distinct(selectedRepos)
    }

    function Form(): Filters
      reads this
    {
      Filters(selectedMember, fromDate, toDate, selectedState, targetBranch)
    }

    constructor(members: seq<Member>)
      ensures Valid()
      ensures this.members == members && selectedMember == "" && fromDate == "" && toDate == ""
      ensures selectedRepos == [] && selectedState == "" && targetBranch == ""
      ensures prs == [] && !loading && !generatingReport && error == ""
    {
      this.members := members;
      selectedMember, fromDate, toDate := "", "", "";
      selectedRepos, selectedState, targetBranch := [], "", "";
      prs, loading, generatingReport, error := [], false, false, "";
    }

    /** `toggleRepo` */
    method ToggleRepo(repo: string)
      requires Valid()
      modifies this
      ensures Valid()
      ensures selectedRepos == Toggle(old(selectedRepos), repo)
      ensures Form() == old(Form()) && prs == old(prs) && error == old(error)
      ensures members == old(members) && loading == old(loading) && generatingReport == old(generatingReport)
    {
      ToggleDistinct(selectedRepos, repo);
      selectedRepos := Toggle(selectedRepos, repo);
    }

    /** `fetchPRs`: with a field missing it only reports so; otherwise it
      requests every selected repository in order and, if all succeed,
      replaces the PR list by their concatenation, else keeps it and
      reports the failure. */
    method FetchPRs(fetch: Fetcher)
      requires Valid()
      modifies this
      ensures Valid()
      ensures selectedRepos == old(selectedRepos) && Form() == old(Form()) && members == old(members)
      ensures generatingReport == old(generatingReport)
      ensures old(selectedMember == "" || fromDate == "" || toDate == "" || selectedRepos == []) ==>
        error == FillAllFields && prs == old(prs) && loading == old(loading)
      ensures old(selectedMember != "" && fromDate != "" && toDate != "" && selectedRepos != []) ==>
        !loading &&
        match FetchAll(fetch, Form(), selectedRepos)
        case None => error == FetchFailed && prs == old(prs)
        case Some(all) => error == "" && prs == all
    {
      if selectedMember == "" || fromDate == "" || toDate == "" || |selectedRepos| == 0 {
        error := FillAllFields;
        return;
      }
      loading := true;
      error := "";
      var all := GatherPRs(fetch, Form(), selectedRepos);
      if all.None? {
        error := FetchFailed;
      } else {
        prs := all.value;
      }
      loading := false;
    }

    /** `downloadReport`: the report URL's query, or none (and an error) when
      the member or the repository is missing. */
    method DownloadReport() returns (query: Option<Query>)
      requires Valid()
      modifies this
      ensures Valid()
      ensures unchanged(this`members, this`selectedMember, this`fromDate, this`toDate, this`selectedRepos)
      ensures unchanged(this`selectedState, this`targetBranch, this`prs, this`loading) && generatingReport == old(generatingReport)
      ensures query.None? <==> selectedMember == "" || selectedRepos == []
      ensures query.None? ==> error == ReportNeedsMemberAndRepo
      ensures query.Some? ==> query.value == ReportQuery(Form(), selectedRepos) && error == old(error)
    {
      if selectedMember == "" || |selectedRepos| == 0 {
        error := ReportNeedsMemberAndRepo;
        return None;
      }
      query := Some(ReportQuery(Form(), selectedRepos));
    }

    /** `generateEvaluationReport`: refuses an empty PR list; otherwise
      builds the report data and lays out the PDF with the three charts
      the hidden chart container renders. */
    method GenerateEvaluationReport(wrap: (Text, int) -> nat, generatedOn: string, isoTimestamp: string)
      returns (data: Option<ReportData>, pdf: PdfLayout?, fileName: string)
      requires Valid()
      modifies this
      ensures Valid()
      ensures unchanged(this`members, this`selectedMember, this`fromDate, this`toDate, this`selectedRepos)
      ensures unchanged(this`selectedState, this`targetBranch, this`prs, this`loading)
      ensures data == EvaluationReportData(members, Form(), selectedRepos, prs)
      ensures pdf == null <==> prs == []
      ensures generatingReport == (old(generatingReport) && pdf == null)
      ensures pdf == null ==> error == NoDataForReport
      ensures pdf != null ==> fresh(pdf) && pdf.Valid() && pdf.pages >= 4 && error == old(error)
      ensures pdf != null ==> fileName == FileName(EmployeeName(members, selectedMember), isoTimestamp)
      ensures pdf != null ==> data.Some? && pdf.placed == Document(data.value, RenderedCharts, wrap, generatedOn).items
    {
      if |prs| == 0 {
        error := NoDataForReport;
        return None, null, "";
      }
      // `generatingReport` is raised while the PDF is drawn and cleared by
      // `finally`; nothing reads it in between, so only its final value is kept.
      generatingReport := false;
      data, pdf, fileName := Report(members, Form(), selectedRepos, prs, wrap, generatedOn, isoTimestamp);
    }
  }
}
