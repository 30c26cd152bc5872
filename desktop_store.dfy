/** The desktop app's GitHub store: the current organization, its loaded
    data, one loading flag per fetch action and the last error.

    Each fetch action is split at its first `await`: `BeginFetch` is the
    synchronous part (the organization check and raising the loading
    flag), the `Finish…` methods apply what the request produced. Other
    actions may run in between, and every finishing update is applied to
    the state as it then is, as the source's functional `set` does. */
module DesktopStore {
  import opened Wrappers
  import opened Text
  import opened GitHubErrors
  import opened GitHubClient
  import opened Ranking
  import opened CommitStats

  datatype Loading = Loading(info: bool, members: bool, teams: bool, repos: bool, commits: bool)

  datatype OrgData<Org, M, T> = OrgData(info: Option<Org>, members: seq<M>, teams: seq<T>, repos: seq<Repository>, commitStats: seq<CommitStat>)

  /** The five fetch actions. */
  datatype Section = InfoSection | MembersSection | TeamsSection | ReposSection | CommitsSection

  function NoData<Org, M, T>(): OrgData<Org, M, T> {
    OrgData(None, [], [], [], [])
  }

  /** The loading flags with `section`'s set to `v` and the others kept. */
  function WithFlag(l: Loading, section: Section, v: bool): (r: Loading)
    ensures section == InfoSection ==> r == l.(info := v)
    ensures section == MembersSection ==> r == l.(members := v)
    ensures section == TeamsSection ==> r == l.(teams := v)
    ensures section == ReposSection ==> r == l.(repos := v)
    ensures section == CommitsSection ==> r == l.(commits := v)
  {
    match section
    case InfoSection => l.(info := v)
    case MembersSection => l.(members := v)
    case TeamsSection => l.(teams := v)
    case ReposSection => l.(repos := v)
    case CommitsSection => l.(commits := v)
  }

  /** The store's own `githubFetch`: no token (an empty one is falsy)
      throws "Not authenticated", a non-ok response throws an error naming
      only its status, an ok one yields its JSON. The outcomes the
      `Finish*` methods below take are this result, or the rejection of the
      request itself, as a thrown value. */
  function StoreFetch<J>(token: Option<string>, resp: HttpResponse<J>): (r: Result<J, Error>)
    ensures token.None? || token.value == "" ==> r == Failure(PlainError("Not authenticated"))
    ensures token.Some? && token.value != "" && !resp.Ok() ==> r == Failure(PlainError("GitHub API error: " + IntToString(resp.status)))
    ensures r.Success? <==> token.Some? && token.value != "" && resp.Ok()
    ensures r.Success? ==> r.value == resp.json
  {
    if token.None? || token.value == "" then Failure(PlainError("Not authenticated"))
    else if !resp.Ok() then Failure(PlainError("GitHub API error: " + IntToString(resp.status)))
    else Success(resp.json)
  }

  /** `err instanceof Error ? err.message : fallback`. */
  function ErrorText(t: Thrown, fallback: string): string {
    match t
    case Err(e) => e.Message()
    case NonError(_) => fallback
  }

  const TopRepos := 10
  const TopAuthors := 10

  /** What each of the first ten repositories contributes: the logins of its
      commits that have one, or nothing when its request failed. */
  function DesktopScans(repos: seq<Repository>, commitsOf: string -> Result<seq<Commit>, Thrown>): (r: seq<Option<seq<string>>>)
    ensures |r| == Min(TopRepos, |repos|)
    ensures forall j :: 0 <= j < |r| ==>
      r[j] == if commitsOf(repos[j].fullName).Success? then Some(Logins(commitsOf(repos[j].fullName).value, true, None)) else None
  {
    var n := Min(TopRepos, |repos|);
    seq(n, j requires 0 <= j < n => if commitsOf(repos[j].fullName).Success? then Some(Logins(commitsOf(repos[j].fullName).value, true, None)) else None)
  }

  /** Outside the member and bot filters, a commit counts exactly when it
      has an author login. */
  lemma DesktopCountsEveryLogin(c: Commit)
    ensures Qualifies(c, true, None) <==> c.author.Some? && c.author.value.login.Some? && c.author.value.login.value != ""
  {
  }

  /** `stats` are the ten authors with most commits in `scans`, ranked:
      at most ten records, one per author, each with its author's count;
      an author left out has no more commits than any shown, and then ten
      are shown. */
  ghost predicate TopTen(stats: seq<CommitStat>, scans: seq<Option<seq<string>>>) {
    && |stats| <= TopAuthors && SortedDesc(stats, CountKey)
    && (forall i, j :: 0 <= i < j < |stats| ==> stats[i].author != stats[j].author)
    && (forall i :: 0 <= i < |stats| ==> stats[i].count == AuthorTotal(stats[i].author, scans) >= 1)
    && (forall a :: AuthorTotal(a, scans) >= 1 && (forall i :: 0 <= i < |stats| ==> stats[i].author != a) ==>
          |stats| == TopAuthors && forall i :: 0 <= i < |stats| ==> stats[i].count >= AuthorTotal(a, scans))
  }

  /** The aggregation of `fetchCommitStats`: commits of the first ten
      repositories counted per author login, ranked, cut to ten. */
  method TopCommitAuthors(repos: seq<Repository>, commitsOf: string -> Result<seq<Commit>, Thrown>) returns (stats: seq<CommitStat>)
    ensures TopTen(stats, DesktopScans(repos, commitsOf))
  {
    ghost var all := DesktopScans(repos, commitsOf);
    var top := repos[..Min(TopRepos, |repos|)];
    var counts: map<string, nat> := map[];
    var order: seq<string> := [];
    var j := 0;
    while j < |top|
      invariant j <= |top|
      invariant Positive(counts) && InsertionOrder(counts, order)
      invariant forall a :: Get(counts, a) == AuthorTotal(a, all[..j])
    {
      assert all[..j + 1][..j] == all[..j];
      var outcome := commitsOf(top[j].fullName);
      if outcome.Success? {
        counts, order := CountLogins(counts, order, Logins(outcome.value, true, None));
      }
      j := j + 1;
    }
    assert all[..j] == all;
    stats := TopOfCounts(counts, order, all);
  }

  /** The ranking of the counted authors, cut to ten. */
  method TopOfCounts(counts: map<string, nat>, order: seq<string>, ghost scans: seq<Option<seq<string>>>) returns (stats: seq<CommitStat>)
    requires Positive(counts) && InsertionOrder(counts, order)
    requires forall a :: Get(counts, a) == AuthorTotal(a, scans)
    ensures TopTen(stats, scans)
  {
    var ranked := Rank(counts, order);
    var n := Min(TopAuthors, |ranked|);
    stats := ranked[..n];
    CutRankingIsTopTen(counts, ranked, n, scans);
  }

  /** The first ten of a ranking of the counts are the top ten. */
  lemma CutRankingIsTopTen(counts: map<string, nat>, ranked: seq<CommitStat>, n: nat, scans: seq<Option<seq<string>>>)
    requires forall a :: Get(counts, a) == AuthorTotal(a, scans)
    requires SortedDesc(ranked, CountKey)
    requires forall i, j :: 0 <= i < j < |ranked| ==> ranked[i].author != ranked[j].author
    requires forall i :: 0 <= i < |ranked| ==> ranked[i].count == Get(counts, ranked[i].author) >= 1
    requires forall a :: Get(counts, a) >= 1 ==> exists i :: 0 <= i < |ranked| && ranked[i].author == a
    requires n == Min(TopAuthors, |ranked|)
    ensures TopTen(ranked[..n], scans)
  {
    TopOfRanking(ranked, CountKey, n);
    var stats := ranked[..n];
    assert forall i :: 0 <= i < |stats| ==> stats[i] == ranked[i];
    forall a | AuthorTotal(a, scans) >= 1 && (forall i :: 0 <= i < |stats| ==> stats[i].author != a)
      ensures |stats| == TopAuthors && forall i :: 0 <= i < |stats| ==> stats[i].count >= AuthorTotal(a, scans)
    {
      LeftOutRanksBelow(counts, ranked, n, a);
    }
  }

  /** A counted author missing from the first `n` of the ranking comes
      after them: the cut was full and each shown count is at least its. */
  lemma LeftOutRanksBelow(counts: map<string, nat>, ranked: seq<CommitStat>, n: nat, a: string)
    requires SortedDesc(ranked, CountKey)
    requires forall i :: 0 <= i < |ranked| ==> ranked[i].count == Get(counts, ranked[i].author)
    requires forall a :: Get(counts, a) >= 1 ==> exists i :: 0 <= i < |ranked| && ranked[i].author == a
    requires n == Min(TopAuthors, |ranked|)
    requires Get(counts, a) >= 1 && forall i :: 0 <= i < n ==> ranked[i].author != a
    ensures n == TopAuthors && forall i :: 0 <= i < n ==> ranked[i].count >= Get(counts, a)
  {
    var k :| 0 <= k < |ranked| && ranked[k].author == a;
    assert k >= n;
  }

  class GitHubStore<Org, M, T> {
    var currentOrg: Option<string>
    var orgData: OrgData<Org, M, T>
    var isLoading: Loading
    var error: Option<string>

    /** `!currentOrg`: no organization, or the empty name. */
    predicate HasOrg()
      reads this
    {
      currentOrg.Some? && currentOrg.value != ""
    }

    constructor ()
      ensures currentOrg == None && orgData == NoData() && error == None
      ensures isLoading == Loading(false, false, false, false, false)
    {
      currentOrg := None;
      orgData := NoData();
      isLoading := Loading(false, false, false, false, false);
      error := None;
    }

    /** `setOrg`: a new organization with no data and no error; loading
        flags are left as they are. */
    method SetOrg(org: string)
      modifies this
      ensures currentOrg == Some(org) && orgData == NoData() && error == None
      ensures isLoading == old(isLoading)
    {
      currentOrg := Some(org);
      orgData := NoData();
      error := None;
    }

    /** The start of a fetch action: without an organization nothing
        changes and the action ends; otherwise its loading flag goes up,
        and `fetchOrgInfo` also clears the error. */
    method BeginFetch(section: Section) returns (started: bool)
      modifies this
      ensures started == old(HasOrg())
      ensures !started ==> isLoading == old(isLoading) && error == old(error)
      ensures started ==> isLoading == WithFlag(old(isLoading), section, true)
      ensures started ==> error == if section == InfoSection then None else old(error)
      ensures currentOrg == old(currentOrg) && orgData == old(orgData)
    {
      started := HasOrg();
      if !started {
        return;
      }
      isLoading := WithFlag(isLoading, section, true);
      if section == InfoSection {
        error := None;
      }
    }

    /** The end of `fetchOrgInfo`: the info on success, the error's message
        on failure; the flag comes down either way. */
    method FinishFetchOrgInfo(outcome: Result<Org, Thrown>)
      modifies this
      ensures isLoading == old(isLoading).(info := false) && currentOrg == old(currentOrg)
      ensures outcome.Success? ==> orgData == old(orgData).(info := Some(outcome.value)) && error == old(error)
      ensures outcome.Failure? ==> orgData == old(orgData) && error == Some(ErrorText(outcome.error, "Failed to fetch org info"))
    {
      match outcome {
        case Success(info) =>
          orgData := orgData.(info := Some(info));
        case Failure(t) =>
          error := Some(ErrorText(t, "Failed to fetch org info"));
      }
      isLoading := isLoading.(info := false);
    }

    /** The end of `fetchMembers`: the list on success; a failure is
        swallowed, leaving the data and the error as they were. */
    method FinishFetchMembers(outcome: Result<seq<M>, Thrown>)
      modifies this
      ensures isLoading == old(isLoading).(members := false) && currentOrg == old(currentOrg) && error == old(error)
      ensures orgData == if outcome.Success? then old(orgData).(members := outcome.value) else old(orgData)
    {
      if outcome.Success? {
        orgData := orgData.(members := outcome.value);
      }
      isLoading := isLoading.(members := false);
    }

    /** The end of `fetchTeams`, like `fetchMembers`. */
    method FinishFetchTeams(outcome: Result<seq<T>, Thrown>)
      modifies this
      ensures isLoading == old(isLoading).(teams := false) && currentOrg == old(currentOrg) && error == old(error)
      ensures orgData == if outcome.Success? then old(orgData).(teams := outcome.value) else old(orgData)
    {
      if outcome.Success? {
        orgData := orgData.(teams := outcome.value);
      }
      isLoading := isLoading.(teams := false);
    }

    /** The end of `fetchRepos`, like `fetchMembers`. */
    method FinishFetchRepos(outcome: Result<seq<Repository>, Thrown>)
      modifies this
      ensures isLoading == old(isLoading).(repos := false) && currentOrg == old(currentOrg) && error == old(error)
      ensures orgData == if outcome.Success? then old(orgData).(repos := outcome.value) else old(orgData)
    {
      if outcome.Success? {
        orgData := orgData.(repos := outcome.value);
      }
      isLoading := isLoading.(repos := false);
    }

    /** The end of `fetchCommitStats`. `captured` are the repositories the
        action read when it started; only when there were none is the
        repository list requested (`reposOutcome`), stored, and used. A
        failing repository request ends the action with only the flag
        down; otherwise the top ten authors of the first ten repositories
        (`commitsOf`) are stored. The error is never touched. */
    method FinishFetchCommitStats(captured: seq<Repository>, reposOutcome: Result<seq<Repository>, Thrown>,
                                  commitsOf: string -> Result<seq<Commit>, Thrown>)
      modifies this
      ensures isLoading == old(isLoading).(commits := false) && currentOrg == old(currentOrg) && error == old(error)
      ensures |captured| == 0 && reposOutcome.Failure? ==> orgData == old(orgData)
      ensures |captured| != 0 || reposOutcome.Success? ==>
        var repos := if |captured| == 0 then reposOutcome.value else captured;
        && TopTen(orgData.commitStats, DesktopScans(repos, commitsOf))
        && orgData == old(orgData).(repos := orgData.repos, commitStats := orgData.commitStats)
        && orgData.repos == if |captured| == 0 then repos else old(orgData.repos)
    {
      var repos := captured;
      if |repos| == 0 {
        if reposOutcome.Failure? {
          isLoading := isLoading.(commits := false);
          return;
        }
        repos := reposOutcome.value;
        orgData := orgData.(repos := repos);
      }
      var stats := TopCommitAuthors(repos, commitsOf);
      orgData := orgData.(commitStats := stats);
      isLoading := isLoading.(commits := false);
    }

    /** `fetchAll`: the four actions started in order, each up to its first
        request, then finished (here in the same order). Without an
        organization nothing changes; otherwise the four flags end down,
        the error is that of the info request or none, the repository list
        is stored when none was loaded and its request succeeded, and the
        commit stats stay as they were when that request failed. */
    method FetchAll(info: Result<Org, Thrown>, members: Result<seq<M>, Thrown>, teams: Result<seq<T>, Thrown>,
                    reposOutcome: Result<seq<Repository>, Thrown>, commitsOf: string -> Result<seq<Commit>, Thrown>)
      modifies this
      ensures currentOrg == old(currentOrg)
      ensures !old(HasOrg()) ==> isLoading == old(isLoading) && orgData == old(orgData) && error == old(error)
      ensures old(HasOrg()) ==>
        && isLoading == old(isLoading).(info := false, members := false, teams := false, commits := false)
        && error == (if info.Success? then None else Some(ErrorText(info.error, "Failed to fetch org info")))
        && orgData.info == (if info.Success? then Some(info.value) else old(orgData.info))
        && orgData.members == (if members.Success? then members.value else old(orgData.members))
        && orgData.teams == (if teams.Success? then teams.value else old(orgData.teams))
        && (|old(orgData.repos)| != 0 || reposOutcome.Success? ==>
              TopTen(orgData.commitStats, DesktopScans(if |old(orgData.repos)| == 0 then reposOutcome.value else old(orgData.repos), commitsOf)))
        && orgData.repos == (if |old(orgData.repos)| == 0 && reposOutcome.Success? then reposOutcome.value else old(orgData.repos))
        && (|old(orgData.repos)| == 0 && reposOutcome.Failure? ==> orgData.commitStats == old(orgData.commitStats))
    {
      var started := BeginFetch(InfoSection);
      if !started {
        return;
      }
      started := BeginFetch(MembersSection);
      started := BeginFetch(TeamsSection);
      started := BeginFetch(CommitsSection);
      var captured := orgData.repos;
      FinishFetchOrgInfo(info);
      FinishFetchMembers(members);
      FinishFetchTeams(teams);
      FinishFetchCommitStats(captured, reposOutcome, commitsOf);
    }
  }
}
