/** The web leaderboard: for a category's curated organizations, each
    organization's public details and star total are fetched, the ones that
    could not be fetched dropped, the rest scored and ranked; when none
    could be fetched the category's built-in list is shown instead.

    The two requests of each organization are oracles (a thrown request is
    a `Failure`), and so is the activity score, which the source computes
    in floating point. */
module Leaderboard {
  import opened Wrappers
  import opened GitHubErrors
  import opened GitHubClient
  import opened Ranking
  import CommitStats

  datatype Category = DeveloperFavorites | Frameworks | Databases | RisingStars

  datatype OrgStats = OrgStats(name: string, avatarUrl: string, description: Option<string>,
                               repos: int, followers: int, stars: int, activityScore: int)

  /** The fields of `/orgs/{org}` that are read; None is a missing field. */
  datatype OrgJson = OrgJson(login: string, avatarUrl: string, description: Option<string>,
                             publicRepos: Option<int>, followers: Option<int>)

  /** One element of `/orgs/{org}/repos`. */
  datatype RepoJson = RepoJson(stargazersCount: Option<int>)

  /** The body of `/orgs/{org}/repos`: an array, or something else. */
  type ReposJson = Option<seq<RepoJson>>

  const DefaultConcurrency := 5

  /** The curated organizations of each category. */
  function CategoryOrgs(c: Category): seq<string> {
    match c
    case DeveloperFavorites =>
      ["vercel", "supabase", "tailwindlabs", "prisma", "trpc", "oven-sh", "denoland", "biomejs", "withastro", "sveltejs"]
    case Frameworks =>
      ["vercel", "remix-run", "withastro", "sveltejs", "nuxt", "solidjs", "honojs", "elysiajs", "angular", "vuejs"]
    case Databases =>
      ["supabase", "planetscale", "drizzle-team", "prisma", "neondatabase", "turso-tech", "edgedb", "surrealdb", "cockroachdb", "timescale"]
    case RisingStars =>
      ["oven-sh", "biomejs", "drizzle-team", "honojs", "elysiajs", "lucia-auth", "unjs", "effect-ts", "tinylibs", "millionjs"]
  }

  /** Every category lists ten organizations, none twice. */
  lemma CategoriesHaveTenDistinctOrgs(c: Category)
    ensures |CategoryOrgs(c)| == 10 && NoDuplicates(CategoryOrgs(c))
  {
    match c
    case DeveloperFavorites => FavoritesAreTenDistinct();
    case Frameworks => FrameworksAreTenDistinct();
    case Databases => DatabasesAreTenDistinct();
    case RisingStars => RisingStarsAreTenDistinct();
  }

  lemma FavoritesAreTenDistinct()
    ensures |CategoryOrgs(DeveloperFavorites)| == 10 && NoDuplicates(CategoryOrgs(DeveloperFavorites))
  {
  }

  lemma FrameworksAreTenDistinct()
    ensures |CategoryOrgs(Frameworks)| == 10 && NoDuplicates(CategoryOrgs(Frameworks))
  {
  }

  lemma DatabasesAreTenDistinct()
    ensures |CategoryOrgs(Databases)| == 10 && NoDuplicates(CategoryOrgs(Databases))
  {
  }

  lemma RisingStarsAreTenDistinct()
    ensures |CategoryOrgs(RisingStars)| == 10 && NoDuplicates(CategoryOrgs(RisingStars))
  {
  }

  /** The request headers: an Authorization header only with a non-empty
      token. */
  function WebHeaders(token: Option<string>): (h: seq<(string, string)>)
    ensures |h| >= 2 && h[0].0 == "Accept" && h[1].0 == "User-Agent"
    ensures token.Some? && token.value != "" ==> |h| == 3 && h[2] == ("Authorization", "Bearer " + token.value)
    ensures token.None? || token.value == "" ==> |h| == 2
  {
    var base := [("Accept", "application/vnd.github+json"), ("User-Agent", "Specto-Web/1.0")];
    if token.Some? && token.value != "" then base + [("Authorization", "Bearer " + token.value)] else base
  }

  /** `x || 0` for a number that may be missing. */
  function OrZero(x: Option<int>): int {
    if x.Some? then x.value else 0
  }

  /** `repos.reduce((sum, r) => sum + (r.stargazers_count || 0), 0)`. */
  function StarSum(repos: seq<RepoJson>): int {
    if repos == [] then 0 else StarSum(repos[..|repos| - 1]) + OrZero(repos[|repos| - 1].stargazersCount)
  }

  /** The sum splits over concatenation, so a repository without a count
      adds nothing wherever it is. */
  lemma {:induction false} StarSumAppend(a: seq<RepoJson>, b: seq<RepoJson>)
    ensures StarSum(a + b) == StarSum(a) + StarSum(b)
    decreases |b|
  {
    if b != [] {
      var b' := b[..|b| - 1];
      assert (a + b)[..|a + b| - 1] == a + b';
      assert (a + b)[|a + b| - 1] == b[|b| - 1];
      StarSumAppend(a, b');
    } else {
      assert a + b == a;
    }
  }

  /** With non-negative counts every repository's stars are part of the sum. */
  lemma {:induction false} StarSumCoversEachRepo(repos: seq<RepoJson>, i: nat)
    requires i < |repos| && forall k :: 0 <= k < |repos| ==> OrZero(repos[k].stargazersCount) >= 0
    ensures StarSum(repos) >= OrZero(repos[i].stargazersCount) >= 0
    decreases |repos|
  {
    var init := repos[..|repos| - 1];
    if i < |repos| - 1 {
      StarSumCoversEachRepo(init, i);
    }
    if init != [] {
      StarSumNonNegative(init);
    }
  }

  lemma {:induction false} StarSumNonNegative(repos: seq<RepoJson>)
    requires forall k :: 0 <= k < |repos| ==> OrZero(repos[k].stargazersCount) >= 0
    ensures StarSum(repos) >= 0
    decreases |repos|
  {
    if repos != [] {
      StarSumNonNegative(repos[..|repos| - 1]);
    }
  }

  /** `fetchOrgDetails`: null when a request threw, when the organization
      request was refused (403, 429) or otherwise failed; otherwise the
      organization's details, with the star total of its repository list
      (0 when that request failed or did not return an array), missing
      counts as 0 and the score still 0. */
  function FetchOrgDetails(org: Result<HttpResponse<OrgJson>, Thrown>, repos: Result<HttpResponse<ReposJson>, Thrown>): (r: Option<OrgStats>)
    ensures r.Some? <==> org.Success? && org.value.status != 403 && org.value.status != 429 && org.value.Ok() && repos.Success?
    ensures r.Some? ==>
      var o := org.value.json;
      && r.value.name == o.login && r.value.avatarUrl == o.avatarUrl && r.value.description == o.description
      && r.value.repos == OrZero(o.publicRepos) && r.value.followers == OrZero(o.followers)
      && r.value.stars == (if repos.value.Ok() && repos.value.json.Some? then StarSum(repos.value.json.value) else 0)
      && r.value.activityScore == 0
  {
    if org.Failure? then None
    else if org.value.status == 403 || org.value.status == 429 then None
    else if !org.value.Ok() then None
    else if repos.Failure? then None
    else
      var o := org.value.json;
      var stars := if repos.value.Ok() && repos.value.json.Some? then StarSum(repos.value.json.value) else 0;
      Some(OrgStats(o.login, o.avatarUrl, o.description, OrZero(o.publicRepos), OrZero(o.followers), stars, 0))
  }

  /** `parallelFetch`: slices of `concurrency` (default 5), one result per
      item in item order. */
  method ParallelFetch<T, R>(items: seq<T>, fetcher: T -> R, concurrency: Option<int>) returns (results: seq<R>)
    requires concurrency.GetOr(DefaultConcurrency) >= 1
    ensures |results| == |items| && forall i :: 0 <= i < |items| ==> results[i] == fetcher(items[i])
  {
    ghost var batches;
    results, batches := CommitStats.ProcessInBatches(items, fetcher, concurrency.GetOr(DefaultConcurrency));
  }

  /** `results.filter(o => o !== null)`. */
  function Present(results: seq<Option<OrgStats>>): (r: seq<OrgStats>)
    ensures |r| <= |results|
    ensures forall x :: x in r <==> Some(x) in results
  {
    if results == [] then []
    else
      var rest := Present(results[..|results| - 1]);
      assert results == results[..|results| - 1] + [results[|results| - 1]];
      if results[|results| - 1].Some? then rest + [results[|results| - 1].value] else rest
  }

  function ActivityKey(o: OrgStats): int {
    o.activityScore
  }

  /** `calculateScores`, with `score(org, orgs)` the rounded score of `org`
      among `orgs`: every organization keeps its fields but the score. */
  function Scored(orgs: seq<OrgStats>, score: (OrgStats, seq<OrgStats>) -> int): (r: seq<OrgStats>)
    ensures |r| == |orgs| && forall i :: 0 <= i < |orgs| ==> r[i] == orgs[i].(activityScore := score(orgs[i], orgs))
  {
    seq(|orgs|, i requires 0 <= i < |orgs| => orgs[i].(activityScore := score(orgs[i], orgs)))
  }

  /** `validResults.length === 0`, the test for the fallback list, holds
      exactly when every fetch came back `null`. */
  lemma {:induction false} NoneValidIffAllFailed(results: seq<Option<OrgStats>>)
    ensures |Present(results)| == 0 <==> forall i :: 0 <= i < |results| ==> results[i].None?
  {
    var valid := Present(results);
    if |valid| > 0 {
      assert Some(valid[0]) in results;
    }
  }

  /** `fetchLeaderboardData`: the category's organizations fetched five at
      a time; the fallback list when none came back, otherwise those that
      did, scored and ranked by score. The `try`/`catch` around it has nothing to
      catch here: `fetchOrgDetails` catches every failure itself. */
  method FetchLeaderboardData(category: Category, orgOf: string -> Result<HttpResponse<OrgJson>, Thrown>,
                              reposOf: string -> Result<HttpResponse<ReposJson>, Thrown>,
                              score: (OrgStats, seq<OrgStats>) -> int)
    returns (r: seq<OrgStats>)
    ensures |Present(Details(category, orgOf, reposOf))| == 0 ==> r == Fallback(category)
    ensures |Present(Details(category, orgOf, reposOf))| > 0 ==> r == SortDesc(Scored(Present(Details(category, orgOf, reposOf)), score), ActivityKey)
  {
    var results := FetchEach(CategoryOrgs(category), orgOf, reposOf);
    assert results == Details(category, orgOf, reposOf);
    var valid := Present(results);
    if |valid| == 0 {
      return Fallback(category);
    }
    r := SortDesc(Scored(valid, score), ActivityKey);
  }

  /** What `fetchOrgDetails` makes of each of the category's
      organizations, in the category's order. */
  function Details(category: Category, orgOf: string -> Result<HttpResponse<OrgJson>, Thrown>,
                   reposOf: string -> Result<HttpResponse<ReposJson>, Thrown>): seq<Option<OrgStats>> {
    var logins := CategoryOrgs(category);
    seq(|logins|, i requires 0 <= i < |logins| => FetchOrgDetails(orgOf(logins[i]), reposOf(logins[i])))
  }

  /** `parallelFetch(orgs, fetchOrgDetails, 5)`: the details of each login,
      in the order of the logins. */
  method FetchEach(logins: seq<string>, orgOf: string -> Result<HttpResponse<OrgJson>, Thrown>,
                   reposOf: string -> Result<HttpResponse<ReposJson>, Thrown>)
    returns (results: seq<Option<OrgStats>>)
    ensures |results| == |logins|
    ensures forall i :: 0 <= i < |logins| ==> results[i] == FetchOrgDetails(orgOf(logins[i]), reposOf(logins[i]))
  {
    results := ParallelFetch(logins, login => FetchOrgDetails(orgOf(login), reposOf(login)), Some(DefaultConcurrency));
  }

  /** The built-in list of a category. */
  function Fallback(c: Category): seq<OrgStats> {
    match c
    case DeveloperFavorites => FavoritesFallback(c)
    case Frameworks => FrameworksFallback(c)
    case Databases => DatabasesFallback(c)
    case RisingStars => RisingStarsFallback(c)
  }

  /** The fallback list of each category; each is defined for its own
      category only. */
  function FavoritesFallback(c: Category): seq<OrgStats> requires c == DeveloperFavorites {
    [
      OrgStats("tailwindlabs", "https://avatars.githubusercontent.com/u/67109815", Some("Creators of Tailwind CSS"), 35, 12400, 180000, 100),
      OrgStats("vercel", "https://avatars.githubusercontent.com/u/14985020", Some("Develop. Preview. Ship."), 156, 8900, 150000, 92),
      OrgStats("supabase", "https://avatars.githubusercontent.com/u/54469796", Some("The open source Firebase alternative"), 89, 5600, 85000, 85),
      OrgStats("oven-sh", "https://avatars.githubusercontent.com/u/108928776", Some("Bun — a fast all-in-one JavaScript runtime"), 12, 3200, 72000, 78),
      OrgStats("prisma", "https://avatars.githubusercontent.com/u/17219288", Some("Next-generation ORM for Node.js and TypeScript"), 78, 4100, 45000, 71)
    ]
  }

  function FrameworksFallback(c: Category): seq<OrgStats> requires c == Frameworks {
    [
      OrgStats("sveltejs", "https://avatars.githubusercontent.com/u/23617963", Some("Cybernetically enhanced web apps"), 45, 7200, 95000, 100),
      OrgStats("vercel", "https://avatars.githubusercontent.com/u/14985020", Some("Develop. Preview. Ship."), 156, 8900, 150000, 95),
      OrgStats("withastro", "https://avatars.githubusercontent.com/u/44914786", Some("The web framework for content-driven websites"), 52, 2800, 48000, 88),
      OrgStats("remix-run", "https://avatars.githubusercontent.com/u/64235328", Some("Build Better Websites"), 34, 2100, 32000, 82),
      OrgStats("solidjs", "https://avatars.githubusercontent.com/u/79226042", Some("A declarative, efficient, and flexible JavaScript library"), 28, 1500, 35000, 76)
    ]
  }

  function DatabasesFallback(c: Category): seq<OrgStats> requires c == Databases {
    [
      OrgStats("supabase", "https://avatars.githubusercontent.com/u/54469796", Some("The open source Firebase alternative"), 89, 5600, 85000, 100),
      OrgStats("drizzle-team", "https://avatars.githubusercontent.com/u/108468352", Some("TypeScript ORM that feels like writing SQL"), 15, 1800, 28000, 92),
      OrgStats("prisma", "https://avatars.githubusercontent.com/u/17219288", Some("Next-generation ORM for Node.js and TypeScript"), 78, 4100, 45000, 85),
      OrgStats("neondatabase", "https://avatars.githubusercontent.com/u/77690634", Some("Serverless Postgres"), 42, 1200, 18000, 78),
      OrgStats("turso-tech", "https://avatars.githubusercontent.com/u/139192399", Some("SQLite for Production"), 28, 800, 12000, 71)
    ]
  }

  function RisingStarsFallback(c: Category): seq<OrgStats> requires c == RisingStars {
    [
      OrgStats("oven-sh", "https://avatars.githubusercontent.com/u/108928776", Some("Bun — a fast all-in-one JavaScript runtime"), 12, 3200, 72000, 100),
      OrgStats("biomejs", "https://avatars.githubusercontent.com/u/140182857", Some("One toolchain for your web project"), 8, 1500, 16000, 95),
      OrgStats("drizzle-team", "https://avatars.githubusercontent.com/u/108468352", Some("TypeScript ORM that feels like writing SQL"), 15, 1800, 28000, 88),
      OrgStats("honojs", "https://avatars.githubusercontent.com/u/98495527", Some("Ultrafast web framework for the Edges"), 24, 1100, 22000, 82),
      OrgStats("effect-ts", "https://avatars.githubusercontent.com/u/132182030", Some("A powerful TypeScript framework"), 18, 600, 8500, 75)
    ]
  }

  /** Every fallback list has five organizations, already ranked by score,
      the first with the top score of 100 (one lemma per category). */
  lemma FavoritesFallbackRanked()
    ensures |Fallback(DeveloperFavorites)| == 5 && SortedDesc(Fallback(DeveloperFavorites), ActivityKey) && Fallback(DeveloperFavorites)[0].activityScore == 100
  {
    ScoresRanked(Fallback(DeveloperFavorites));
  }

  lemma FrameworksFallbackRanked()
    ensures |Fallback(Frameworks)| == 5 && SortedDesc(Fallback(Frameworks), ActivityKey) && Fallback(Frameworks)[0].activityScore == 100
  {
    ScoresRanked(Fallback(Frameworks));
  }

  lemma DatabasesFallbackRanked()
    ensures |Fallback(Databases)| == 5 && SortedDesc(Fallback(Databases), ActivityKey) && Fallback(Databases)[0].activityScore == 100
  {
    ScoresRanked(Fallback(Databases));
  }

  lemma RisingStarsFallbackRanked()
    ensures |Fallback(RisingStars)| == 5 && SortedDesc(Fallback(RisingStars), ActivityKey) && Fallback(RisingStars)[0].activityScore == 100
  {
    ScoresRanked(Fallback(RisingStars));
  }

  /** A five-entry list ranked by score, read off its scores. */
  lemma ScoresRanked(s: seq<OrgStats>)
    requires |s| == 5
    requires s[0].activityScore >= s[1].activityScore >= s[2].activityScore >= s[3].activityScore >= s[4].activityScore
    ensures SortedDesc(s, ActivityKey)
  {
  }
}
