/** `stats commits`: the commits of every repository of an organization in
    a date range, counted per author and ranked.

    The organization's member and repository lists are the outcomes of
    their `collectPaginated` calls; each repository's commits are a page
    list read through `paginate`. The repositories of a chunk run in
    parallel in the source; here they run one after the other in input
    order, which changes nothing that is counted. */
module CommitStats {
  import opened Wrappers
  import opened GitHubErrors
  import opened GitHubClient
  import opened Ranking

  const Concurrency := 10

  datatype CommitAuthor = CommitAuthor(login: Option<string>, kind: string)
  /** A commit; `author` is null for commits GitHub cannot tie to an account. */
  datatype Commit = Commit(author: Option<CommitAuthor>)
  datatype Repository = Repository(name: string, fullName: string)
  datatype Member = Member(login: string)
  datatype CommitStat = CommitStat(author: string, count: int)

  // ---------------------------------------------------------------------
  // processReposInBatches

  /** The batches, one after the other. */
  function Flatten<T>(batches: seq<seq<T>>): seq<T> {
    if batches == [] then [] else Flatten(batches[..|batches| - 1]) + batches[|batches| - 1]
  }

  function Min(a: int, b: int): int {
    if a <= b then a else b
  }

  /** `processReposInBatches`: the items in consecutive batches of
      `concurrency`, the results of each batch appended in item order.
      `batches` are the slices handed to `Promise.all`. */
  method ProcessInBatches<T, R>(items: seq<T>, processor: T -> R, concurrency: int)
    returns (results: seq<R>, ghost batches: seq<seq<T>>)
    requires concurrency >= 1
    ensures |results| == |items| && forall i :: 0 <= i < |items| ==> results[i] == processor(items[i])
    ensures Flatten(batches) == items
    ensures forall b :: 0 <= b < |batches| ==> 1 <= |batches[b]| <= concurrency
    ensures forall b :: 0 <= b < |batches| - 1 ==> |batches[b]| == concurrency
  {
    results := [];
    batches := [];
    var i := 0;
    while i < |items|
      invariant 0 <= i <= |items| && |results| == i
      invariant forall k :: 0 <= k < i ==> results[k] == processor(items[k])
      invariant Flatten(batches) == items[..i]
      invariant forall b :: 0 <= b < |batches| ==> 1 <= |batches[b]| <= concurrency
      invariant forall b :: 0 <= b < |batches| - 1 ==> |batches[b]| == concurrency
      invariant i < |items| && batches != [] ==> |batches[|batches| - 1]| == concurrency
    {
      var batch := items[i..Min(i + concurrency, |items|)];
      var batchResults := seq(|batch|, k requires 0 <= k < |batch| => processor(batch[k]));
      results := results + batchResults;
      batches := batches + [batch];
      assert Flatten(batches) == items[..i] + batch;
      assert items[..i] + batch == items[..i + |batch|];
      i := i + |batch|;
    }
    assert items[..i] == items;
  }

  // ---------------------------------------------------------------------
  // getCommitStats

  /** A commit counts when it has an author login (an empty one is falsy),
      is not by a bot unless bots are included, and, with a member set, is
      by a member. */
  predicate Qualifies(c: Commit, includeBots: bool, members: Option<set<string>>) {
    && c.author.Some? && c.author.value.login.Some? && c.author.value.login.value != ""
    && (includeBots || c.author.value.kind != "Bot")
    && (members.Some? ==> c.author.value.login.value in members.value)
  }

  /** The logins of the qualifying commits, in order. */
  function Logins(commits: seq<Commit>, includeBots: bool, members: Option<set<string>>): (r: seq<string>)
    ensures |r| <= |commits|
  {
    if commits == [] then []
    else
      var last := commits[|commits| - 1];
      var rest := Logins(commits[..|commits| - 1], includeBots, members);
      if Qualifies(last, includeBots, members) then rest + [last.author.value.login.value] else rest
  }

  /** What one repository contributes: the logins of its qualifying commits
      when reading every page succeeded, nothing when a page failed (the
      commits read before the failure are dropped with it). */
  function RepoLogins(pages: seq<Result<seq<Commit>, Error>>, includeBots: bool, members: Option<set<string>>): Option<seq<string>> {
    var run := PaginateFrom(pages, DefaultPerPage, None, 1);
    if run.err.None? then Some(Logins(run.items, includeBots, members)) else None
  }

  /** The number of times `a` occurs in `s`. */
  function Occurrences(a: string, s: seq<string>): nat {
    if s == [] then 0 else Occurrences(a, s[..|s| - 1]) + (if s[|s| - 1] == a then 1 else 0)
  }

  /** The count of `a` over the repositories scanned so far. */
  function AuthorTotal(a: string, scans: seq<Option<seq<string>>>): nat {
    if scans == [] then 0
    else
      var last := scans[|scans| - 1];
      AuthorTotal(a, scans[..|scans| - 1]) + (if last.Some? then Occurrences(a, last.value) else 0)
  }

  /** `commitsByAuthor.get(a) ?? 0`. */
  function Get(m: map<string, nat>, a: string): nat {
    if a in m then m[a] else 0
  }

  /** Every key was counted at least once. */
  predicate Positive(m: map<string, nat>) {
    forall a :: a in m ==> m[a] >= 1
  }

  /** `order` is the map's insertion order: its keys, each once. */
  ghost predicate InsertionOrder(m: map<string, nat>, order: seq<string>) {
    NoDuplicates(order) && (forall a :: a in order <==> a in m)
  }

  /** The `for await` loop over one repository's commits: the logins of the
      commits that pass the filters, or None when iterating threw. */
  method ScanRepo(pages: seq<Result<seq<Commit>, Error>>, since: string, until: string, includeBots: bool, members: Option<set<string>>)
    returns (logins: Option<seq<string>>)
    ensures logins == RepoLogins(pages, includeBots, members)
  {
    var items, _, err := Paginate(pages, [("since", Some(Str(since))), ("until", Some(Str(until))), ("author", None)], None, None);
    var kept: seq<string> := [];
    var i := 0;
    while i < |items|
      invariant 0 <= i <= |items| && kept == Logins(items[..i], includeBots, members)
    {
      assert items[..i + 1][..i] == items[..i];
      if Qualifies(items[i], includeBots, members) {
        kept := kept + [items[i].author.value.login.value];
      }
      i := i + 1;
    }
    assert items[..i] == items;
    if err.Some? {
      return None;
    }
    logins := Some(kept);
  }

  /** The counting loop: one more for each login, a new author inserted at
      the end of the map's order. */
  method CountLogins(counts: map<string, nat>, order: seq<string>, logins: seq<string>)
    returns (counts': map<string, nat>, order': seq<string>)
    requires Positive(counts) && InsertionOrder(counts, order)
    ensures Positive(counts') && InsertionOrder(counts', order')
    ensures forall a :: Get(counts', a) == Get(counts, a) + Occurrences(a, logins)
  {
    counts', order' := counts, order;
    var i := 0;
    while i < |logins|
      invariant 0 <= i <= |logins|
      invariant Positive(counts') && InsertionOrder(counts', order')
      invariant forall a :: Get(counts', a) == Get(counts, a) + Occurrences(a, logins[..i])
    {
      var login := logins[i];
      assert logins[..i + 1][..i] == logins[..i];
      if login !in counts' {
        order' := order' + [login];
      }
      counts' := counts'[login := Get(counts', login) + 1];
      i := i + 1;
    }
    assert logins[..i] == logins;
  }

  function CountKey(s: CommitStat): int {
    s.count
  }

  /** The map's entries as `{author, count}` records, ranked by count:
      one record per author, each with that author's count. */
  method Rank(counts: map<string, nat>, order: seq<string>) returns (ranked: seq<CommitStat>)
    requires Positive(counts) && InsertionOrder(counts, order)
    ensures SortedDesc(ranked, CountKey)
    ensures forall i, j :: 0 <= i < j < |ranked| ==> ranked[i].author != ranked[j].author
    ensures forall i :: 0 <= i < |ranked| ==> ranked[i].count == Get(counts, ranked[i].author) >= 1
    ensures forall a :: Get(counts, a) >= 1 ==> exists i :: 0 <= i < |ranked| && ranked[i].author == a
  {
    var entries := seq(|order|, i requires 0 <= i < |order| => CommitStat(order[i], counts[order[i]]));
    EntriesOfCounts(counts, order, entries);
    SortKeepsDistinct(entries, CountKey);
    ranked := SortDesc(entries, CountKey);
    SameEntries(counts, entries, ranked);
  }

  /** One record per key of the map, in insertion order, each with its
      count. */
  lemma EntriesOfCounts(counts: map<string, nat>, order: seq<string>, entries: seq<CommitStat>)
    requires Positive(counts) && InsertionOrder(counts, order)
    requires |entries| == |order| && forall i :: 0 <= i < |order| ==> entries[i] == CommitStat(order[i], counts[order[i]])
    ensures NoDuplicates(entries)
    ensures forall i, j :: 0 <= i < j < |entries| ==> entries[i].author != entries[j].author
    ensures forall x :: x in entries ==> x.count == Get(counts, x.author) >= 1
    ensures forall a :: Get(counts, a) >= 1 ==> exists i :: 0 <= i < |entries| && entries[i].author == a
  {
    forall a | Get(counts, a) >= 1
      ensures exists i :: 0 <= i < |entries| && entries[i].author == a
    {
      assert a in order;
      var k :| 0 <= k < |order| && order[k] == a;
      assert entries[k].author == a;
    }
  }

  /** A reordering without repetitions of such records has the same
      properties. */
  lemma SameEntries(counts: map<string, nat>, entries: seq<CommitStat>, ranked: seq<CommitStat>)
    requires forall y :: y in ranked <==> y in entries
    requires NoDuplicates(ranked)
    requires forall x :: x in entries ==> x.count == Get(counts, x.author) >= 1
    requires forall a :: Get(counts, a) >= 1 ==> exists i :: 0 <= i < |entries| && entries[i].author == a
    ensures forall i, j :: 0 <= i < j < |ranked| ==> ranked[i].author != ranked[j].author
    ensures forall i :: 0 <= i < |ranked| ==> ranked[i].count == Get(counts, ranked[i].author) >= 1
    ensures forall a :: Get(counts, a) >= 1 ==> exists i :: 0 <= i < |ranked| && ranked[i].author == a
  {
    forall a | Get(counts, a) >= 1
      ensures exists i :: 0 <= i < |ranked| && ranked[i].author == a
    {
      var k :| 0 <= k < |entries| && entries[k].author == a;
      assert entries[k] in ranked;
    }
    forall i, j | 0 <= i < j < |ranked|
      ensures ranked[i].author != ranked[j].author
    {
      assert ranked[i] in entries && ranked[j] in entries;
      assert ranked[i] != ranked[j];
    }
    forall i | 0 <= i < |ranked|
      ensures ranked[i].count == Get(counts, ranked[i].author) >= 1
    {
      assert ranked[i] in entries;
    }
  }

  /** The scans of all repositories, in input order. */
  function Scans(repos: seq<Repository>, pagesOf: string -> seq<Result<seq<Commit>, Error>>, includeBots: bool, members: Option<set<string>>): (r: seq<Option<seq<string>>>)
    ensures |r| == |repos|
    ensures forall j :: 0 <= j < |repos| ==> r[j] == RepoLogins(pagesOf(repos[j].fullName), includeBots, members)
  {
    seq(|repos|, j requires 0 <= j < |repos| => RepoLogins(pagesOf(repos[j].fullName), includeBots, members))
  }

  /** The member logins the filter uses, when `membersOnly`. */
  function MemberSet(members: seq<Member>): set<string> {
    set m | m in members :: m.login
  }

  /** `getCommitStats`. `members` is the outcome of listing the members,
      consulted only with `membersOnly`; `repos` that of listing the
      repositories; `pagesOf(fullName)` a repository's commit pages.
      On success the result has one entry per author with at least one
      counted commit, carrying that author's count over every repository
      whose iteration completed, ranked by count; `processed` is the
      number of repositories handled. */
  method GetCommitStats(members: Result<seq<Member>, Error>, repos: Result<seq<Repository>, Error>,
                        pagesOf: string -> seq<Result<seq<Commit>, Error>>,
                        since: string, until: string, membersOnly: bool, includeBots: bool)
    returns (r: Result<seq<CommitStat>, Error>, processed: nat)
    ensures membersOnly && members.Failure? ==> r == Failure(members.error) && processed == 0
    ensures (!membersOnly || members.Success?) && repos.Failure? ==> r == Failure(repos.error) && processed == 0
    ensures r.Success? <==> (!membersOnly || members.Success?) && repos.Success?
    ensures r.Success? ==>
      var filter := if membersOnly then Some(MemberSet(members.value)) else None;
      var scans := Scans(repos.value, pagesOf, includeBots, filter);
      && processed == |repos.value|
      && SortedDesc(r.value, CountKey)
      && (forall i, j :: 0 <= i < j < |r.value| ==> r.value[i].author != r.value[j].author)
      && (forall i :: 0 <= i < |r.value| ==> r.value[i].count == AuthorTotal(r.value[i].author, scans) >= 1)
      && (forall a :: AuthorTotal(a, scans) >= 1 ==> exists i :: 0 <= i < |r.value| && r.value[i].author == a)
  {
    var filter: Option<set<string>> := None;
    if membersOnly {
      if members.Failure? {
        return Failure(members.error), 0;
      }
      filter := Some(MemberSet(members.value));
    }
    if repos.Failure? {
      return Failure(repos.error), 0;
    }
    var rs := repos.value;
    ghost var all := Scans(rs, pagesOf, includeBots, filter);
    var counts: map<string, nat> := map[];
    var order: seq<string> := [];
    processed := 0;
    while processed < |rs|
      invariant processed <= |rs|
      invariant Positive(counts) && InsertionOrder(counts, order)
      invariant forall a :: Get(counts, a) == AuthorTotal(a, all[..processed])
    {
      var logins := ScanRepo(pagesOf(rs[processed].fullName), since, until, includeBots, filter);
      assert all[..processed + 1][..processed] == all[..processed];
      if logins.Some? {
        counts, order := CountLogins(counts, order, logins.value);
      }
      processed := processed + 1;
    }
    assert all[..processed] == all;
    var ranked := Rank(counts, order);
    r := Success(ranked);
  }

  // ---------------------------------------------------------------------
  // runCommitStats

  /** What `runCommitStats` prints: the no-commits message alone, or the
      table rows, the total line and, possibly, the "Showing top" line. */
  datatype CommitReport =
    | NoCommits
    | Report(rows: seq<CommitStat>, total: int, contributors: nat, showingTop: Option<int>)

  function SumCounts(stats: seq<CommitStat>): int {
    if stats == [] then 0 else SumCounts(stats[..|stats| - 1]) + stats[|stats| - 1].count
  }

  /** `s.slice(0, end)`: a negative end counts from the back. */
  function SliceTo<T>(s: seq<T>, end: int): (r: seq<T>)
    ensures |r| <= |s| && r == s[..|r|]
  {
    if end >= |s| then s
    else if end >= 0 then s[..end]
    else if |s| + end >= 0 then s[..|s| + end]
    else []
  }

  /** `runCommitStats` after the stats are in; `top` is the parsed `--top`
      value, None when it was absent or not a number (both falsy, as is 0). */
  function RunCommitStats(stats: seq<CommitStat>, top: Option<int>): (r: CommitReport)
    ensures r.NoCommits? <==> stats == []
    ensures r.Report? ==> r.total == SumCounts(stats) && r.contributors == |stats|
    ensures r.Report? && (top.None? || top.value == 0) ==> r.rows == stats && r.showingTop.None?
    ensures r.Report? && top.Some? && top.value > 0 ==>
      && r.rows == stats[..Min(top.value, |stats|)]
      && (r.showingTop.Some? <==> |r.rows| < |stats|)
      && (r.showingTop.Some? ==> r.showingTop.value == top.value)
    ensures r.Report? && top.Some? && top.value < 0 ==>
      && r.rows == stats[..if |stats| + top.value >= 0 then |stats| + top.value else 0]
      && r.showingTop == top
  {
    if stats == [] then NoCommits
    else
      var truthy := top.Some? && top.value != 0;
      var rows := if truthy then SliceTo(stats, top.value) else stats;
      Report(rows, SumCounts(stats), |stats|, if truthy && |stats| > top.value then top else None)
  }

  /** With non-negative counts, the total covers at least the rows shown. */
  lemma {:induction false} TotalCoversShownRows(stats: seq<CommitStat>, n: nat)
    requires n <= |stats| && forall i :: 0 <= i < |stats| ==> stats[i].count >= 0
    ensures SumCounts(stats[..n]) <= SumCounts(stats)
    decreases |stats|
  {
    if n < |stats| {
      var init := stats[..|stats| - 1];
      assert init[..n] == stats[..n];
      TotalCoversShownRows(init, n);
    } else {
      assert stats[..n] == stats;
    }
  }
}
