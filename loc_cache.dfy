/**
 * Lines of code with a cache: fetch_loc_for_repo adds up the additions and deletions of the
 * commits a user authored in one repository, page after page of its history, and
 * fetch_loc_with_cache walks the user's repositories, reusing the cached figures of every
 * repository whose commit count has not changed and recomputing (and re-caching) the rest.
 *
 * The GraphQL answers are parameters: the pages of commit edges the API returns for a
 * repository, `history(owner, name)`, and the repository list and user id it returned.
 */
module LocCache {
  import opened Wrappers
  import opened Text

  /** One commit of a history page: its additions, deletions and the id of its author's user, if any. */
  datatype Edge = Edge(additions: int, deletions: int, authorId: Option<string>)

  /** A repository as fetch_repos_with_commits lists it. */
  datatype Repo = Repo(name: string, isFork: bool, commitCount: int)

  /** A cache entry as loaded from JSON: every field may be missing. */
  datatype Entry = Entry(commitCount: Option<int>, additions: Option<int>, deletions: Option<int>,
                         myCommits: Option<int>)

  /** What fetch_loc_for_repo returns. */
  datatype Tally = Tally(additions: int, deletions: int, myCommits: nat)

  /** The state of the reconciliation loop: the cache and the four counters. */
  datatype Run = Run(cache: map<string, Entry>, totalAdditions: int, totalDeletions: int, hits: nat, misses: nat)

  /**
   * How fetch_loc_with_cache ends: without a token or user id it returns (0, 0) before
   * touching the cache; a repository name without exactly one '/' raises before the cache
   * is saved; otherwise the cache is saved and the totals returned.
   */
  datatype Outcome = Skipped | Crashed(name: string) | Saved(run: Run)

  // ---------------------------------------------------------------------------------------
  // fetch_loc_for_repo

  /** All the edges of the pages, in order. */
  function Flatten(pages: seq<seq<Edge>>): seq<Edge>
  {
    if |pages| == 0 then [] else Flatten(pages[..|pages| - 1]) + pages[|pages| - 1]
  }

  /** The edge counted or not, as the body of the edge loop does. */
  function Counted(t: Tally, e: Edge, userId: string): Tally
  {
    if e.authorId == Some(userId) then Tally(t.additions + e.additions, t.deletions + e.deletions, t.myCommits + 1)
    else t
  }

  /** The tally of the edges, counting only those whose author's user id is userId. */
  function Authored(edges: seq<Edge>, userId: string): Tally
  {
    if |edges| == 0 then Tally(0, 0, 0)
    else Counted(Authored(edges[..|edges| - 1], userId), edges[|edges| - 1], userId)
  }

  /**
   * fetch_loc_for_repo with its recursion over pages written as the outer loop, and the
   * accumulators it passes along as the loop's variables.
   */
  method FetchLocForRepo(pages: seq<seq<Edge>>, userId: string) returns (additions: int, deletions: int, myCommits: nat)
    ensures Tally(additions, deletions, myCommits) == Authored(Flatten(pages), userId)
  {
    additions, deletions, myCommits := 0, 0, 0;
    var p := 0;
    while p < |pages|
      invariant 0 <= p <= |pages|
      invariant Tally(additions, deletions, myCommits) == Authored(Flatten(pages[..p]), userId)
    {
      var edges := pages[p];
      ghost var before := Flatten(pages[..p]);
      assert before + edges[..0] == before;
      var k := 0;
      while k < |edges|
        invariant 0 <= k <= |edges|
        invariant Tally(additions, deletions, myCommits) == Authored(before + edges[..k], userId)
      {
        var edge := edges[k];
        if edge.authorId == Some(userId) {
          myCommits := myCommits + 1;
          additions := additions + edge.additions;
          deletions := deletions + edge.deletions;
        }
        AppendStep(before, edges, k);
        LastStep(before + edges[..k], edge, userId);
        k := k + 1;
      }
      PrefixStep(pages, p);
      assert edges[..k] == edges;
      p := p + 1;
    }
    assert pages[..p] == pages;
  }

  /** The edges whose author's user id is userId, in order. */
  function Mine(edges: seq<Edge>, userId: string): seq<Edge>
  {
    if |edges| == 0 then []
    else (if edges[0].authorId == Some(userId) then [edges[0]] else []) + Mine(edges[1..], userId)
  }

  /** An edge is among the user's own exactly when it is one of the edges and the user authored it. */
  lemma {:induction false} MineExactly(edges: seq<Edge>, userId: string, e: Edge)
    ensures e in Mine(edges, userId) <==> e in edges && e.authorId == Some(userId)
    decreases |edges|
  {
    if |edges| > 0 {
      assert edges == [edges[0]] + edges[1..];
      MineExactly(edges[1..], userId, e);
    }
  }

  function SumAdditions(edges: seq<Edge>): int
  {
    if |edges| == 0 then 0 else edges[0].additions + SumAdditions(edges[1..])
  }

  function SumDeletions(edges: seq<Edge>): int
  {
    if |edges| == 0 then 0 else edges[0].deletions + SumDeletions(edges[1..])
  }

  function Plus(a: Tally, b: Tally): Tally
  {
    Tally(a.additions + b.additions, a.deletions + b.deletions, a.myCommits + b.myCommits)
  }

  /** Tallying two runs of edges one after the other adds their tallies. */
  lemma {:induction false} AuthoredAppend(a: seq<Edge>, b: seq<Edge>, userId: string)
    ensures Authored(a + b, userId) == Plus(Authored(a, userId), Authored(b, userId))
    decreases |b|
  {
    if |b| == 0 {
      assert a + b == a;
    } else {
      var front := b[..|b| - 1];
      var last := b[|b| - 1];
      assert a + b == (a + front) + [last];
      assert b == front + [last];
      LastStep(a + front, last, userId);
      LastStep(front, last, userId);
      AuthoredAppend(a, front, userId);
      CountedPlus(Authored(a, userId), Authored(front, userId), last, userId);
    }
  }

  lemma CountedPlus(x: Tally, y: Tally, e: Edge, userId: string)
    ensures Counted(Plus(x, y), e, userId) == Plus(x, Counted(y, e, userId))
  {
  }

  lemma LastStep(edges: seq<Edge>, e: Edge, userId: string)
    ensures Authored(edges + [e], userId) == Counted(Authored(edges, userId), e, userId)
  {
    assert (edges + [e])[..|edges|] == edges;
  }

  /**
   * The tally is exactly the sums over the user's own commits, and their number: commits by
   * anyone else, or without a linked user, count for nothing.
   */
  lemma {:induction false} AuthoredIsMine(edges: seq<Edge>, userId: string)
    ensures var mine := Mine(edges, userId);
      Authored(edges, userId) == Tally(SumAdditions(mine), SumDeletions(mine), |mine|)
    decreases |edges|
  {
    if |edges| > 0 {
      var e := edges[0];
      var rest := edges[1..];
      var head := if e.authorId == Some(userId) then [e] else [];
      assert edges == [e] + rest;
      AuthoredAppend([e], rest, userId);
      LastStep([], e, userId);
      assert [] + [e] == [e];
      AuthoredIsMine(rest, userId);
      SumsAppend(head, Mine(rest, userId));
    }
  }

  lemma {:induction false} SumsAppend(a: seq<Edge>, b: seq<Edge>)
    ensures SumAdditions(a + b) == SumAdditions(a) + SumAdditions(b)
    ensures SumDeletions(a + b) == SumDeletions(a) + SumDeletions(b)
    decreases |a|
  {
    if |a| == 0 {
      assert a + b == b;
    } else {
      assert (a + b)[1..] == a[1..] + b;
      SumsAppend(a[1..], b);
    }
  }

  /** How the history is cut into pages does not change the tally: it is the sum of the pages' tallies. */
  lemma {:induction false} AuthoredPages(pages: seq<seq<Edge>>, userId: string)
    ensures |pages| > 0 ==>
      Authored(Flatten(pages), userId)
        == Plus(Authored(Flatten(pages[..|pages| - 1]), userId), Authored(pages[|pages| - 1], userId))
  {
    if |pages| > 0 {
      AuthoredAppend(Flatten(pages[..|pages| - 1]), pages[|pages| - 1], userId);
    }
  }

  // ---------------------------------------------------------------------------------------
  // fetch_loc_with_cache

  /** The name split at '/' and unpacked into owner and repository: only a name with exactly one '/' unpacks. */
  function SplitOwner(name: string): (r: Option<(string, string)>)
    ensures r.Some? ==> '/' !in r.value.0 && '/' !in r.value.1 && name == r.value.0 + "/" + r.value.1
  {
    if '/' in name && '/' !in After(name, '/') then
      var owner := Before(name, '/');
      var repo := After(name, '/');
      assert name == owner + "/" + repo by {
        assert name[..|name| - |repo| - 1] == owner;
        assert name == name[..|name| - |repo| - 1] + [name[|name| - |repo| - 1]] + name[|name| - |repo|..];
      }
      Some((owner, repo))
    else
      None
  }

  /** Every "owner/repo" with neither part holding a '/' unpacks into exactly those parts. */
  lemma SplitOwnerOf(owner: string, repo: string)
    requires '/' !in owner && '/' !in repo
    ensures SplitOwner(owner + "/" + repo) == Some((owner, repo))
  {
    SplitAtFirst(owner, '/', repo);
    assert owner + "/" + repo == owner + ['/'] + repo;
  }

  /** A field missing from a cache entry reads as 0. */
  function OrZero(v: Option<int>): int
  {
    if v.Some? then v.value else 0
  }

  /** The cache is valid for a repository when it holds an entry whose commit count is the current one. */
  predicate Hit(cache: map<string, Entry>, repo: Repo)
  {
    repo.name in cache && cache[repo.name].commitCount == Some(repo.commitCount)
  }

  /** One pass of the loop body: skip a fork, use a valid entry, or fetch afresh and overwrite. */
  function Step(run: Run, repo: Repo, userId: string, history: (string, string) -> seq<seq<Edge>>): Result<Run, string>
  {
    if repo.isFork then Success(run)
    else if Hit(run.cache, repo) then
      var e := run.cache[repo.name];
      Success(run.(totalAdditions := run.totalAdditions + OrZero(e.additions),
                   totalDeletions := run.totalDeletions + OrZero(e.deletions),
                   hits := run.hits + 1))
    else if SplitOwner(repo.name).None? then Failure(repo.name)
    else
      var e := Refetched(repo, userId, history);
      Success(Run(run.cache[repo.name := e], run.totalAdditions + OrZero(e.additions),
                  run.totalDeletions + OrZero(e.deletions), run.hits, run.misses + 1))
  }

  /** The entry written on a cache miss: the current commit count and the freshly fetched tally. */
  function Refetched(repo: Repo, userId: string, history: (string, string) -> seq<seq<Edge>>): Entry
    requires SplitOwner(repo.name).Some?
  {
    var parts := SplitOwner(repo.name).value;
    var t := Authored(Flatten(history(parts.0, parts.1)), userId);
    Entry(Some(repo.commitCount), Some(t.additions), Some(t.deletions), Some(t.myCommits))
  }

  /** The loop over the repositories, from a given state; the name that failed to unpack, if one did. */
  function Reconcile(run: Run, repos: seq<Repo>, userId: string, history: (string, string) -> seq<seq<Edge>>)
    : Result<Run, string>
    decreases |repos|
  {
    if |repos| == 0 then Success(run)
    else
      match Step(run, repos[0], userId, history)
      case Failure(name) => Failure(name)
      case Success(next) => Reconcile(next, repos[1..], userId, history)
  }

  /** The loop from position i on takes one step, then goes on from position i + 1. */
  lemma ReconcileAt(run: Run, repos: seq<Repo>, i: int, userId: string, history: (string, string) -> seq<seq<Edge>>)
    requires 0 <= i < |repos|
    ensures Reconcile(run, repos[i..], userId, history)
      == match Step(run, repos[i], userId, history)
         case Failure(name) => Failure(name)
         case Success(next) => Reconcile(next, repos[i + 1..], userId, history)
  {
    assert repos[i..][1..] == repos[i + 1..];
  }

  /** What fetch_loc_with_cache does with the token, the user id, the repositories and the loaded cache. */
  function LocWithCache(token: string, userId: Option<string>, repos: seq<Repo>, loaded: map<string, Entry>,
                        history: (string, string) -> seq<seq<Edge>>): Outcome
  {
    if token == "" || userId.None? || userId.value == "" then Skipped
    else
      match Reconcile(Run(loaded, 0, 0, 0, 0), repos, userId.value, history)
      case Failure(name) => Crashed(name)
      case Success(run) => Saved(run)
  }

  /**
   * fetch_loc_with_cache: the early returns, then the loop over the repositories that
   * updates the cache in place and the four counters; the result carries the cache it saves.
   */
  method FetchLocWithCache(token: string, userId: Option<string>, repos: seq<Repo>, loaded: map<string, Entry>,
                           history: (string, string) -> seq<seq<Edge>>) returns (outcome: Outcome)
    ensures outcome == LocWithCache(token, userId, repos, loaded, history)
  {
    if token == "" {
      return Skipped;
    }
    if userId.None? || userId.value == "" {
      return Skipped;
    }
    var uid := userId.value;
    var cache := loaded;
    var cacheHits, cacheMisses := 0, 0;
    var totalAdditions, totalDeletions := 0, 0;
    ghost var start := Run(loaded, 0, 0, 0, 0);
    var i := 0;
    while i < |repos|
      invariant 0 <= i <= |repos|
      invariant Reconcile(start, repos, uid, history)
        == Reconcile(Run(cache, totalAdditions, totalDeletions, cacheHits, cacheMisses), repos[i..], uid, history)
    {
      var repo := repos[i];
      var name := repo.name;
      var currentCommits := repo.commitCount;
      ghost var run := Run(cache, totalAdditions, totalDeletions, cacheHits, cacheMisses);
      ReconcileAt(run, repos, i, uid, history);
      if !repo.isFork {
        if name in cache && cache[name].commitCount == Some(currentCommits) {
          totalAdditions := totalAdditions + OrZero(cache[name].additions);
          totalDeletions := totalDeletions + OrZero(cache[name].deletions);
          cacheHits := cacheHits + 1;
        } else {
          var parts := SplitOwner(name);
          if parts.None? {
            return Crashed(name);
          }
          var (owner, repoName) := parts.value;
          var additions, deletions, myCommits := FetchLocForRepo(history(owner, repoName), uid);
          cache := cache[name := Entry(Some(currentCommits), Some(additions), Some(deletions), Some(myCommits))];
          totalAdditions := totalAdditions + additions;
          totalDeletions := totalDeletions + deletions;
          cacheMisses := cacheMisses + 1;
        }
      }
      assert Step(run, repo, uid, history) == Success(Run(cache, totalAdditions, totalDeletions, cacheHits, cacheMisses));
      i := i + 1;
    }
    assert repos[i..] == [];
    return Saved(Run(cache, totalAdditions, totalDeletions, cacheHits, cacheMisses));
  }

  // ---------------------------------------------------------------------------------------
  // What the loop guarantees

  /** The names of the repositories that are not forks. */
  function NonForkNames(repos: seq<Repo>): set<string>
  {
    if |repos| == 0 then {}
    else (if repos[0].isFork then {} else {repos[0].name}) + NonForkNames(repos[1..])
  }

  /** The number of repositories that are not forks. */
  function NonForkCount(repos: seq<Repo>): nat
  {
    if |repos| == 0 then 0 else (if repos[0].isFork then 0 else 1) + NonForkCount(repos[1..])
  }

  lemma {:induction false} NonForkIn(repos: seq<Repo>, i: int)
    requires 0 <= i < |repos| && !repos[i].isFork
    ensures repos[i].name in NonForkNames(repos)
    decreases |repos|
  {
    if i > 0 {
      NonForkIn(repos[1..], i - 1);
    }
  }

  /** No two repositories that are not forks share a name (GitHub's nameWithOwner is unique). */
  predicate Distinct(repos: seq<Repo>)
  {
    |repos| == 0
    || ((repos[0].isFork || repos[0].name !in NonForkNames(repos[1..])) && Distinct(repos[1..]))
  }

  /** The additions the cache holds for the repositories that are not forks. */
  function StoredAdditions(cache: map<string, Entry>, repos: seq<Repo>): int
  {
    if |repos| == 0 then 0
    else
      var here := if repos[0].isFork || repos[0].name !in cache then 0 else OrZero(cache[repos[0].name].additions);
      here + StoredAdditions(cache, repos[1..])
  }

  /** The deletions the cache holds for the repositories that are not forks. */
  function StoredDeletions(cache: map<string, Entry>, repos: seq<Repo>): int
  {
    if |repos| == 0 then 0
    else
      var here := if repos[0].isFork || repos[0].name !in cache then 0 else OrZero(cache[repos[0].name].deletions);
      here + StoredDeletions(cache, repos[1..])
  }

  /**
   * The loop adds an entry for every repository that is not a fork and touches no other
   * entry: forks and names it does not list keep what the loaded cache held.
   */
  lemma {:induction false} ReconcileFrame(run: Run, repos: seq<Repo>, userId: string,
                                          history: (string, string) -> seq<seq<Edge>>)
    requires Reconcile(run, repos, userId, history).Success?
    ensures var out := Reconcile(run, repos, userId, history).value;
      && out.cache.Keys == run.cache.Keys + NonForkNames(repos)
      && (forall n :: n in run.cache && n !in NonForkNames(repos) ==> out.cache[n] == run.cache[n])
    decreases |repos|
  {
    if |repos| > 0 {
      var next := Step(run, repos[0], userId, history).value;
      ReconcileFrame(next, repos[1..], userId, history);
    }
  }

  /**
   * After the loop, a repository that is not a fork keeps its entry when the entry was valid
   * for its commit count and has a freshly fetched entry otherwise; either way the entry's
   * commit count is the current one.
   */
  lemma {:induction false} ReconcileEntry(run: Run, repos: seq<Repo>, userId: string,
                                          history: (string, string) -> seq<seq<Edge>>, i: int)
    requires Distinct(repos) && Reconcile(run, repos, userId, history).Success?
    requires 0 <= i < |repos| && !repos[i].isFork
    ensures var out := Reconcile(run, repos, userId, history).value; var r := repos[i];
      && Hit(out.cache, r)
      && (Hit(run.cache, r) ==> out.cache[r.name] == run.cache[r.name])
      && (!Hit(run.cache, r) ==> SplitOwner(r.name).Some? && out.cache[r.name] == Refetched(r, userId, history))
    decreases |repos|
  {
    var r := repos[i];
    var next := Step(run, repos[0], userId, history).value;
    var out := Reconcile(next, repos[1..], userId, history).value;
    ReconcileFrame(next, repos[1..], userId, history);
    if i == 0 {
      assert r.name !in NonForkNames(repos[1..]);
      assert Hit(next.cache, r);
      assert out.cache[r.name] == next.cache[r.name];
    } else {
      ReconcileEntry(next, repos[1..], userId, history, i - 1);
      assert repos[1..][i - 1] == r;
      NonForkIn(repos[1..], i - 1);
      StepElsewhere(run, repos[0], r.name, userId, history);
    }
  }

  /** A step leaves alone every entry but the one of the repository it handles. */
  lemma StepElsewhere(run: Run, repo: Repo, name: string, userId: string,
                      history: (string, string) -> seq<seq<Edge>>)
    requires Step(run, repo, userId, history).Success? && (repo.isFork || repo.name != name)
    ensures var next := Step(run, repo, userId, history).value;
      && (name in next.cache <==> name in run.cache)
      && (name in run.cache ==> next.cache[name] == run.cache[name])
  {
  }

  /**
   * The totals are the starting totals plus what the final cache holds for the repositories
   * that are not forks, and every such repository is either a hit or a miss.
   */
  lemma {:induction false} ReconcileTotals(run: Run, repos: seq<Repo>, userId: string,
                                           history: (string, string) -> seq<seq<Edge>>)
    requires Distinct(repos) && Reconcile(run, repos, userId, history).Success?
    ensures var out := Reconcile(run, repos, userId, history).value;
      && out.totalAdditions == run.totalAdditions + StoredAdditions(out.cache, repos)
      && out.totalDeletions == run.totalDeletions + StoredDeletions(out.cache, repos)
      && out.hits + out.misses == run.hits + run.misses + NonForkCount(repos)
    decreases |repos|
  {
    if |repos| > 0 {
      var next := Step(run, repos[0], userId, history).value;
      ReconcileTotals(next, repos[1..], userId, history);
      ReconcileFrame(next, repos[1..], userId, history);
    }
  }

  /** Once every repository that is not a fork has a valid entry, the loop only hits and changes no entry. */
  lemma {:induction false} AllHits(run: Run, repos: seq<Repo>, userId: string,
                                   history: (string, string) -> seq<seq<Edge>>)
    requires forall i :: 0 <= i < |repos| && !repos[i].isFork ==> Hit(run.cache, repos[i])
    ensures Reconcile(run, repos, userId, history)
      == Success(run.(totalAdditions := run.totalAdditions + StoredAdditions(run.cache, repos),
                      totalDeletions := run.totalDeletions + StoredDeletions(run.cache, repos),
                      hits := run.hits + NonForkCount(repos)))
    decreases |repos|
  {
    if |repos| > 0 {
      var next := Step(run, repos[0], userId, history).value;
      assert next.cache == run.cache;
      assert forall i :: 0 <= i < |repos[1..]| && !repos[1..][i].isFork ==> Hit(next.cache, repos[1..][i]) by {
        forall i | 0 <= i < |repos[1..]| && !repos[1..][i].isFork
          ensures Hit(next.cache, repos[1..][i])
        {
          assert repos[1..][i] == repos[i + 1];
        }
      }
      AllHits(next, repos[1..], userId, history);
    }
  }

  /**
   * Running fetch_loc_with_cache a second time on the same repositories and history, with
   * the cache the first run saved, gives only hits, saves the same cache and returns the
   * same totals.
   */
  lemma Idempotent(token: string, userId: Option<string>, repos: seq<Repo>, loaded: map<string, Entry>,
                   history: (string, string) -> seq<seq<Edge>>)
    requires Distinct(repos)
    requires LocWithCache(token, userId, repos, loaded, history).Saved?
    ensures var run := LocWithCache(token, userId, repos, loaded, history).run;
      LocWithCache(token, userId, repos, run.cache, history)
        == Saved(Run(run.cache, run.totalAdditions, run.totalDeletions, NonForkCount(repos), 0))
  {
    var u := userId.value;
    var start := Run(loaded, 0, 0, 0, 0);
    var run := Reconcile(start, repos, u, history).value;
    forall i | 0 <= i < |repos| && !repos[i].isFork
      ensures Hit(run.cache, repos[i])
    {
      ReconcileEntry(start, repos, u, history, i);
    }
    AllHits(Run(run.cache, 0, 0, 0, 0), repos, u, history);
    ReconcileTotals(start, repos, u, history);
  }

  /** The loop raises only on a listed repository that is not a fork and has no single '/'. */
  lemma {:induction false} CrashCause(run: Run, repos: seq<Repo>, userId: string,
                                      history: (string, string) -> seq<seq<Edge>>)
    requires Reconcile(run, repos, userId, history).Failure?
    ensures var name := Reconcile(run, repos, userId, history).error;
      name in NonForkNames(repos) && SplitOwner(name).None?
    decreases |repos|
  {
    if Step(run, repos[0], userId, history).Success? {
      CrashCause(Step(run, repos[0], userId, history).value, repos[1..], userId, history);
    }
  }

  /** When every repository that is not a fork is named "owner/repo", the loop does not raise. */
  lemma {:induction false} NoCrash(run: Run, repos: seq<Repo>, userId: string,
                                   history: (string, string) -> seq<seq<Edge>>)
    requires forall i :: 0 <= i < |repos| && !repos[i].isFork ==> SplitOwner(repos[i].name).Some?
    ensures Reconcile(run, repos, userId, history).Success?
    decreases |repos|
  {
    if |repos| > 0 {
      assert forall i :: 0 <= i < |repos[1..]| && !repos[1..][i].isFork ==> SplitOwner(repos[1..][i].name).Some? by {
        forall i | 0 <= i < |repos[1..]| && !repos[1..][i].isFork
          ensures SplitOwner(repos[1..][i].name).Some?
        {
          assert repos[1..][i] == repos[i + 1];
        }
      }
      NoCrash(Step(run, repos[0], userId, history).value, repos[1..], userId, history);
    }
  }

  /** The loop over two lists one after the other is the loop over the second from where the first ended. */
  lemma {:induction false} ReconcileAppend(run: Run, a: seq<Repo>, b: seq<Repo>, userId: string,
                                           history: (string, string) -> seq<seq<Edge>>)
    ensures Reconcile(run, a + b, userId, history)
      == match Reconcile(run, a, userId, history)
         case Failure(name) => Failure(name)
         case Success(mid) => Reconcile(mid, b, userId, history)
    decreases |a|
  {
    if |a| == 0 {
      assert a + b == b;
    } else {
      assert (a + b)[0] == a[0];
      assert (a + b)[1..] == a[1..] + b;
      if Step(run, a[0], userId, history).Success? {
        ReconcileAppend(Step(run, a[0], userId, history).value, a[1..], b, userId, history);
      }
    }
  }
}
