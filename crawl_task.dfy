/**
 * One crawl task (crawlInternalAction): visit a URL with a remaining depth budget, claim
 * it in the shared visited set, add its word counts into the shared counts map and run a
 * child task for every outbound link with one less depth.
 *
 * The Java tasks run on a ForkJoinPool; this model runs them one after another,
 * depth-first, children in link order. Visit and VisitAll give the effect of one task
 * (and of a list of sibling tasks) on the shared state as a function of the state before.
 */
module CrawlTask {
  import opened Collaborators

  /** What every task of one crawl shares besides the mutable state. */
  datatype Env = Env(
    deadline: int,
    readings: nat -> int,
    ignoredUrls: seq<string>,
    matches: (string, string) -> bool,
    pages: string -> Page)

  /**
   * The state the tasks change: the visited set, the word counts, how many times the
   * clock has been read, and the log of parse calls.
   */
  datatype CrawlState = CrawlState(visited: set<string>, counts: map<string, int>, ticks: nat, parsed: seq<string>)

  /** A word's count in a counts map, 0 when absent. */
  function Count(m: map<string, int>, w: string): int
  {
    if w in m then m[w] else 0
  }

  /** The counts after merging a page's word counts with Integer::sum. */
  function Merged(acc: map<string, int>, words: map<string, int>): map<string, int>
  {
    map w | w in acc.Keys + words.Keys :: Count(acc, w) + Count(words, w)
  }

  /** Some ignore pattern matches the whole URL. */
  predicate Ignored(env: Env, url: string)
  {
    exists i :: 0 <= i < |env.ignoredUrls| && env.matches(env.ignoredUrls[i], url)
  }

  /** The effect of one task compute() for `url` with budget `depth`. */
  function Visit(env: Env, url: string, depth: nat, s: CrawlState): CrawlState
    decreases depth, 1, 0
  {
    if depth == 0 then s
    else if env.readings(s.ticks) > env.deadline then s.(ticks := s.ticks + 1)
    else if Ignored(env, url) then s.(ticks := s.ticks + 1)
    else if url in s.visited then s.(ticks := s.ticks + 1)
    else
      var page := env.pages(url);
      var claimed := CrawlState(s.visited + {url}, Merged(s.counts, page.wordCounts), s.ticks + 1, s.parsed + [url]);
      VisitAll(env, page.links, depth - 1, claimed)
  }

  /** The effect of running one task per URL of `urls`, in order, each with budget `depth`. */
  function VisitAll(env: Env, urls: seq<string>, depth: nat, s: CrawlState): CrawlState
    decreases depth + 1, 0, |urls|
  {
    if urls == [] then s
    else Visit(env, urls[|urls| - 1], depth, VisitAll(env, urls[..|urls| - 1], depth, s))
  }

  // ---------------------------------------------------------------------------
  // Reference definitions for the invariants.
  // ---------------------------------------------------------------------------

  /** The sum of the counts of `w` over the pages of `urls`. */
  ghost function Total(pages: string -> Page, urls: set<string>, w: string): int
    decreases urls
  {
    if urls == {} then 0
    else
      var u :| u in urls;
      Count(pages(u).wordCounts, w) + Total(pages, urls - {u}, w)
  }

  ghost predicate NoDuplicates(xs: seq<string>)
  {
    forall i, j :: 0 <= i < j < |xs| ==> xs[i] != xs[j]
  }

  /**
   * The crawl's invariant, for the parse calls made since position `from` of the log:
   * every visited URL was parsed exactly once and nothing else was parsed; the counts
   * hold exactly the words of the visited pages, each with the sum of its page counts.
   */
  ghost predicate Consistent(pages: string -> Page, s: CrawlState, from: nat)
  {
    && from <= |s.parsed|
    && NoDuplicates(s.parsed[from..])
    && (forall u :: u in s.parsed[from..] <==> u in s.visited)
    && (forall w :: w in s.counts <==> exists u :: u in s.visited && w in pages(u).wordCounts)
    && (forall w :: Count(s.counts, w) == Total(pages, s.visited, w))
  }

  /** The URLs a task with budget `depth` can reach: those fewer than `depth` links away. */
  ghost function Reach(pages: string -> Page, url: string, depth: nat): set<string>
    decreases depth, 1, 0
  {
    if depth == 0 then {} else {url} + ReachAll(pages, pages(url).links, depth - 1)
  }

  ghost function ReachAll(pages: string -> Page, urls: seq<string>, depth: nat): set<string>
    decreases depth + 1, 0, |urls|
  {
    if urls == [] then {}
    else ReachAll(pages, urls[..|urls| - 1], depth) + Reach(pages, urls[|urls| - 1], depth)
  }

  // ---------------------------------------------------------------------------
  // Lemmas.
  // ---------------------------------------------------------------------------

  lemma MergedIsAdditive(acc: map<string, int>, words: map<string, int>, w: string)
    ensures Count(Merged(acc, words), w) == Count(acc, w) + Count(words, w)
    ensures w in Merged(acc, words) <==> w in acc || w in words
  {
  }

  lemma {:induction false} TotalRemove(pages: string -> Page, urls: set<string>, u: string, w: string)
    requires u in urls
    ensures Total(pages, urls, w) == Count(pages(u).wordCounts, w) + Total(pages, urls - {u}, w)
    decreases urls
  {
    var v :| v in urls && Total(pages, urls, w) == Count(pages(v).wordCounts, w) + Total(pages, urls - {v}, w);
    if v != u {
      TotalRemove(pages, urls - {v}, u, w);
      TotalRemove(pages, urls - {u}, v, w);
      assert urls - {v} - {u} == urls - {u} - {v};
    }
  }

  lemma TotalInsert(pages: string -> Page, urls: set<string>, u: string, w: string)
    requires u !in urls
    ensures Total(pages, urls + {u}, w) == Total(pages, urls, w) + Count(pages(u).wordCounts, w)
  {
    TotalRemove(pages, urls + {u}, u, w);
    assert urls + {u} - {u} == urls;
  }

  /** Claiming an unvisited URL and merging its page keeps the invariant. */
  lemma ClaimKeepsConsistent(pages: string -> Page, url: string, s: CrawlState, from: nat)
    requires Consistent(pages, s, from) && url !in s.visited
    ensures Consistent(pages, CrawlState(s.visited + {url}, Merged(s.counts, pages(url).wordCounts), s.ticks + 1, s.parsed + [url]), from)
  {
    var words := pages(url).wordCounts;
    var c := CrawlState(s.visited + {url}, Merged(s.counts, words), s.ticks + 1, s.parsed + [url]);
    assert c.parsed[from..] == s.parsed[from..] + [url];
    forall w
      ensures Count(c.counts, w) == Total(pages, c.visited, w)
    {
      MergedIsAdditive(s.counts, words, w);
      TotalInsert(pages, s.visited, url, w);
    }
    forall w
      ensures w in c.counts <==> exists u :: u in c.visited && w in pages(u).wordCounts
    {
      MergedIsAdditive(s.counts, words, w);
      if w in words {
        assert url in c.visited && w in pages(url).wordCounts;
      }
    }
  }

  /** Every task keeps the crawl's invariant. */
  lemma {:induction false} VisitKeepsConsistent(env: Env, url: string, depth: nat, s: CrawlState, from: nat)
    requires Consistent(env.pages, s, from)
    ensures Consistent(env.pages, Visit(env, url, depth, s), from)
    decreases depth, 1, 0
  {
    if depth > 0 && env.readings(s.ticks) <= env.deadline && !Ignored(env, url) && url !in s.visited {
      var page := env.pages(url);
      var claimed := CrawlState(s.visited + {url}, Merged(s.counts, page.wordCounts), s.ticks + 1, s.parsed + [url]);
      ClaimKeepsConsistent(env.pages, url, s, from);
      VisitAllKeepsConsistent(env, page.links, depth - 1, claimed, from);
    }
  }

  lemma {:induction false} VisitAllKeepsConsistent(env: Env, urls: seq<string>, depth: nat, s: CrawlState, from: nat)
    requires Consistent(env.pages, s, from)
    ensures Consistent(env.pages, VisitAll(env, urls, depth, s), from)
    decreases depth + 1, 0, |urls|
  {
    if urls != [] {
      VisitAllKeepsConsistent(env, urls[..|urls| - 1], depth, s, from);
      VisitKeepsConsistent(env, urls[|urls| - 1], depth, VisitAll(env, urls[..|urls| - 1], depth, s), from);
    }
  }

  /** The shared state only grows: no URL is un-visited, no word removed, no log entry lost. */
  lemma {:induction false} VisitGrows(env: Env, url: string, depth: nat, s: CrawlState)
    ensures var r := Visit(env, url, depth, s);
      s.visited <= r.visited && s.counts.Keys <= r.counts.Keys && s.parsed <= r.parsed && s.ticks <= r.ticks
    decreases depth, 1, 0
  {
    if depth > 0 && env.readings(s.ticks) <= env.deadline && !Ignored(env, url) && url !in s.visited {
      var page := env.pages(url);
      var claimed := CrawlState(s.visited + {url}, Merged(s.counts, page.wordCounts), s.ticks + 1, s.parsed + [url]);
      VisitAllGrows(env, page.links, depth - 1, claimed);
    }
  }

  lemma {:induction false} VisitAllGrows(env: Env, urls: seq<string>, depth: nat, s: CrawlState)
    ensures var r := VisitAll(env, urls, depth, s);
      s.visited <= r.visited && s.counts.Keys <= r.counts.Keys && s.parsed <= r.parsed && s.ticks <= r.ticks
    decreases depth + 1, 0, |urls|
  {
    if urls != [] {
      VisitAllGrows(env, urls[..|urls| - 1], depth, s);
      VisitGrows(env, urls[|urls| - 1], depth, VisitAll(env, urls[..|urls| - 1], depth, s));
    }
  }

  /**
   * Depth bound and filter exclusion: a task only adds URLs fewer than `depth` links away
   * from its own URL, and never one that an ignore pattern matches.
   */
  lemma {:induction false} VisitBounded(env: Env, url: string, depth: nat, s: CrawlState)
    ensures forall u :: u in Visit(env, url, depth, s).visited && u !in s.visited ==>
      u in Reach(env.pages, url, depth) && !Ignored(env, u)
    decreases depth, 1, 0
  {
    if depth > 0 && env.readings(s.ticks) <= env.deadline && !Ignored(env, url) && url !in s.visited {
      var page := env.pages(url);
      var claimed := CrawlState(s.visited + {url}, Merged(s.counts, page.wordCounts), s.ticks + 1, s.parsed + [url]);
      VisitAllBounded(env, page.links, depth - 1, claimed);
    }
  }

  lemma {:induction false} VisitAllBounded(env: Env, urls: seq<string>, depth: nat, s: CrawlState)
    ensures forall u :: u in VisitAll(env, urls, depth, s).visited && u !in s.visited ==>
      u in ReachAll(env.pages, urls, depth) && !Ignored(env, u)
    decreases depth + 1, 0, |urls|
  {
    if urls != [] {
      var prefix := urls[..|urls| - 1];
      var mid := VisitAll(env, prefix, depth, s);
      VisitAllBounded(env, prefix, depth, s);
      VisitBounded(env, urls[|urls| - 1], depth, mid);
    }
  }

  /** Once every remaining clock reading is past the deadline, tasks change nothing but the clock. */
  lemma {:induction false} VisitPastDeadline(env: Env, url: string, depth: nat, s: CrawlState)
    requires forall i :: s.ticks <= i ==> env.readings(i) > env.deadline
    ensures var r := Visit(env, url, depth, s);
      r.visited == s.visited && r.counts == s.counts && r.parsed == s.parsed
  {
  }

  lemma {:induction false} VisitAllPastDeadline(env: Env, urls: seq<string>, depth: nat, s: CrawlState)
    requires forall i :: s.ticks <= i ==> env.readings(i) > env.deadline
    ensures var r := VisitAll(env, urls, depth, s);
      r.visited == s.visited && r.counts == s.counts && r.parsed == s.parsed
    decreases |urls|
  {
    if urls != [] {
      var prefix := urls[..|urls| - 1];
      VisitAllPastDeadline(env, prefix, depth, s);
      VisitAllGrows(env, prefix, depth, s);
      VisitPastDeadline(env, urls[|urls| - 1], depth, VisitAll(env, prefix, depth, s));
    }
  }

  /**
   * The guards of compute(), in order: a zero budget returns without reading the clock;
   * a reading strictly after the deadline, a matching ignore pattern or an already visited
   * URL return after the one clock reading; otherwise (a reading equal to the deadline
   * included) the URL is claimed and parsed before anything else happens.
   */
  lemma VisitGuards(env: Env, url: string, depth: nat, s: CrawlState)
    ensures depth == 0 ==> Visit(env, url, depth, s) == s
    ensures depth > 0 && (env.readings(s.ticks) > env.deadline || Ignored(env, url) || url in s.visited) ==>
      Visit(env, url, depth, s) == s.(ticks := s.ticks + 1)
    ensures depth > 0 && env.readings(s.ticks) <= env.deadline && !Ignored(env, url) && url !in s.visited ==>
      var r := Visit(env, url, depth, s);
      url in r.visited && |s.parsed| < |r.parsed| && r.parsed[|s.parsed|] == url
  {
    if depth > 0 && env.readings(s.ticks) <= env.deadline && !Ignored(env, url) && url !in s.visited {
      var page := env.pages(url);
      var claimed := CrawlState(s.visited + {url}, Merged(s.counts, page.wordCounts), s.ticks + 1, s.parsed + [url]);
      VisitAllGrows(env, page.links, depth - 1, claimed);
    }
  }

  // ---------------------------------------------------------------------------
  // The imperative task.
  // ---------------------------------------------------------------------------

  /** The loop over the ignore patterns: does any of them match the URL? */
  method AnyPatternMatches(patterns: seq<string>, matches: (string, string) -> bool, url: string)
    returns (matched: bool)
    ensures matched <==> exists i :: 0 <= i < |patterns| && matches(patterns[i], url)
  {
    for i := 0 to |patterns|
      invariant forall j :: 0 <= j < i ==> !matches(patterns[j], url)
    {
      if matches(patterns[i], url) {
        return true;
      }
    }
    return false;
  }

  /** The state every task of one crawl shares: the visited URLs and the word counts. */
  class SharedState {
    var visitedUrls: set<string>
    var counts: map<string, int>

    constructor ()
      ensures visitedUrls == {} && counts == map[]
    {
      visitedUrls := {};
      counts := map[];
    }

    /** Set.add: insert-if-absent, telling whether the URL was new. */
    method Add(url: string) returns (added: bool)
      modifies this
      ensures added <==> url !in old(visitedUrls)
      ensures visitedUrls == old(visitedUrls) + {url} && counts == old(counts)
    {
      added := url !in visitedUrls;
      visitedUrls := visitedUrls + {url};
    }

    /** Map.merge(word, n, Integer::sum). */
    method Merge(word: string, n: int)
      modifies this
      ensures counts == old(counts)[word := Count(old(counts), word) + n]
      ensures visitedUrls == old(visitedUrls)
    {
      counts := counts[word := Count(counts, word) + n];
    }
  }

  /** A crawlInternalAction: its fields are those the Builder sets. */
  class CrawlAction {
    const url: string
    const deadline: int
    const maxDepth: nat
    const state: SharedState
    const clock: Clock
    const ignoredUrls: seq<string>
    const matches: (string, string) -> bool
    const parserFactory: PageSource

    constructor (url: string, deadline: int, maxDepth: nat, state: SharedState, clock: Clock,
                 ignoredUrls: seq<string>, matches: (string, string) -> bool, parserFactory: PageSource)
      ensures this.url == url && this.deadline == deadline && this.maxDepth == maxDepth
      ensures this.state == state && this.clock == clock && this.ignoredUrls == ignoredUrls
      ensures this.matches == matches && this.parserFactory == parserFactory
    {
      this.url := url;
      this.deadline := deadline;
      this.maxDepth := maxDepth;
      this.state := state;
      this.clock := clock;
      this.ignoredUrls := ignoredUrls;
      this.matches := matches;
      this.parserFactory := parserFactory;
    }

    function TaskEnv(): Env
    {
      Env(deadline, clock.readings, ignoredUrls, matches, parserFactory.pages)
    }

    function Snapshot(): CrawlState
      reads state, clock, parserFactory
    {
      CrawlState(state.visitedUrls, state.counts, clock.ticks, parserFactory.parsed)
    }

    /** The loop that merges a page's word counts into the shared counts. */
    method MergeWordCounts(words: map<string, int>)
      modifies state
      ensures state.counts == Merged(old(state.counts), words)
      ensures state.visitedUrls == old(state.visitedUrls)
    {
      ghost var before := state.counts;
      var rest := words.Keys;
      while rest != {}
        invariant rest <= words.Keys
        invariant state.visitedUrls == old(state.visitedUrls)
        invariant state.counts.Keys == before.Keys + (words.Keys - rest)
        invariant forall w :: w in state.counts ==>
          state.counts[w] == Count(before, w) + (if w in rest then 0 else Count(words, w))
        decreases rest
      {
        var w :| w in rest;
        state.Merge(w, words[w]);
        rest := rest - {w};
      }
      assert state.counts == Merged(before, words);
    }

    /** compute(): the guards, the claim, the merge and the fan-out to one child per link. */
    method Compute()
      modifies state, clock, parserFactory
      ensures Snapshot() == Visit(TaskEnv(), url, maxDepth, old(Snapshot()))
      decreases maxDepth, 1
    {
      if maxDepth == 0 {
        return;
      }
      var now := clock.Instant();
      if now > deadline {
        return;
      }
      var ignored := AnyPatternMatches(ignoredUrls, matches, url);
      if ignored {
        return;
      }
      var added := state.Add(url);
      if !added {
        return;
      }
      var page := parserFactory.Parse(url);
      MergeWordCounts(page.wordCounts);
      var actions := ChildActions(page.links);
      InvokeAll(actions, page.links);
    }

    /** The loop that builds one child task per link, with one less depth and the same shared state. */
    method ChildActions(links: seq<string>) returns (actions: seq<CrawlAction>)
      requires maxDepth > 0
      ensures |actions| == |links|
      ensures forall j :: 0 <= j < |links| ==> IsChild(actions[j], links[j])
    {
      actions := [];
      for i := 0 to |links|
        invariant |actions| == i
        invariant forall j :: 0 <= j < i ==> IsChild(actions[j], links[j])
      {
        var child := new CrawlAction(links[i], deadline, maxDepth - 1, state, clock,
                                     ignoredUrls, matches, parserFactory);
        actions := actions + [child];
      }
    }

    /** invokeAll(actions), run in list order: each child task to completion, one after another. */
    method InvokeAll(actions: seq<CrawlAction>, ghost links: seq<string>)
      requires maxDepth > 0
      requires |actions| == |links|
      requires forall j :: 0 <= j < |links| ==> IsChild(actions[j], links[j])
      modifies state, clock, parserFactory
      ensures Snapshot() == VisitAll(TaskEnv(), links, maxDepth - 1, old(Snapshot()))
      decreases maxDepth, 0
    {
      for i := 0 to |actions|
        invariant Snapshot() == VisitAll(TaskEnv(), links[..i], maxDepth - 1, old(Snapshot()))
      {
        assert links[..i + 1][..i] == links[..i];
        actions[i].Compute();
      }
      assert links[..|actions|] == links;
    }

    /** `child` is the task compute() creates for `link`. */
    ghost predicate IsChild(child: CrawlAction, link: string)
    {
      && child.url == link && child.deadline == deadline && child.maxDepth + 1 == maxDepth
      && child.state == state && child.clock == clock && child.ignoredUrls == ignoredUrls
      && child.matches == matches && child.parserFactory == parserFactory
    }
  }
}
