/**
 * The crawl coordinator (ParallelWebCrawler.crawl): set the deadline from the clock,
 * start from an empty visited set and empty counts, run one root task per starting URL
 * in list order with the full depth budget, and assemble the result.
 */
module WebCrawler {
  import opened Collaborators
  import opened CrawlTask

  /** CrawlResult: the word counts to report and how many distinct URLs were visited. */
  datatype CrawlResult = CrawlResult(wordCounts: map<string, int>, urlsVisited: nat)

  /** The crawler's configuration, as injected into its constructor. */
  datatype Config = Config(
    timeout: int,
    popularWordCount: int,
    maxDepth: nat,
    ignoredUrls: seq<string>,
    matches: (string, string) -> bool,
    sortWords: (map<string, int>, int) -> map<string, int>)

  /** What the root tasks share when the crawl starts at clock reading number `ticks0`. */
  function RunEnv(cfg: Config, readings: nat -> int, pages: string -> Page, ticks0: nat): Env
  {
    Env(readings(ticks0) + cfg.timeout, readings, cfg.ignoredUrls, cfg.matches, pages)
  }

  /** The state a fresh crawl starts from: nothing visited, nothing counted, one clock reading taken. */
  function Initial(ticks0: nat, parsed0: seq<string>): CrawlState
  {
    CrawlState({}, map[], ticks0 + 1, parsed0)
  }

  /** The shared state once every root task has finished. */
  function Run(cfg: Config, readings: nat -> int, pages: string -> Page, startingUrls: seq<string>,
               ticks0: nat, parsed0: seq<string>): CrawlState
  {
    VisitAll(RunEnv(cfg, readings, pages, ticks0), startingUrls, cfg.maxDepth, Initial(ticks0, parsed0))
  }

  /** The result built from the final state: empty counts are reported as they are, others sorted. */
  function Assemble(cfg: Config, s: CrawlState): CrawlResult
  {
    if |s.counts| == 0 then CrawlResult(s.counts, |s.visited|)
    else CrawlResult(cfg.sortWords(s.counts, cfg.popularWordCount), |s.visited|)
  }

  class ParallelWebCrawler {
    const clock: Clock
    const timeout: int
    const popularWordCount: int
    const parserFactory: PageSource
    const ignoredUrls: seq<string>
    const matches: (string, string) -> bool
    const maxDepth: nat
    /** WordCounts.sort, whose code is not part of this model. */
    const sortWords: (map<string, int>, int) -> map<string, int>

    constructor (clock: Clock, timeout: int, popularWordCount: int, maxDepth: nat, parserFactory: PageSource,
                 ignoredUrls: seq<string>, matches: (string, string) -> bool,
                 sortWords: (map<string, int>, int) -> map<string, int>)
      ensures this.clock == clock && this.timeout == timeout && this.popularWordCount == popularWordCount
      ensures this.maxDepth == maxDepth && this.parserFactory == parserFactory
      ensures this.ignoredUrls == ignoredUrls && this.matches == matches && this.sortWords == sortWords
    {
      this.clock := clock;
      this.timeout := timeout;
      this.popularWordCount := popularWordCount;
      this.maxDepth := maxDepth;
      this.parserFactory := parserFactory;
      this.ignoredUrls := ignoredUrls;
      this.matches := matches;
      this.sortWords := sortWords;
    }

    function Cfg(): Config
    {
      Config(timeout, popularWordCount, maxDepth, ignoredUrls, matches, sortWords)
    }

    /** crawl(startingUrls) */
    method Crawl(startingUrls: seq<string>) returns (result: CrawlResult)
      modifies clock, parserFactory
      ensures var s := Run(Cfg(), clock.readings, parserFactory.pages, startingUrls,
                            old(clock.ticks), old(parserFactory.parsed));
        result == Assemble(Cfg(), s) && clock.ticks == s.ticks && parserFactory.parsed == s.parsed
    {
      ghost var env := RunEnv(Cfg(), clock.readings, parserFactory.pages, clock.ticks);
      ghost var initial := Initial(clock.ticks, parserFactory.parsed);
      var start := clock.Instant();
      var deadline := start + timeout;
      var state := new SharedState();

      for i := 0 to |startingUrls|
        invariant CrawlState(state.visitedUrls, state.counts, clock.ticks, parserFactory.parsed)
          == VisitAll(env, startingUrls[..i], maxDepth, initial)
      {
        var root := new CrawlAction(startingUrls[i], deadline, maxDepth, state, clock,
                                    ignoredUrls, matches, parserFactory);
        assert startingUrls[..i + 1][..i] == startingUrls[..i];
        root.Compute();
      }
      assert startingUrls[..|startingUrls|] == startingUrls;

      if |state.counts| == 0 {
        return CrawlResult(state.counts, |state.visitedUrls|);
      }
      return CrawlResult(sortWords(state.counts, popularWordCount), |state.visitedUrls|);
    }
  }

  // ---------------------------------------------------------------------------
  // Properties of a whole crawl.
  // ---------------------------------------------------------------------------

  /**
   * After a crawl: every visited URL was parsed exactly once in this crawl (and nothing
   * else was parsed), each word's count is the sum of its page counts over the visited
   * URLs, no visited URL matches an ignore pattern, every visited URL is fewer than
   * maxDepth links from some starting URL, and the result reports the visited set's size.
   */
  lemma CrawlSound(cfg: Config, readings: nat -> int, pages: string -> Page, startingUrls: seq<string>,
                   ticks0: nat, parsed0: seq<string>)
    ensures var s := Run(cfg, readings, pages, startingUrls, ticks0, parsed0);
      var env := RunEnv(cfg, readings, pages, ticks0);
      && Consistent(pages, s, |parsed0|)
      && parsed0 <= s.parsed
      && (forall u :: u in s.visited ==> !Ignored(env, u) && u in ReachAll(pages, startingUrls, cfg.maxDepth))
      && Assemble(cfg, s).urlsVisited == |s.visited|
      && (|s.counts| == 0 ==> Assemble(cfg, s).wordCounts == map[])
  {
    var env := RunEnv(cfg, readings, pages, ticks0);
    var s0 := Initial(ticks0, parsed0);
    assert s0.parsed[|parsed0|..] == [];
    VisitAllKeepsConsistent(env, startingUrls, cfg.maxDepth, s0, |parsed0|);
    VisitAllGrows(env, startingUrls, cfg.maxDepth, s0);
    VisitAllBounded(env, startingUrls, cfg.maxDepth, s0);
  }

  /** No starting URLs: empty word counts and no URL visited. */
  lemma NoStartingUrls(cfg: Config, readings: nat -> int, pages: string -> Page, ticks0: nat, parsed0: seq<string>)
    ensures Assemble(cfg, Run(cfg, readings, pages, [], ticks0, parsed0)) == CrawlResult(map[], 0)
  {
  }

  /**
   * A timeout of zero still crawls when the clock has not moved: the deadline check is a
   * strict "is after", so a reading equal to the deadline lets the task proceed.
   */
  lemma ZeroTimeoutStillCrawls(cfg: Config, readings: nat -> int, pages: string -> Page, url: string,
                               ticks0: nat, parsed0: seq<string>)
    requires cfg.timeout == 0 && cfg.maxDepth > 0
    requires forall i :: readings(i) == readings(ticks0)
    requires !Ignored(RunEnv(cfg, readings, pages, ticks0), url)
    ensures url in Run(cfg, readings, pages, [url], ticks0, parsed0).visited
    ensures Assemble(cfg, Run(cfg, readings, pages, [url], ticks0, parsed0)).urlsVisited >= 1
  {
    var env := RunEnv(cfg, readings, pages, ticks0);
    var s0 := Initial(ticks0, parsed0);
    assert [url][..0] == [];
    assert VisitAll(env, [url][..0], cfg.maxDepth, s0) == s0;
    assert Run(cfg, readings, pages, [url], ticks0, parsed0) == VisitAll(env, [url], cfg.maxDepth, s0);
    VisitGuards(env, url, cfg.maxDepth, s0);
  }

  /**
   * A negative timeout with a clock that never runs backwards: every task's reading is
   * after the deadline, so nothing is visited, parsed or counted.
   */
  lemma NegativeTimeoutCrawlsNothing(cfg: Config, readings: nat -> int, pages: string -> Page,
                                     startingUrls: seq<string>, ticks0: nat, parsed0: seq<string>)
    requires cfg.timeout < 0
    requires forall i, j :: i <= j ==> readings(i) <= readings(j)
    ensures Assemble(cfg, Run(cfg, readings, pages, startingUrls, ticks0, parsed0)) == CrawlResult(map[], 0)
    ensures Run(cfg, readings, pages, startingUrls, ticks0, parsed0).parsed == parsed0
  {
    var env := RunEnv(cfg, readings, pages, ticks0);
    var s0 := Initial(ticks0, parsed0);
    forall i | s0.ticks <= i
      ensures readings(i) > env.deadline
    {
      assert readings(ticks0) <= readings(i);
    }
    VisitAllPastDeadline(env, startingUrls, cfg.maxDepth, s0);
  }

  /** A small link graph: A links to B and C, B links to D; only A has a word. */
  function ScenarioPage(u: string): Page
  {
    if u == "A" then Page(map["a" := 1], ["B", "C"])
    else if u == "B" then Page(map[], ["D"])
    else Page(map[], [])
  }

  function NoMatch(pattern: string, url: string): bool { false }

  function StoppedClock(i: nat): int { 0 }

  function Unsorted(counts: map<string, int>, k: int): map<string, int> { counts }

  function ScenarioRun(depth: nat): CrawlState
  {
    Run(Config(0, 1, depth, [], NoMatch, Unsorted), StoppedClock, ScenarioPage, ["A"], 0, [])
  }

  function ScenarioEnv(depth: nat): Env
  {
    RunEnv(Config(0, 1, depth, [], NoMatch, Unsorted), StoppedClock, ScenarioPage, 0)
  }

  /** The root task of a scenario crawl claims A and hands its two links down with one less depth. */
  lemma ScenarioRoot(depth: nat)
    requires depth >= 1
    ensures ScenarioRun(depth)
      == VisitAll(ScenarioEnv(depth), ["B", "C"], depth - 1, CrawlState({"A"}, map["a" := 1], 2, ["A"]))
  {
    var env := ScenarioEnv(depth);
    var start := Initial(0, []);
    assert ["A"][..0] == [];
    assert ScenarioRun(depth) == Visit(env, "A", depth, VisitAll(env, [], depth, start));
    assert !Ignored(env, "A") && env.deadline == 0 && env.readings(start.ticks) == 0;
    var claimed := CrawlState(start.visited + {"A"}, Merged(start.counts, env.pages("A").wordCounts),
                              start.ticks + 1, start.parsed + ["A"]);
    assert Visit(env, "A", depth, start) == VisitAll(env, env.pages("A").links, depth - 1, claimed);
    assert Merged(map[], map["a" := 1]) == map["a" := 1];
    assert claimed == CrawlState({"A"}, map["a" := 1], 2, ["A"]);
  }

  /**
   * The depth budget counts tasks, not hops: with maxDepth 1 only the starting URL is
   * visited, because its children get budget 0.
   */
  lemma DepthOneScenario()
    ensures ScenarioRun(1).visited == {"A"} && ScenarioRun(1).counts == map["a" := 1]
  {
    ScenarioRoot(1);
    assert ["B", "C"][..1] == ["B"] && ["B"][..0] == [];
  }

  /** One step of the depth-2 scenario: a task with budget 1 claims a fresh page with no words. */
  lemma ScenarioLeaf(url: string, s: CrawlState)
    requires url != "A" && url !in s.visited && s.counts == map["a" := 1]
    ensures Visit(ScenarioEnv(2), url, 1, s)
      == CrawlState(s.visited + {url}, map["a" := 1], s.ticks + 1, s.parsed + [url])
  {
    var env := ScenarioEnv(2);
    assert !Ignored(env, url);
    assert Merged(map["a" := 1], map[]) == map["a" := 1];
    assert ScenarioPage(url).wordCounts == map[];
    var links := ScenarioPage(url).links;
    assert links == [] || links == ["D"];
    assert ["D"][..0] == [];
  }

  /** With maxDepth 2 the starting URL's links are visited too, and D, two links away, is not. */
  lemma DepthTwoScenario()
    ensures ScenarioRun(2).visited == {"A", "B", "C"} && ScenarioRun(2).counts == map["a" := 1]
  {
    var env := ScenarioEnv(2);
    var claimedA := CrawlState({"A"}, map["a" := 1], 2, ["A"]);
    ScenarioRoot(2);
    assert ["B", "C"][..1] == ["B"] && ["B"][..0] == [];
    ScenarioLeaf("B", claimedA);
    var claimedB := Visit(env, "B", 1, claimedA);
    assert VisitAll(env, ["B"], 1, claimedA) == claimedB;
    ScenarioLeaf("C", claimedB);
  }

  /** A graph where a URL is first claimed with little budget: A links to B and C, B to C, C to D. */
  function CutOffPage(u: string): Page
  {
    if u == "A" then Page(map[], ["B", "C"])
    else if u == "B" then Page(map[], ["C"])
    else if u == "C" then Page(map[], ["D"])
    else Page(map[], [])
  }

  function CutOffConfig(): Config
  {
    Config(0, 1, 3, [], NoMatch, Unsorted)
  }

  function CutOffEnv(): Env
  {
    RunEnv(CutOffConfig(), StoppedClock, CutOffPage, 0)
  }

  /** D is two links from A, so a budget of 3 could reach it. */
  lemma CutOffReach()
    ensures "D" in Reach(CutOffPage, "A", 3)
  {
    assert Reach(CutOffPage, "D", 1) == {"D"};
    assert "D" in Reach(CutOffPage, "C", 2);
    assert "D" in ReachAll(CutOffPage, ["B", "C"], 2);
  }

  /** A task for C with budget 1 claims C and hands D budget 0. */
  lemma CutOffClaimC(s: CrawlState)
    requires "C" !in s.visited && s.counts == map[] && s.ticks >= 1
    ensures Visit(CutOffEnv(), "C", 1, s) == CrawlState(s.visited + {"C"}, map[], s.ticks + 1, s.parsed + ["C"])
  {
    var env := CutOffEnv();
    assert !Ignored(env, "C") && env.readings(s.ticks) <= env.deadline;
    assert Merged(map[], map[]) == map[];
    assert ["D"][..0] == [];
  }

  /** B's task, with budget 2, claims B and then C through its child. */
  lemma CutOffFromB()
    ensures Visit(CutOffEnv(), "B", 2, CrawlState({"A"}, map[], 2, ["A"]))
      == CrawlState({"A", "B", "C"}, map[], 4, ["A", "B", "C"])
  {
    var env := CutOffEnv();
    var sA := CrawlState({"A"}, map[], 2, ["A"]);
    var sB := CrawlState({"A", "B"}, map[], 3, ["A", "B"]);
    assert !Ignored(env, "B") && env.readings(2) <= env.deadline;
    assert Merged(map[], map[]) == map[];
    assert Visit(env, "B", 2, sA) == VisitAll(env, ["C"], 1, sB);
    assert ["C"][..0] == [];
    CutOffClaimC(sB);
  }

  /** A's task claims A and runs one child task per link, each with budget 2. */
  lemma CutOffRoot()
    ensures Run(CutOffConfig(), StoppedClock, CutOffPage, ["A"], 0, [])
      == VisitAll(CutOffEnv(), ["B", "C"], 2, CrawlState({"A"}, map[], 2, ["A"]))
  {
    var env := CutOffEnv();
    var start := Initial(0, []);
    assert ["A"][..0] == [];
    assert Run(CutOffConfig(), StoppedClock, CutOffPage, ["A"], 0, []) == Visit(env, "A", 3, start);
    assert !Ignored(env, "A") && env.readings(start.ticks) <= env.deadline;
    var claimed := CrawlState(start.visited + {"A"}, Merged(start.counts, env.pages("A").wordCounts),
                              start.ticks + 1, start.parsed + ["A"]);
    assert Visit(env, "A", 3, start) == VisitAll(env, env.pages("A").links, 2, claimed);
    assert Merged(map[], map[]) == map[];
    assert claimed == CrawlState({"A"}, map[], 2, ["A"]);
  }

  /**
   * The depth bound is an upper bound only. With maxDepth 3, D is two links from A, yet it is
   * not visited: B's child task claims C with budget 1, so C's own child for D gets budget 0,
   * and A's task for C then finds C already visited.
   */
  lemma DepthCutOffScenario()
    ensures "D" in Reach(CutOffPage, "A", 3)
    ensures Run(CutOffConfig(), StoppedClock, CutOffPage, ["A"], 0, []).visited == {"A", "B", "C"}
  {
    CutOffReach();
    CutOffRoot();
    CutOffFromB();
    var env := CutOffEnv();
    var sA := CrawlState({"A"}, map[], 2, ["A"]);
    var sC := CrawlState({"A", "B", "C"}, map[], 4, ["A", "B", "C"]);
    assert ["B", "C"][..1] == ["B"] && ["B"][..0] == [];
    assert VisitAll(env, ["B", "C"], 2, sA) == Visit(env, "C", 2, sC);
  }
}
