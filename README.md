# UdaciSearch crawler core and profiler state, modelled in Dafny

This project models two pieces of the UdaciSearch web crawler.

**The crawl.** `ParallelWebCrawler.crawl` sets a deadline and starts from an empty visited set and empty word counts. It then runs one root `crawlInternalAction` per starting URL.
Each task stops early in four cases: its depth budget is 0, the clock reads strictly after the deadline, an ignore pattern matches its URL, or its URL is already visited.
Otherwise the task claims the URL and adds the page's word counts into the shared counts. It then builds one child task per outbound link with one less depth and runs them all.
The crawl reports the word counts and the size of the visited set. Empty counts are returned unchanged; other counts go through `WordCounts.sort`.

**The profiler.** `ProfilingState` keeps three maps keyed by `"Class#method"`: total duration, the ids of the threads that ran the method, and the number of calls. `write` emits each map as lines sorted by key.

## How the model is built

- `Collaborators` holds the injected clock and the page parser as two classes.
  - `Clock`: its i-th reading is `readings(i)` for an arbitrary function. A clock that stands still, runs forward or runs backwards is a special case.
  - `PageSource`: what parsing a URL yields is an arbitrary function `pages`. The class also logs every parse call, so "parsed at most once" can be stated.
- `CrawlTask` holds the task.
  - `CrawlAction` is a class. Its constant fields are the Java fields.
  - `Compute` checks the guards in source order, claims the URL (`SharedState.Add`), merges the counts (`MergeWordCounts`), builds the child actions (`ChildActions`) and runs them (`InvokeAll`).
  - `Compute` is proved equal to the function `Visit` applied to the state before. `VisitAll` runs a list of sibling tasks in list order.
  - The lemmas about `Visit` and `VisitAll` state what the source promises. They are invariant preservation, growth only, the depth bound, filter exclusion and the deadline.
- `WebCrawler` holds the coordinator.
  - `ParallelWebCrawler.Crawl` is proved equal to `Assemble(Run(...))`.
  - The lemmas about `Run` cover a whole crawl.
- `Profiler` holds `ProfilingState`, a `Writer` that records the strings written to it, the two formatting helpers, the three line renderings and the report.
- `Strings` holds Java's natural string order, sorting a key set in that order, and decimal numerals.

The ignore patterns are a sequence of pattern strings with an abstract full-match relation `matches(pattern, url)`. Instants and durations are integers (nanoseconds for the profiler).

### Behaviour of the code worth knowing

- Depth budget. A task with budget 1 visits its own URL, but its children get budget 0 and return at once. So `maxDepth = d` visits only URLs fewer than `d` links from a start URL, and not necessarily all of them. With A → B, C and B → D, `maxDepth = 1` visits only A, and `maxDepth = 2` visits A, B and C but not D (`DepthOneScenario`, `DepthTwoScenario`). A URL first claimed with a small budget is not explored again with a larger one. With A → B, C; B → C; C → D and `maxDepth = 3`, D is two links from A, but it is not visited. B's task claims C with budget 1, so C's child for D gets budget 0, and A's own task for C then finds C already visited (`DepthCutOffScenario`).
- Deadline. The check is `isAfter`, which is strict. A reading equal to the deadline proceeds, and a zero timeout with a clock that has not moved still crawls (`ZeroTimeoutStillCrawls`). Nothing is visited when the timeout is negative and the clock never runs backwards (`NegativeTimeoutCrawlsNothing`).
- Parse failures. Nothing in `compute` catches a parser exception. An exception from `parse()` escapes `compute`, is rethrown by `invokeAll` and by `pool.invoke`, and so makes `crawl` itself throw. It does not abandon only one branch. The model has no failure path.

## Model

| member | source | states |
|---|---|---|
| CrawlTask.CrawlAction.Compute | starter/webcrawler/src/main/java/com/udacity/webcrawler/crawlInternalAction.java:93-117 | The new visited set, counts, clock position and parse log equal `Visit` of the old ones. This covers every guard, the claim, the merge and the fan-out. |
| CrawlTask.VisitGuards | starter/webcrawler/src/main/java/com/udacity/webcrawler/crawlInternalAction.java:94-105 | Depth 0 changes nothing and reads no clock. A reading strictly after the deadline, an ignored URL or an already visited URL changes nothing but the one clock reading: no claim and no parse. A reading equal to the deadline with the other guards passing claims the URL, and its parse is the next log entry. |
| CrawlTask.AnyPatternMatches | starter/webcrawler/src/main/java/com/udacity/webcrawler/crawlInternalAction.java:97-101 | The pattern loop returns true exactly when some ignore pattern matches the URL. |
| CrawlTask.SharedState.constructor | starter/webcrawler/src/main/java/com/udacity/webcrawler/ParallelWebCrawler.java:56-57 | A crawl's shared state starts with an empty visited set and empty counts. |
| CrawlTask.SharedState.Add | starter/webcrawler/src/main/java/com/udacity/webcrawler/crawlInternalAction.java:102 | Set.add inserts the URL and reports true exactly when it was absent. Counts are untouched. |
| CrawlTask.SharedState.Merge | starter/webcrawler/src/main/java/com/udacity/webcrawler/crawlInternalAction.java:108 | merge with Integer::sum: the word's count becomes its old count (0 if absent) plus n. |
| CrawlTask.CrawlAction.MergeWordCounts | starter/webcrawler/src/main/java/com/udacity/webcrawler/crawlInternalAction.java:107-109 | After the loop, counts are `Merged(old counts, page counts)`. The visited set is unchanged. |
| CrawlTask.MergedIsAdditive | starter/webcrawler/src/main/java/com/udacity/webcrawler/crawlInternalAction.java:107-109 | Each word's merged count is its old count plus the page's count, with 0 for absent. A key is present afterwards iff it was present before or is on the page, so keys not on the page keep their values. |
| CrawlTask.CrawlAction.constructor | starter/webcrawler/src/main/java/com/udacity/webcrawler/crawlInternalAction.java:28-42 | A task holds exactly the URL, deadline, depth, shared state, clock, patterns and parser it is given. |
| CrawlTask.CrawlAction.ChildActions | starter/webcrawler/src/main/java/com/udacity/webcrawler/crawlInternalAction.java:111-115 | There is one child per link, in link order. Each child has that link, `maxDepth-1`, and the same deadline, shared state, clock, patterns and parser. |
| CrawlTask.CrawlAction.InvokeAll | starter/webcrawler/src/main/java/com/udacity/webcrawler/crawlInternalAction.java:113-116 | Running the children one after another gives `VisitAll` of the links with one less depth. |
| CrawlTask.ClaimKeepsConsistent | starter/webcrawler/src/main/java/com/udacity/webcrawler/crawlInternalAction.java:102-109 | Claiming an unvisited URL, logging its parse and merging its page keeps the invariant `Consistent`. |
| CrawlTask.VisitKeepsConsistent | starter/webcrawler/src/main/java/com/udacity/webcrawler/crawlInternalAction.java:93-117 | Every task keeps `Consistent`. Each visited URL was parsed exactly once and nothing else was parsed. Each word's count is the sum of its page counts over the visited URLs. The counts' keys are exactly the words of the visited pages. |
| CrawlTask.VisitAllKeepsConsistent | starter/webcrawler/src/main/java/com/udacity/webcrawler/crawlInternalAction.java:111-116 | A list of sibling tasks keeps `Consistent`. |
| CrawlTask.TotalInsert | starter/webcrawler/src/main/java/com/udacity/webcrawler/crawlInternalAction.java:102-109 | Adding a new URL to the visited set adds exactly its page's count to each word's total. |
| CrawlTask.VisitGrows | starter/webcrawler/src/main/java/com/udacity/webcrawler/crawlInternalAction.java:94-116 | The visited set only grows, count keys are never removed, the parse log is only extended and clock readings are only consumed (the reading count never decreases; the readings themselves may run backwards). |
| CrawlTask.VisitAllGrows | starter/webcrawler/src/main/java/com/udacity/webcrawler/crawlInternalAction.java:111-116 | The same growth holds for a list of sibling tasks. |
| CrawlTask.VisitBounded | starter/webcrawler/src/main/java/com/udacity/webcrawler/crawlInternalAction.java:94-114 | Every URL a task newly visits is fewer than its depth links from its URL (depth bound), and no ignore pattern matches it (filter exclusion). |
| CrawlTask.VisitAllBounded | starter/webcrawler/src/main/java/com/udacity/webcrawler/crawlInternalAction.java:111-116 | The same depth bound and filter exclusion hold for a list of sibling tasks. |
| CrawlTask.VisitPastDeadline | starter/webcrawler/src/main/java/com/udacity/webcrawler/crawlInternalAction.java:94 | If every remaining clock reading is after the deadline, a task leaves visited, counts and the parse log unchanged. |
| CrawlTask.VisitAllPastDeadline | starter/webcrawler/src/main/java/com/udacity/webcrawler/crawlInternalAction.java:94 | The same holds for any list of tasks. |
| Collaborators.Clock.Instant | starter/webcrawler/src/main/java/com/udacity/webcrawler/crawlInternalAction.java:94 | `clock.instant()` returns the next reading of the clock. |
| Collaborators.PageSource.Parse | starter/webcrawler/src/main/java/com/udacity/webcrawler/crawlInternalAction.java:105 | Parsing returns the URL's page and appends the URL to the parse log. |
| WebCrawler.ParallelWebCrawler.constructor | starter/webcrawler/src/main/java/com/udacity/webcrawler/ParallelWebCrawler.java:34-50 | The crawler holds exactly the clock, timeout, popular-word count, depth, parser, patterns and sorter it is given. |
| WebCrawler.ParallelWebCrawler.Crawl | starter/webcrawler/src/main/java/com/udacity/webcrawler/ParallelWebCrawler.java:54-84 | The result is `Assemble(Run(...))`. The deadline is one clock reading at entry (line 55) plus the timeout. The state starts empty on every call. One root task per start URL runs in list order with the full depth. |
| WebCrawler.CrawlSound | starter/webcrawler/src/main/java/com/udacity/webcrawler/ParallelWebCrawler.java:56-82 | After a crawl the state is `Consistent` for this crawl's parse calls. No visited URL is ignored, and each is fewer than maxDepth links from some start URL. `urlsVisited` is the size of the visited set. Empty counts are reported as the empty map. |
| WebCrawler.NoStartingUrls | starter/webcrawler/src/main/java/com/udacity/webcrawler/ParallelWebCrawler.java:60-77 | No starting URLs gives empty word counts and 0 URLs visited. |
| WebCrawler.ZeroTimeoutStillCrawls | starter/webcrawler/src/main/java/com/udacity/webcrawler/crawlInternalAction.java:94 | With timeout 0 and a clock that has not moved, a start URL that no pattern ignores is visited, because `isAfter` is strict. |
| WebCrawler.NegativeTimeoutCrawlsNothing | starter/webcrawler/src/main/java/com/udacity/webcrawler/ParallelWebCrawler.java:55-77 | With a negative timeout and a clock that never runs backwards, nothing is parsed and the result is empty counts with 0 visited. |
| WebCrawler.DepthOneScenario | starter/webcrawler/src/main/java/com/udacity/webcrawler/crawlInternalAction.java:94-114 | With A → B, C and B → D and maxDepth 1, only A is visited. |
| WebCrawler.DepthTwoScenario | starter/webcrawler/src/main/java/com/udacity/webcrawler/crawlInternalAction.java:94-114 | With the same graph and maxDepth 2, exactly A, B and C are visited. |
| WebCrawler.CutOffReach | starter/webcrawler/src/main/java/com/udacity/webcrawler/crawlInternalAction.java:111-114 | In the graph A → B, C; B → C; C → D, D is within two links of A, so inside the depth bound for maxDepth 3. |
| WebCrawler.DepthCutOffScenario | starter/webcrawler/src/main/java/com/udacity/webcrawler/crawlInternalAction.java:94-116 | With that graph and maxDepth 3, D lies inside the depth bound, yet the crawl visits exactly A, B and C: the depth bound is an upper bound only. |
| Profiler.ProfilingState.constructor | starter/webcrawler/src/main/java/com/udacity/webcrawler/profiler/ProfilingState.java:16-18 | The three maps start empty, with the same (empty) key set. |
| Profiler.ProfilingState.Record | starter/webcrawler/src/main/java/com/udacity/webcrawler/profiler/ProfilingState.java:27-39 | A negative elapsed time fails and leaves all three maps unchanged. Otherwise the key's total becomes old plus elapsed (or elapsed), its call count old plus 1 (or 1), and its threads old + " " + id (or id). All other keys are unchanged, and the three maps keep one key set. |
| Profiler.ProfilingState.Write | starter/webcrawler/src/main/java/com/udacity/webcrawler/profiler/ProfilingState.java:49-84 | The writer receives exactly `Report(data, threads, freq)` after what it already held. |
| Profiler.WriteSections | starter/webcrawler/src/main/java/com/udacity/webcrawler/profiler/ProfilingState.java:75-83 | The three loops write the data entries, then the thread entries, then the call-count entries. |
| Profiler.WriteAll | starter/webcrawler/src/main/java/com/udacity/webcrawler/profiler/ProfilingState.java:75-77 | One loop writes every entry in order. |
| Profiler.Writer.Write | starter/webcrawler/src/main/java/com/udacity/webcrawler/profiler/ProfilingState.java:76 | `writer.write` appends one string. |
| Profiler.ReportLayout | starter/webcrawler/src/main/java/com/udacity/webcrawler/profiler/ProfilingState.java:50-83 | Take three maps with one key set, ks their keys in strictly ascending order, and n keys. The report has 3n lines. Line i is the total time of ks[i], line n+i its threads and line 2n+i its call count. |
| Profiler.ProfilingState.ValidReportLayout | starter/webcrawler/src/main/java/com/udacity/webcrawler/profiler/ProfilingState.java:50-83 | For a state whose three maps share their keys, as `record` keeps them, the report has that layout: each method's total, threads and call count at lines i, n+i and 2n+i. |
| Profiler.DataLine | starter/webcrawler/src/main/java/com/udacity/webcrawler/profiler/ProfilingState.java:54 | A data line starts with the key and " took ", ends with the line separator, and the text between reads back as the total's minutes, seconds part and millis part. Since the reader accepts only numerals without leading zeros, that text is exactly the one `formatDuration` writes (`ParseDurationExact`). |
| Profiler.ThreadLine | starter/webcrawler/src/main/java/com/udacity/webcrawler/profiler/ProfilingState.java:61 | A thread line starts with the key and " executed on threads ", ends with the line separator, and holds exactly the thread ids between. |
| Profiler.FreqLine | starter/webcrawler/src/main/java/com/udacity/webcrawler/profiler/ProfilingState.java:68 | A call-count line starts with the key and " was executed for ", ends with " times " and the line separator, and holds a numeral between, with no leading zero, whose value is the call count. |
| Profiler.LinesAt | starter/webcrawler/src/main/java/com/udacity/webcrawler/profiler/ProfilingState.java:50-69 | The i-th entry of a sorted-entry list renders the i-th key and its value. |
| Profiler.FormatMethodCall | starter/webcrawler/src/main/java/com/udacity/webcrawler/profiler/ProfilingState.java:93-95 | The key is the class name, '#', then the method name. |
| Profiler.MethodCallKeyInjective | starter/webcrawler/src/main/java/com/udacity/webcrawler/profiler/ProfilingState.java:35 | For class names without '#', distinct (class, method) pairs give distinct keys. So each key aggregates one method only. |
| Profiler.Parts | starter/webcrawler/src/main/java/com/udacity/webcrawler/profiler/ProfilingState.java:100-103 | The seconds part is in 0..59 and the millis part in 0..999. Whole minutes, seconds part and millis part recompose the duration's whole milliseconds. |
| Profiler.FormatDuration | starter/webcrawler/src/main/java/com/udacity/webcrawler/profiler/ProfilingState.java:100-103 | The duration is rendered as "<m>m <s>s <ms>ms", and reading that text back gives exactly its minutes (`Parts`), seconds part and millis part. The reader takes numerals without leading zeros only, so no other text reads back as those parts (`ParseDurationExact`). |
| Profiler.DurationTextRoundTrip | starter/webcrawler/src/main/java/com/udacity/webcrawler/profiler/ProfilingState.java:102 | Any three parts written as "%sm %ss %sms" read back as the same three numbers. |
| Profiler.ParseFieldExact | starter/webcrawler/src/main/java/com/udacity/webcrawler/profiler/ProfilingState.java:102 | A field that reads back as value v followed by its unit and a rest is exactly the numeral `%s` writes for v, the unit, then the rest. |
| Profiler.ParseDurationExact | starter/webcrawler/src/main/java/com/udacity/webcrawler/profiler/ProfilingState.java:100-103 | Only the text `formatDuration` writes for three parts reads back as those parts: parsing is the exact inverse of the format. |
| Profiler.ThreeOneSecondCalls | starter/webcrawler/src/main/java/com/udacity/webcrawler/profiler/ProfilingState.java:44-47 | Three one-second records of one method total 3 seconds, which splits into 0 minutes, 3 seconds and 0 milliseconds, so the data line reads back as "0m 3s 0ms". |
| Strings.SortKeys | starter/webcrawler/src/main/java/com/udacity/webcrawler/profiler/ProfilingState.java:53 | Sorting the entries by key gives `SortedKeys` of the key set. |
| Strings.SortedKeysMembers | starter/webcrawler/src/main/java/com/udacity/webcrawler/profiler/ProfilingState.java:53 | The sorted keys list every key once and nothing else. |
| Strings.SortedKeysSorted | starter/webcrawler/src/main/java/com/udacity/webcrawler/profiler/ProfilingState.java:53 | The sorted keys list every key once, nothing else, in strictly ascending order. |
| Strings.LessIrreflexive | starter/webcrawler/src/main/java/com/udacity/webcrawler/profiler/ProfilingState.java:53 | No key sorts before itself. |
| Strings.LessTransitive | starter/webcrawler/src/main/java/com/udacity/webcrawler/profiler/ProfilingState.java:53 | The key order is transitive. |
| Strings.LessTotal | starter/webcrawler/src/main/java/com/udacity/webcrawler/profiler/ProfilingState.java:53 | Any two distinct keys are ordered one way or the other. |
| Strings.DecimalString | starter/webcrawler/src/main/java/com/udacity/webcrawler/profiler/ProfilingState.java:102 | `%s` of a non-negative number is a non-empty numeral with no leading zero. |
| Strings.CanonicalNumeral | starter/webcrawler/src/main/java/com/udacity/webcrawler/profiler/ProfilingState.java:102 | Every non-empty numeral without a leading zero is the `%s` text of its own value. |
| Strings.DecimalRoundTrip | starter/webcrawler/src/main/java/com/udacity/webcrawler/profiler/ProfilingState.java:102 | The numeral's value is the number. |

## Left out

- Concurrency. The ForkJoinPool, its size `min(threadCount, availableProcessors)`, `invokeAll`'s parallel fork and join, and the concurrent collections are left out. The model fixes one schedule: depth-first, children in link order, root tasks in list order. Under other interleavings, the depth at which a shared URL is first claimed, and so what is explored below it, can differ. The model does not cover them.
- CrawlTask.CrawlAction.Compute: `maxDepth` is a `nat`. With a negative `maxDepth` the Java task never meets `maxDepth == 0` and recurses until the deadline or until every reachable URL is visited. The model does not cover that case.
- CrawlTask.CrawlAction.constructor: the task's `maxDepth` field is a `nat`, narrowing Java's `int`, for the reason above.
- WebCrawler.ParallelWebCrawler.constructor: the crawler's `maxDepth` field, and `WebCrawler.Config.maxDepth` which `Crawl` and `Run` use, are `nat`, narrowing Java's `int`. A negative configured depth is not covered.
- Regular expressions are not modelled. The relation `matches(pattern, url)` stands for `pattern.matcher(url).matches()`.
- HTML fetching and parsing are not modelled. A page is a function of its URL. Parser exceptions are not modelled. The code has no handler for them: one escapes `compute`, is rethrown by `invokeAll` and `pool.invoke`, and makes the whole `crawl` call throw.
- `WordCounts.sort` is not part of this model. It is the constructor argument `sortWords`, so the result's iteration order (the popular-word ranking and its tie-break) is not modelled.
- Java `int`/`long` limits are not modelled. Overflow in `Integer::sum`, in the call counter, in `visitedUrls.size()` and in `Duration.plus` is outside the model. So is the exception `Instant.plus` throws when the deadline (ParallelWebCrawler.java:55) would pass `Instant.MAX`. Counts, durations and instants are unbounded integers.
- `Objects.requireNonNull` checks are absent, since the model has no null values.
- `Writer` I/O and its `IOException` are not modelled. `System.lineSeparator()` is the fixed `"\n"`.
- Strings.Less: Dafny characters are Unicode scalar values, while `String.compareTo` compares UTF-16 code units. The two orders differ only for characters outside the Basic Multilingual Plane against characters U+E000–U+FFFF.
- `ProfilingMethodInterceptor` (reflection, proxies and annotation lookup) is not part of this model. Its 3-argument call to `record` does not match the 4-argument `record` shown here.
- The Builder is not modelled separately. It only assigns fields, and the `CrawlAction` constructor takes the same values.
- Clock readings are a function of how many readings came before. Real time is not modelled, and neither is which thread reads the clock.
