/**
 * The two collaborators the crawler only calls into: the injected java.time.Clock and
 * the page parser (PageParserFactory.get(url).parse()). Fetching and HTML parsing are
 * not modelled; what a page yields is an abstract function of its URL.
 */
module Collaborators {

  /** What parsing one page yields: its word counts and its outbound links, in order. */
  datatype Page = Page(wordCounts: map<string, int>, links: seq<string>)

  /**
   * A clock whose i-th reading (counting from 0 over the clock's lifetime) is readings(i).
   * Any schedule of readings is allowed, including one that stands still or runs backwards.
   */
  class Clock {
    const readings: nat -> int
    var ticks: nat

    constructor (readings: nat -> int)
      ensures this.readings == readings && ticks == 0
    {
      this.readings := readings;
      ticks := 0;
    }

    /** Clock.instant(): the next reading. */
    method Instant() returns (t: int)
      modifies this
      ensures t == readings(old(ticks)) && ticks == old(ticks) + 1
    {
      t := readings(ticks);
      ticks := ticks + 1;
    }
  }

  /**
   * The page parser, with a log of the URLs it has been asked to parse, in call order.
   * The log is how the model observes how often a URL is fetched.
   */
  class PageSource {
    const pages: string -> Page
    var parsed: seq<string>

    constructor (pages: string -> Page)
      ensures this.pages == pages && parsed == []
    {
      this.pages := pages;
      parsed := [];
    }

    /** parserFactory.get(url).parse() */
    method Parse(url: string) returns (page: Page)
      modifies this
      ensures page == pages(url) && parsed == old(parsed) + [url]
    {
      page := pages(url);
      parsed := parsed + [url];
    }
  }
}
