/** The crawl loop of `main`: the search query for each keyword, the
    page-count prompt, and the bounded walk through result pages. The browser
    is replaced by what it would show: for every search URL, the page seen
    after each click on "Next". */
module Crawl {
  import Text
  import opened Extract
  import opened Aggregate

  /** The keywords cross-referenced against the company, in search order. */
  const Keywords: seq<string> := [
    "university of chicago booth",
    "coast guard academy",
    "mckinsey",
    "u.s. coast guard",
    "navy",
    "army",
    "marines",
    "air force",
    "breakline"
  ]

  const SearchPrefix: string := "https://www.linkedin.com/search/results/people/?keywords="
  const SearchSuffix: string := "&origin=GLOBAL_SEARCH_HEADER"

  /** The query text: company and keyword joined by a space, stripped, with
      every space escaped as `%20`. */
  function CombinedQuery(company: string, kw: string): (q: string)
    ensures ' ' !in q
    ensures forall x :: x in q ==> x in "%20" || (x != ' ' && (x in company || x in kw))
  {
    StrippedQueryChars(company, kw);
    Text.ReplaceChar(Text.Strip(company + " " + kw), ' ', "%20")
  }

  /** Stripping the joined words introduces no character. */
  lemma StrippedQueryChars(company: string, kw: string)
    ensures forall x :: x in Text.Strip(company + " " + kw) ==> x in company || x == ' ' || x in kw
  {
    var joined := company + " " + kw;
    Text.StripSubset(joined);
    assert forall x :: x in joined ==> x in company || x == ' ' || x in kw;
  }

  /** A company and keyword that neither start nor end with whitespace are
      escaped separately and joined by a single `%20`: the stripping only
      ever trims the outer ends of the joined text. */
  lemma CombinedQueryOfWords(company: string, kw: string)
    requires |company| > 0 && |kw| > 0
    requires !Text.IsSpace(company[0]) && !Text.IsSpace(company[|company| - 1])
    requires !Text.IsSpace(kw[0]) && !Text.IsSpace(kw[|kw| - 1])
    ensures CombinedQuery(company, kw) ==
      Text.ReplaceChar(company, ' ', "%20") + "%20" + Text.ReplaceChar(kw, ' ', "%20")
  {
    var s := company + " " + kw;
    assert s[0] == company[0] && s[|s| - 1] == kw[|kw| - 1];
    assert Text.Strip(s) == s;
    Text.ReplaceCharAppend(company + " ", kw, ' ', "%20");
    Text.ReplaceCharAppend(company, " ", ' ', "%20");
    assert Text.ReplaceChar(" ", ' ', "%20") == "%20";
  }

  /** The people-search URL requested for one keyword: the query sits
      between the fixed prefix and suffix and can be read back from there. */
  function SearchUrl(company: string, kw: string): (url: string)
    ensures SearchPrefix <= url
    ensures |url| == |SearchPrefix| + |CombinedQuery(company, kw)| + |SearchSuffix|
    ensures url[|SearchPrefix|..|url| - |SearchSuffix|] == CombinedQuery(company, kw)
    ensures url[|url| - |SearchSuffix|..] == SearchSuffix
  {
    SearchPrefix + CombinedQuery(company, kw) + SearchSuffix
  }

  /** `prompt_int`: a response that is all digits once stripped is read as a
      number and clamped to `[minV, maxV]`; any other response, the empty
      one included, gives `default`. With an empty range (`maxV < minV`) the
      clamp gives `minV`, since `max` is applied last. */
  function PromptInt(response: string, default: int, minV: int, maxV: int): (v: int)
    ensures !Text.IsDigits(Text.Strip(response)) ==> v == default
    ensures Text.IsDigits(Text.Strip(response)) ==>
      var n := Text.ParseNat(Text.Strip(response));
      && (minV <= maxV ==> minV <= v <= maxV)
      && (minV <= n <= maxV ==> v == n)
      && (n < minV ==> v == minV)
      && (maxV < n && minV <= maxV ==> v == maxV)
      && (maxV < minV ==> v == minV)
  {
    var resp := Text.Strip(response);
    if Text.IsDigits(resp) then
      var n := Text.ParseNat(resp);
      Max(minV, Min(n, maxV))
    else default
  }

  function Min(a: int, b: int): int {
    if a <= b then a else b
  }

  function Max(a: int, b: int): int {
    if a >= b then a else b
  }

  /** Typing an in-range number gives back that number. */
  lemma PromptIntEchoes(n: nat, default: int, minV: int, maxV: int)
    requires minV <= n <= maxV
    ensures PromptInt(Text.ShowNat(n), default, minV, maxV) == n
  {
    var s := Text.ShowNat(n);
    assert !Text.IsSpace(s[0]) && !Text.IsSpace(s[|s| - 1]);
    Text.ParseShowNat(n);
  }

  /** The pages-per-keyword prompt of `main`: default 3, range 1 to 10. */
  function PagesPerKeyword(response: string): (n: int)
    ensures 1 <= n <= 10
    ensures !Text.IsDigits(Text.Strip(response)) ==> n == 3
  {
    PromptInt(response, 3, 1, 10)
  }

  /** What happened when the loop tried to go to the next result page. */
  datatype NextButton = Missing | ClickFailed | Clicked

  /** One rendered result page: its candidate links and the "Next" outcome. */
  datatype Page = Page(links: seq<Link>, next: NextButton)

  /** How many pages the loop reads from page index `i` on, having read
      pages `0 .. i-1` and clicked "Next" on each of them. */
  function PagesVisitedFrom(pages: nat -> Page, i: nat, numPages: int): (n: nat)
    ensures i >= numPages ==> n == i
    ensures i < numPages ==> i < n <= numPages
    ensures forall j :: i <= j < n - 1 ==> pages(j).next == Clicked
    ensures i < n < numPages ==> pages(n - 1).next != Clicked
    decreases numPages - i
  {
    if i >= numPages then i
    else if pages(i).next == Clicked then PagesVisitedFrom(pages, i + 1, numPages)
    else i + 1
  }

  /** How many pages the loop reads for one keyword: at most `numPages`,
      even when "Next" is always there, and it stops right after the first
      page whose "Next" is missing or cannot be clicked. */
  function PagesVisited(pages: nat -> Page, numPages: int): (n: nat)
    ensures numPages <= 0 ==> n == 0
    ensures numPages > 0 ==> 1 <= n <= numPages
    ensures forall j :: 0 <= j < n - 1 ==> pages(j).next == Clicked
    ensures 0 < n < numPages ==> pages(n - 1).next != Clicked
  {
    PagesVisitedFrom(pages, 0, numPages)
  }

  /** The stopping rule determines the count: any count obeying it is
      `PagesVisited`. */
  lemma PagesVisitedUnique(pages: nat -> Page, numPages: int, n: nat)
    requires numPages <= 0 ==> n == 0
    requires numPages > 0 ==> 1 <= n <= numPages
    requires forall j :: 0 <= j < n - 1 ==> pages(j).next == Clicked
    requires 0 < n < numPages ==> pages(n - 1).next != Clicked
    ensures n == PagesVisited(pages, numPages)
  {
  }

  /** The batches one keyword's first `n` pages yield. */
  function KeywordBatches(kw: string, pages: nat -> Page, n: nat): (bs: seq<Batch>)
    ensures |bs| == n
    ensures forall i :: 0 <= i < n ==> bs[i] == Batch(kw, ParseCards(pages(i).links))
  {
    seq(n, i requires 0 <= i < n => Batch(kw, ParseCards(pages(i).links)))
  }

  /** Reading one more page adds that page's batch at the end. */
  lemma KeywordBatchesSnoc(kw: string, pages: nat -> Page, n: nat)
    ensures KeywordBatches(kw, pages, n + 1) ==
      KeywordBatches(kw, pages, n) + [Batch(kw, ParseCards(pages(n).links))]
  {
    var longer := KeywordBatches(kw, pages, n + 1);
    var shorter := KeywordBatches(kw, pages, n) + [Batch(kw, ParseCards(pages(n).links))];
    assert |longer| == |shorter|;
    forall i | 0 <= i < n + 1
      ensures longer[i] == shorter[i]
    {
      if i < n {
        assert shorter[i] == KeywordBatches(kw, pages, n)[i];
      }
    }
  }

  /** Reading one more page merges that page's records into the run so far. */
  lemma KeywordBatchesStep(p: Profiles, kw: string, pages: nat -> Page, n: nat)
    ensures Run(p, KeywordBatches(kw, pages, n + 1)) ==
      MergeBatch(Run(p, KeywordBatches(kw, pages, n)), ParseCards(pages(n).links), kw)
  {
    KeywordBatchesSnoc(kw, pages, n);
    RunSnoc(p, KeywordBatches(kw, pages, n), Batch(kw, ParseCards(pages(n).links)));
  }

  /** The page loop for one keyword (script.py:152-180): reads a page, merges
      its records, then stops unless "Next" was clicked, for at most
      `numPages` pages. */
  method CrawlKeyword(p: Profiles, kw: string, numPages: int, pages: nat -> Page)
    returns (q: Profiles, visited: nat)
    ensures visited == PagesVisited(pages, numPages)
    ensures q == Run(p, KeywordBatches(kw, pages, visited))
  {
    q := p;
    visited := 0;
    var page := 1;
    while page <= numPages
      invariant visited == page - 1
      invariant PagesVisitedFrom(pages, visited, numPages) == PagesVisited(pages, numPages)
      invariant q == Run(p, KeywordBatches(kw, pages, visited))
    {
      var current := pages(page - 1);
      var cards := ParseCards(current.links);
      KeywordBatchesStep(p, kw, pages, visited);
      q := MergeBatch(q, cards, kw);
      visited := page;
      if current.next != Clicked {
        assert visited == PagesVisited(pages, numPages);
        break;
      }
      page := page + 1;
    }
  }

  /** What the browser shows after navigating to a search URL and clicking
      "Next" `i` times, for every URL and `i`. */
  type Browser = (string, nat) -> Page

  /** The pages seen for one search URL. */
  function PagesFor(browser: Browser, url: string): nat -> Page {
    (i: nat) => browser(url, i)
  }

  /** The batches of one keyword's search. */
  function SearchBatches(company: string, kw: string, numPages: int, browser: Browser): seq<Batch> {
    var pages := PagesFor(browser, SearchUrl(company, kw));
    KeywordBatches(kw, pages, PagesVisited(pages, numPages))
  }

  /** Every batch of one keyword's search carries that keyword. */
  lemma SearchBatchesKeyword(company: string, kw: string, numPages: int, browser: Browser)
    ensures forall b :: b in SearchBatches(company, kw, numPages, browser) ==> b.keyword == kw
  {
    var bs := SearchBatches(company, kw, numPages, browser);
    assert forall i :: 0 <= i < |bs| ==> bs[i].keyword == kw;
  }

  /** The batches of a whole crawl, keyword after keyword. */
  function CrawlBatches(company: string, keywords: seq<string>, numPages: int, browser: Browser)
    : (bs: seq<Batch>)
    ensures forall b :: b in bs ==> b.keyword in keywords
  {
    if |keywords| == 0 then []
    else
      var init := keywords[..|keywords| - 1];
      var kw := keywords[|keywords| - 1];
      var earlier := CrawlBatches(company, init, numPages, browser);
      var last := SearchBatches(company, kw, numPages, browser);
      SearchBatchesKeyword(company, kw, numPages, browser);
      assert forall k :: k in init ==> k in keywords;
      earlier + last
  }

  /** The keyword loop of `main` (script.py:141-180): every keyword's search is
      walked page by page and merged into one profile map, so every profile
      found carries the keywords it was found under, and only those. */
  method Crawl(company: string, keywords: seq<string>, numPages: int, browser: Browser)
    returns (profiles: Profiles)
    ensures profiles == Run(map[], CrawlBatches(company, keywords, numPages, browser))
    ensures profiles.Keys == AllUrls(CrawlBatches(company, keywords, numPages, browser))
    ensures forall u :: u in profiles ==>
      profiles[u].keywords == MatchedKeywords(CrawlBatches(company, keywords, numPages, browser), u)
    ensures forall u, k :: u in profiles && k in profiles[u].keywords ==> k in keywords
  {
    profiles := map[];
    var i := 0;
    while i < |keywords|
      invariant 0 <= i <= |keywords|
      invariant profiles == Run(map[], CrawlBatches(company, keywords[..i], numPages, browser))
    {
      var kw := keywords[i];
      var before := CrawlBatches(company, keywords[..i], numPages, browser);
      var prev := profiles;
      var pages := PagesFor(browser, SearchUrl(company, kw));
      var visited;
      profiles, visited := CrawlKeyword(profiles, kw, numPages, pages);
      assert profiles == Run(prev, SearchBatches(company, kw, numPages, browser));
      assert keywords[..i + 1][..i] == keywords[..i];
      assert CrawlBatches(company, keywords[..i + 1], numPages, browser)
        == before + SearchBatches(company, kw, numPages, browser);
      RunConcat(map[], before, SearchBatches(company, kw, numPages, browser));
      i := i + 1;
    }
    assert keywords[..i] == keywords;
    CrawlFromEmpty(company, keywords, numPages, browser);
  }

  /** What the crawl's pages build from no profiles: the identities seen,
      each under exactly the keywords that found it, all from the list. */
  lemma CrawlFromEmpty(company: string, keywords: seq<string>, numPages: int, browser: Browser)
    ensures var bs := CrawlBatches(company, keywords, numPages, browser);
      && Run(map[], bs).Keys == AllUrls(bs)
      && (forall u :: u in Run(map[], bs) ==> Run(map[], bs)[u].keywords == MatchedKeywords(bs, u))
      && (forall u, k :: u in Run(map[], bs) && k in Run(map[], bs)[u].keywords ==> k in keywords)
  {
    RunFromEmpty(CrawlBatches(company, keywords, numPages, browser));
  }
}
