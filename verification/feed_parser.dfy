/** Feed ingestion: mapping raw feed entries to news items, with per-feed failure capture. */
module FeedParser {
  import opened Wrappers
  import opened Seqs
  import opened Text
  import opened Types
  import opened Hash

  /** A raw entry as the RSS/Atom parser returns it; every field may be absent. */
  datatype RawItem = RawItem(
    title: Option<string>,
    link: Option<string>,
    contentSnippet: Option<string>,
    content: Option<string>,
    summary: Option<string>,
    contentEncoded: Option<string>,
    description: Option<string>,
    pubDate: Option<string>,
    isoDate: Option<string>)

  /**
   * What fetching and parsing a feed URL produced: the parsed entry list (possibly missing),
   * or a thrown value, carrying a message when it is an `Error`.
   */
  datatype FetchOutcome = Fetched(items: Option<seq<RawItem>>) | FetchFailed(errorMessage: Option<string>)

  /** `FeedParseResult`: the items, and an error message when the feed failed. */
  datatype FeedParseResult = FeedParseResult(items: seq<NewsItem>, error: Option<string>)

  const UNTITLED := "Untitled"
  const UNKNOWN_ERROR := "Unknown error"

  /** The per-entry mapping of `parseFeed`; `nowIso` is the current time, used when the entry has no date. */
  function ToNewsItem(raw: RawItem, feed: FeedConfig, sha: Sha256, nowIso: string): (r: NewsItem)
    ensures r.id == GenerateItemId(sha, feed.name, Or(raw.link, ""), Or(raw.title, ""))
    ensures raw.title.Some? && raw.title.value != "" ==> r.title == raw.title.value
    ensures raw.title.None? || raw.title.value == "" ==> r.title == UNTITLED
    ensures r.description == Or(raw.contentSnippet, Or(raw.content, Or(raw.summary, "")))
    ensures r.content == Some(Or(raw.content, Or(raw.contentEncoded, Or(raw.description, ""))))
    ensures r.link == Or(raw.link, "")
    ensures r.pubDate == Or(raw.pubDate, Or(raw.isoDate, nowIso))
    ensures r.source == feed.name && r.sourceUrl == feed.url
    ensures r.matchedKeywords == [] && r.topics == []
  {
    NewsItem(
      GenerateItemId(sha, feed.name, Or(raw.link, ""), Or(raw.title, "")),
      Or(raw.title, UNTITLED),
      Or(raw.contentSnippet, Or(raw.content, Or(raw.summary, ""))),
      Some(Or(raw.content, Or(raw.contentEncoded, Or(raw.description, "")))),
      Or(raw.link, ""),
      Or(raw.pubDate, Or(raw.isoDate, nowIso)),
      feed.name,
      feed.url,
      [],
      [])
  }

  /**
   * The id hashes the raw title, not the displayed `Untitled`: an untitled entry and an entry
   * literally titled "Untitled" look the same but hash different keys.
   */
  lemma UntitledIdUsesRawTitle(raw: RawItem, feed: FeedConfig, sha: Sha256, nowIso: string)
    requires raw.title.None?
    ensures ToNewsItem(raw, feed, sha, nowIso).title == ToNewsItem(raw.(title := Some(UNTITLED)), feed, sha, nowIso).title
    ensures ToNewsItem(raw, feed, sha, nowIso).id == HashString(sha, ItemKey(feed.name, Or(raw.link, ""), ""))
    ensures ToNewsItem(raw.(title := Some(UNTITLED)), feed, sha, nowIso).id
         == HashString(sha, ItemKey(feed.name, Or(raw.link, ""), UNTITLED))
    ensures ItemKey(feed.name, Or(raw.link, ""), "") != ItemKey(feed.name, Or(raw.link, ""), UNTITLED)
  {
    var prefix := feed.name + "|" + Or(raw.link, "") + "|";
    assert |ItemKey(feed.name, Or(raw.link, ""), "")| == |prefix|;
    assert |ItemKey(feed.name, Or(raw.link, ""), UNTITLED)| == |prefix| + 8;
  }

  /** Description and content fall back in different orders: a lone `description` field fills content but never description. */
  lemma DescriptionAndContentFallbacksDiffer(feed: FeedConfig, sha: Sha256, nowIso: string, d: string)
    requires d != ""
    ensures var item := ToNewsItem(RawItem(None, None, None, None, None, None, Some(d), None, None), feed, sha, nowIso);
      item.description == "" && item.content == Some(d)
  {
  }

  /** The message recorded for a thrown value: its `message` when it is an `Error`, else "Unknown error". */
  function ErrorMessage(thrown: Option<string>): (r: string)
    ensures thrown.Some? ==> r == thrown.value
    ensures thrown.None? ==> r == UNKNOWN_ERROR
  {
    thrown.GetOr(UNKNOWN_ERROR)
  }

  /** `parseFeed` given the fetch outcome: one item per entry in entry order, or no items and the error message. */
  function ParseFeed(feed: FeedConfig, fetched: FetchOutcome, sha: Sha256, nowIso: string): (r: FeedParseResult)
    ensures fetched.FetchFailed? ==> r.items == [] && r.error == Some(ErrorMessage(fetched.errorMessage))
    ensures fetched.Fetched? ==> r.error.None?
    ensures fetched.Fetched? ==> |r.items| == |fetched.items.GetOr([])|
    ensures fetched.Fetched? ==> forall i :: 0 <= i < |r.items| ==>
              r.items[i] == ToNewsItem(fetched.items.GetOr([])[i], feed, sha, nowIso)
    ensures forall x :: x in r.items ==> x.source == feed.name && x.sourceUrl == feed.url && x.topics == []
  {
    match fetched
    case FetchFailed(thrown) => FeedParseResult([], Some(ErrorMessage(thrown)))
    case Fetched(entries) =>
      var raws := entries.GetOr([]);
      FeedParseResult(seq(|raws|, i requires 0 <= i < |raws| => ToNewsItem(raws[i], feed, sha, nowIso)), None)
  }

  function IsEnabled(feed: FeedConfig): bool { feed.enabled }

  /** The enabled feeds, in configuration order. */
  function EnabledFeeds(feeds: seq<FeedConfig>): (r: seq<FeedConfig>)
    ensures |r| <= |feeds|
    ensures forall f :: f in r <==> f in feeds && f.enabled
  {
    Filter(feeds, IsEnabled)
  }

  /** `parseFeeds`: one result per enabled feed, in the order of the enabled feeds. */
  function ParseFeeds(feeds: seq<FeedConfig>, fetch: FeedConfig -> FetchOutcome, sha: Sha256, nowIso: string): (r: seq<FeedParseResult>)
    ensures |r| == |EnabledFeeds(feeds)| <= |feeds|
    ensures forall i :: 0 <= i < |r| ==>
              r[i] == ParseFeed(EnabledFeeds(feeds)[i], fetch(EnabledFeeds(feeds)[i]), sha, nowIso)
  {
    if |feeds| == 0 then []
    else
      assert feeds == [feeds[0]] + feeds[1..];
      FilterAppend([feeds[0]], feeds[1..], IsEnabled);
      assert EnabledFeeds(feeds) == (if feeds[0].enabled then [feeds[0]] else []) + EnabledFeeds(feeds[1..]);
      var rest := ParseFeeds(feeds[1..], fetch, sha, nowIso);
      if feeds[0].enabled then [ParseFeed(feeds[0], fetch(feeds[0]), sha, nowIso)] + rest
      else rest
  }

  /** Disabled feeds are never fetched: what the fetcher would answer for them does not affect the results. */
  lemma ParseFeedsIgnoresDisabled(feeds: seq<FeedConfig>, fetch1: FeedConfig -> FetchOutcome, fetch2: FeedConfig -> FetchOutcome, sha: Sha256, nowIso: string)
    requires forall f :: f in feeds && f.enabled ==> fetch1(f) == fetch2(f)
    ensures ParseFeeds(feeds, fetch1, sha, nowIso) == ParseFeeds(feeds, fetch2, sha, nowIso)
  {
    var e := EnabledFeeds(feeds);
    assert forall i :: 0 <= i < |e| ==> e[i] in e;
  }

  /** A failing feed does not disturb its siblings: changing one feed's fetch outcome changes only that feed's result. */
  lemma FeedFailureIsolated(feeds: seq<FeedConfig>, fetch1: FeedConfig -> FetchOutcome, fetch2: FeedConfig -> FetchOutcome, sha: Sha256, nowIso: string, i: int)
    requires 0 <= i < |EnabledFeeds(feeds)|
    requires fetch1(EnabledFeeds(feeds)[i]) == fetch2(EnabledFeeds(feeds)[i])
    ensures ParseFeeds(feeds, fetch1, sha, nowIso)[i] == ParseFeeds(feeds, fetch2, sha, nowIso)[i]
  {
  }

  /** When every feed is enabled, result `i` belongs to feed `i`. */
  lemma AllEnabledPairing(feeds: seq<FeedConfig>, fetch: FeedConfig -> FetchOutcome, sha: Sha256, nowIso: string)
    requires forall i :: 0 <= i < |feeds| ==> feeds[i].enabled
    ensures |ParseFeeds(feeds, fetch, sha, nowIso)| == |feeds|
    ensures forall i :: 0 <= i < |feeds| ==>
              ParseFeeds(feeds, fetch, sha, nowIso)[i] == ParseFeed(feeds[i], fetch(feeds[i]), sha, nowIso)
  {
    FilterKeepsAll(feeds, IsEnabled);
  }
}
