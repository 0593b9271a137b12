/** The records of the aggregator: configuration, news items, ledger records and the wiki page request. */
module Types {
  import opened Wrappers

  /** One RSS/Atom feed the operator configured; `id` is its identity. */
  datatype FeedConfig = FeedConfig(
    id: string,
    name: string,
    url: string,
    keywords: seq<string>,
    enabled: bool,
    lastProcessed: Option<string>)

  /** Routes one topic to a wiki space, optionally under a parent page given by id or by title. */
  datatype TopicMapping = TopicMapping(
    topic: string,
    spaceKey: string,
    parentPageId: Option<string>,
    parentPageTitle: Option<string>)

  /** The singleton configuration aggregate. */
  datatype AppConfig = AppConfig(
    feeds: seq<FeedConfig>,
    topicMappings: seq<TopicMapping>,
    scheduleInterval: int,
    enableAISummarization: bool,
    deduplicationWindow: int)

  /** A normalised feed entry; `matchedKeywords` and `topics` are filled in by classification. */
  datatype NewsItem = NewsItem(
    id: string,
    title: string,
    description: string,
    content: Option<string>,
    link: string,
    pubDate: string,
    source: string,
    sourceUrl: string,
    matchedKeywords: seq<string>,
    topics: seq<string>)

  /** A ledger record; `processedAt` is a timestamp in milliseconds. */
  datatype ProcessedItem = ProcessedItem(
    itemId: string,
    processedAt: int,
    confluencePageId: Option<string>,
    confluencePageUrl: Option<string>)

  /** The deduplication ledger: item id to record. */
  type Ledger = map<string, ProcessedItem>

  datatype Space = Space(key: string)
  datatype Storage = Storage(value: string, representation: string)
  datatype Body = Body(storage: Storage)
  datatype Ancestor = Ancestor(id: string)

  /** The payload of a wiki "create content" call. */
  datatype CreatePageRequest = CreatePageRequest(
    title: string,
    space: Space,
    pageType: string,
    body: Body,
    ancestors: Option<seq<Ancestor>>)
}
