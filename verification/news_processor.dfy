/**
 * The processing run: parse every enabled feed, classify and group its items, and publish each
 * routed item that the ledger and the wiki do not already know, threading the ledger through.
 */
module NewsProcessor {
  import opened Wrappers
  import opened Seqs
  import opened Types
  import opened Hash
  import opened KeywordFilter
  import opened ConfigManager
  import opened FeedParser
  import opened ConfluencePublisher

  /** The summary a run returns. */
  datatype ProcessingResult = ProcessingResult(
    totalFeeds: nat,
    successfulFeeds: nat,
    totalItems: nat,
    filteredItems: nat,
    publishedItems: nat,
    skippedItems: nat,
    errors: seq<string>)

  /**
   * The collaborators of a run: the stored configuration, the feed fetcher, the wiki's search and
   * create calls, date formatting, the digest, the current time as ISO text, and for the k-th ledger
   * write the two clock readings it takes and whether saving the ledger throws (with its message).
   */
  datatype Env = Env(
    storedConfig: StoreRead<AppConfig>,
    fetch: FeedConfig -> FetchOutcome,
    search: (string, string) -> SearchOutcome,
    create: CreatePageRequest -> CreateOutcome,
    formatDate: string -> string,
    sha: Sha256,
    nowIso: string,
    clock: nat -> (int, int),
    saveError: nat -> Option<string>)

  /**
   * The state threaded through a run: the summary, the stored ledger, the number of ledger writes,
   * the ids sent to the wiki for creation, and the pages the wiki created for them.
   */
  datatype RunState = RunState(result: ProcessingResult, ledger: Ledger, writes: nat, attempts: seq<string>, created: seq<CreatedPage>)

  /** A page created during the run: its space, its title and its id. */
  datatype CreatedPage = CreatedPage(spaceKey: string, title: string, pageId: string)

  /** The id of the first page created during the run with this space and title. */
  function FindCreated(created: seq<CreatedPage>, spaceKey: string, title: string): (r: Option<string>)
    ensures r.Some? ==> exists i :: 0 <= i < |created| && created[i] == CreatedPage(spaceKey, title, r.value)
    ensures r.None? ==> forall i :: 0 <= i < |created| ==> created[i].spaceKey != spaceKey || created[i].title != title
  {
    if |created| == 0 then None
    else if created[0].spaceKey == spaceKey && created[0].title == title then Some(created[0].pageId)
    else match FindCreated(created[1..], spaceKey, title)
      case Some(id) =>
        assert created[1..][0] == created[1];
        Some(id)
      case None => None
  }

  /**
   * `pageExists` during a run: the title search also finds the pages the run has created. A page
   * is only created after the search for its space and title came back empty, so the search then
   * returns exactly the page created.
   */
  function ExistsInRun(st: RunState, spaceKey: string, title: string, search: (string, string) -> SearchOutcome): (r: ExistsResult)
    ensures FindCreated(st.created, spaceKey, title).Some? ==> r.found && r.pageId == FindCreated(st.created, spaceKey, title)
    ensures FindCreated(st.created, spaceKey, title).None? ==> r == PageExists(spaceKey, title, search)
    ensures r.found ==> r.pageId.Some?
  {
    match FindCreated(st.created, spaceKey, title)
    case Some(id) => ExistsResult(true, Some(id))
    case None => PageExists(spaceKey, title, search)
  }

  /** The pages the wiki holds after answering a create call for `item`: one more exactly when the call created it. */
  function AfterCreate(created: seq<CreatedPage>, answer: CreateOutcome, mapping: TopicMapping, item: NewsItem): (r: seq<CreatedPage>)
    ensures answer.Created? ==> r == created + [CreatedPage(mapping.spaceKey, item.title, answer.pageId)]
    ensures !answer.Created? ==> r == created
  {
    if answer.Created? then created + [CreatedPage(mapping.spaceKey, item.title, answer.pageId)] else created
  }

  /** Items accounted for so far: each handled item adds one to exactly one of these. */
  function Handled(r: ProcessingResult): nat {
    r.publishedItems + r.skippedItems + |r.errors|
  }

  /** The feed-level counters a single item or group never touches. */
  predicate SameTotals(a: ProcessingResult, b: ProcessingResult) {
    a.totalFeeds == b.totalFeeds && a.successfulFeeds == b.successfulFeeds
    && a.totalItems == b.totalItems && a.filteredItems == b.filteredItems
  }

  /** Exactly one of: one more published, one more skipped, one more error. */
  predicate OneOutcome(before: ProcessingResult, after: ProcessingResult) {
    || (after.publishedItems == before.publishedItems + 1 && after.skippedItems == before.skippedItems && after.errors == before.errors)
    || (after.publishedItems == before.publishedItems && after.skippedItems == before.skippedItems + 1 && after.errors == before.errors)
    || (after.publishedItems == before.publishedItems && after.skippedItems == before.skippedItems
        && |after.errors| == |before.errors| + 1 && before.errors <= after.errors)
  }

  /** The item-level catch message: the title in quotes, then the thrown message. */
  function ItemError(title: string, message: string): (r: string)
    ensures "Error processing \"" <= r
    ensures |r| == |"Error processing \""| + |title| + |"\": "| + |message|
    ensures r[|"Error processing \""|..][..|title|] == title
    ensures r[|"Error processing \""| + |title|] == '"'
    ensures r[|r| - |message|..] == message
  {
    "Error processing \"" + title + "\": " + message
  }

  function PublishError(title: string): (r: string)
    ensures "Failed to publish: " <= r && r[|"Failed to publish: "|..] == title
  {
    "Failed to publish: " + title
  }

  function MappingError(topic: string): (r: string)
    ensures "No mapping for topic: " <= r && r[|"No mapping for topic: "|..] == topic
    ensures |r| == |"No mapping for topic: "| + |topic|
  {
    "No mapping for topic: " + topic
  }

  function FeedError(name: string, error: string): (r: string)
    ensures "Feed " <= r
    ensures |r| == |"Feed "| + |name| + |": "| + |error|
    ensures r[|"Feed "|..][..|name|] == name
    ensures r[|r| - |error|..] == error
  {
    "Feed " + name + ": " + error
  }

  /** The four kinds of error message are told apart by their first two characters. */
  lemma {:induction false} ErrorKindsDistinct(t: string, m: string, u: string, n: string, e: string)
    ensures ItemError(t, m)[..2] == "Er" && PublishError(t)[..2] == "Fa"
    ensures MappingError(u)[..2] == "No" && FeedError(n, e)[..2] == "Fe"
    ensures ItemError(t, m) != PublishError(u) && ItemError(t, m) != MappingError(u) && ItemError(t, m) != FeedError(n, e)
    ensures PublishError(t) != MappingError(u) && PublishError(t) != FeedError(n, e) && MappingError(u) != FeedError(n, e)
  {
    assert ItemError(t, m)[..2] == "Error processing \""[..2];
    assert PublishError(t)[..2] == "Failed to publish: "[..2];
    assert MappingError(u)[..2] == "No mapping for topic: "[..2];
    assert FeedError(n, e)[..2] == "Feed "[..2];
    assert PublishError(u)[..2] == "Failed to publish: "[..2];
  }

  /** The ledger as the store holds it during a run. */
  function Stored(ledger: Ledger): StoreRead<StoredLedger> {
    Found(LedgerObject(ledger))
  }

  /** `markItemProcessed` as the run's next ledger write: the new ledger, or the message the failed save threw. */
  function LedgerWrite(st: RunState, env: Env, itemId: string, pageId: Option<string>, pageUrl: Option<string>): (r: Result<Ledger>)
    ensures env.saveError(st.writes).Some? <==> r.Err?
    ensures r.Ok? ==> r.value == MarkItemProcessed(Stored(st.ledger), env.storedConfig, itemId, pageId, pageUrl,
                                                    env.clock(st.writes).0, env.clock(st.writes).1)
  {
    var (t1, t2) := env.clock(st.writes);
    match env.saveError(st.writes)
    case Some(message) => Err(message)
    case None => Ok(MarkItemProcessed(Stored(st.ledger), env.storedConfig, itemId, pageId, pageUrl, t1, t2))
  }

  /**
   * Records a resolved item in the ledger and counts it (as published or as skipped); when saving
   * the ledger throws, the item's handler catches it and records one error instead.
   */
  function Record(st: RunState, item: NewsItem, pageId: Option<string>, pageUrl: Option<string>, published: bool, env: Env): (r: RunState)
    ensures SameTotals(st.result, r.result)
    ensures OneOutcome(st.result, r.result)
    ensures r.writes == st.writes + 1 && r.attempts == st.attempts && r.created == st.created
    ensures r.result.publishedItems == st.result.publishedItems + 1 ==> published
    ensures r.result.skippedItems == st.result.skippedItems + 1 ==> !published
    ensures env.saveError(st.writes).None? ==>
              && r.ledger == MarkItemProcessed(Stored(st.ledger), env.storedConfig, item.id, pageId, pageUrl,
                                               env.clock(st.writes).0, env.clock(st.writes).1)
              && r.result.errors == st.result.errors
    ensures env.saveError(st.writes).Some? ==>
              r.ledger == st.ledger && r.result.errors == st.result.errors + [ItemError(item.title, env.saveError(st.writes).value)]
              && r.result.publishedItems == st.result.publishedItems && r.result.skippedItems == st.result.skippedItems
  {
    match LedgerWrite(st, env, item.id, pageId, pageUrl)
    case Ok(ledger) =>
      var counted := if published then st.result.(publishedItems := st.result.publishedItems + 1)
                     else st.result.(skippedItems := st.result.skippedItems + 1);
      st.(ledger := ledger, writes := st.writes + 1, result := counted)
    case Err(message) =>
      st.(writes := st.writes + 1, result := st.result.(errors := st.result.errors + [ItemError(item.title, message)]))
  }

  /** The item loop body of `processAllFeeds`. */
  function ProcessItem(st: RunState, item: NewsItem, mapping: TopicMapping, env: Env): (r: RunState)
    ensures SameTotals(st.result, r.result)
    ensures OneOutcome(st.result, r.result)
    ensures r.attempts == st.attempts || r.attempts == st.attempts + [item.id]
    ensures st.writes <= r.writes
    ensures r.attempts == st.attempts ==> r.created == st.created
    ensures r.result.publishedItems == st.result.publishedItems + 1 ==>
              && r.attempts == st.attempts + [item.id]
              && !IsItemProcessed(Stored(st.ledger), item.id)
              && !ExistsInRun(st, mapping.spaceKey, item.title, env.search).found
              && PublishNewsItem(item, mapping, env.search, env.create, env.formatDate).Some?
              && r.created == st.created + [CreatedPage(mapping.spaceKey, item.title,
                                                        PublishNewsItem(item, mapping, env.search, env.create, env.formatDate).value.pageId)]
  {
    if IsItemProcessed(Stored(st.ledger), item.id) then
      st.(result := st.result.(skippedItems := st.result.skippedItems + 1))
    else
      var existing := ExistsInRun(st, mapping.spaceKey, item.title, env.search);
      if existing.found then
        Record(st, item, existing.pageId, None, false, env)
      else
        var answer := env.create(PublishRequest(item, mapping, env.search, env.formatDate));
        var sent := st.(attempts := st.attempts + [item.id], created := AfterCreate(st.created, answer, mapping, item));
        match PublishNewsItem(item, mapping, env.search, env.create, env.formatDate)
        case None => sent.(result := st.result.(errors := st.result.errors + [PublishError(item.title)]))
        case Some(page) => Record(sent, item, Some(page.pageId), Some(page.pageUrl), true, env)
  }

  /** The items of one routed group, in order. */
  function ProcessItems(st: RunState, items: seq<NewsItem>, mapping: TopicMapping, env: Env): (r: RunState)
    decreases |items|
    ensures SameTotals(st.result, r.result)
    ensures Handled(r.result) == Handled(st.result) + |items|
    ensures st.result.errors <= r.result.errors
    ensures st.result.publishedItems <= r.result.publishedItems && st.result.skippedItems <= r.result.skippedItems
    ensures r.result.publishedItems + r.result.skippedItems <= st.result.publishedItems + st.result.skippedItems + |items|
  {
    if |items| == 0 then st
    else ProcessItems(ProcessItem(st, items[0], mapping, env), items[1..], mapping, env)
  }

  /** The mapping a group is routed by: the first one whose topic equals the group key. */
  function FindMapping(mappings: seq<TopicMapping>, topic: string): (r: Option<TopicMapping>)
    ensures r.Some? ==> exists i :: 0 <= i < |mappings| && r.value == mappings[i] && r.value.topic == topic
                                   && forall j :: 0 <= j < i ==> mappings[j].topic != topic
    ensures r.None? ==> forall m :: m in mappings ==> m.topic != topic
  {
    match FindIndex(mappings, topic, MappingTopic)
    case Some(i) =>
      assert forall j :: 0 <= j < i ==> MappingTopic(mappings[j]) != topic;
      Some(mappings[i])
    case None => None
  }

  /** One group: an error and nothing else when no mapping has its topic, otherwise its items. */
  function ProcessGroup(st: RunState, group: Group, mappings: seq<TopicMapping>, env: Env): (r: RunState)
    ensures SameTotals(st.result, r.result)
    ensures st.result.errors <= r.result.errors
    ensures st.result.publishedItems <= r.result.publishedItems && st.result.skippedItems <= r.result.skippedItems
    ensures r.result.publishedItems + r.result.skippedItems <= st.result.publishedItems + st.result.skippedItems + |group.items|
    ensures FindMapping(mappings, group.topic).None? ==>
              r == st.(result := st.result.(errors := st.result.errors + [MappingError(group.topic)]))
    ensures FindMapping(mappings, group.topic).Some? ==> Handled(r.result) == Handled(st.result) + |group.items|
  {
    match FindMapping(mappings, group.topic)
    case None => st.(result := st.result.(errors := st.result.errors + [MappingError(group.topic)]))
    case Some(mapping) => ProcessItems(st, group.items, mapping, env)
  }

  /** The groups of one feed, in key order. */
  function ProcessGroups(st: RunState, groups: seq<Group>, mappings: seq<TopicMapping>, env: Env): (r: RunState)
    decreases |groups|
    ensures SameTotals(st.result, r.result)
    ensures st.result.errors <= r.result.errors
    ensures st.result.publishedItems <= r.result.publishedItems && st.result.skippedItems <= r.result.skippedItems
    ensures r.result.publishedItems + r.result.skippedItems <= st.result.publishedItems + st.result.skippedItems + TotalSize(groups)
  {
    if |groups| == 0 then st
    else ProcessGroups(ProcessGroup(st, groups[0], mappings, env), groups[1..], mappings, env)
  }

  /** A parse result counts as failed when its error is set and non-empty (an empty message is falsy). */
  predicate HasError(res: FeedParseResult) {
    res.error.Some? && res.error.value != ""
  }

  /** A result counts towards `successfulFeeds` when its error is absent or the empty string. */
  function Succeeded(res: FeedParseResult): (r: bool)
    ensures r <==> res.error.None? || res.error.value == ""
    ensures r <==> !HasError(res)
  {
    !HasError(res)
  }

  /** One feed's parse result, paired with the configured feed at the same position. */
  function ProcessFeedResult(st: RunState, res: FeedParseResult, feed: FeedConfig, mappings: seq<TopicMapping>, env: Env): (r: RunState)
    ensures HasError(res) ==>
              r == st.(result := st.result.(errors := st.result.errors + [FeedError(feed.name, res.error.value)]))
    ensures !HasError(res) ==>
              && r.result.totalItems == st.result.totalItems + |res.items|
              && r.result.filteredItems == st.result.filteredItems + |FilterAndClassifyItems(res.items, feed, mappings)|
    ensures r.result.totalFeeds == st.result.totalFeeds && r.result.successfulFeeds == st.result.successfulFeeds
    ensures r.result.filteredItems - st.result.filteredItems <= r.result.totalItems - st.result.totalItems
    ensures st.result.errors <= r.result.errors
    ensures st.result.publishedItems <= r.result.publishedItems && st.result.skippedItems <= r.result.skippedItems
    ensures r.result.publishedItems + r.result.skippedItems - st.result.publishedItems - st.result.skippedItems
         <= r.result.filteredItems - st.result.filteredItems
  {
    if HasError(res) then
      st.(result := st.result.(errors := st.result.errors + [FeedError(feed.name, res.error.value)]))
    else
      var filtered := FilterAndClassifyItems(res.items, feed, mappings);
      var counted := st.(result := st.result.(
        totalItems := st.result.totalItems + |res.items|,
        filteredItems := st.result.filteredItems + |filtered|));
      ProcessGroups(counted, GroupItemsByTopic(filtered), mappings, env)
  }

  /** Items fetched over the results without error. */
  function TotalItemsOf(results: seq<FeedParseResult>): nat {
    if |results| == 0 then 0
    else (if HasError(results[0]) then 0 else |results[0].items|) + TotalItemsOf(results[1..])
  }

  /** Items kept by the classifier over the results without error, each classified with the feed at its position. */
  function FilteredOf(results: seq<FeedParseResult>, feeds: seq<FeedConfig>, mappings: seq<TopicMapping>): nat
    requires |results| <= |feeds|
  {
    if |results| == 0 then 0
    else (if HasError(results[0]) then 0 else |FilterAndClassifyItems(results[0].items, feeds[0], mappings)|)
         + FilteredOf(results[1..], feeds[1..], mappings)
  }

  /** The feed loop: result `i` is processed with configured feed `i`. */
  function ProcessResults(st: RunState, results: seq<FeedParseResult>, feeds: seq<FeedConfig>, mappings: seq<TopicMapping>, env: Env): (r: RunState)
    requires |results| <= |feeds|
    decreases |results|
    ensures r.result.totalFeeds == st.result.totalFeeds && r.result.successfulFeeds == st.result.successfulFeeds
    ensures r.result.totalItems == st.result.totalItems + TotalItemsOf(results)
    ensures r.result.filteredItems == st.result.filteredItems + FilteredOf(results, feeds, mappings)
    ensures r.result.filteredItems - st.result.filteredItems <= r.result.totalItems - st.result.totalItems
    ensures st.result.errors <= r.result.errors
    ensures r.result.publishedItems + r.result.skippedItems - st.result.publishedItems - st.result.skippedItems
         <= r.result.filteredItems - st.result.filteredItems
  {
    if |results| == 0 then st
    else ProcessResults(ProcessFeedResult(st, results[0], feeds[0], mappings, env), results[1..], feeds[1..], mappings, env)
  }

  /** The parse results of a run, one per enabled feed. */
  function ParseResults(env: Env): (r: seq<FeedParseResult>)
    ensures |r| == |EnabledFeeds(LoadConfig(env.storedConfig).feeds)| <= |LoadConfig(env.storedConfig).feeds|
  {
    ParseFeeds(LoadConfig(env.storedConfig).feeds, env.fetch, env.sha, env.nowIso)
  }

  /** `processAllFeeds`, starting from what the ledger key of the store holds. */
  function ProcessAllFeeds(env: Env, stored: StoreRead<StoredLedger>): (r: RunState)
    ensures var config := LoadConfig(env.storedConfig);
      var results := ParseResults(env);
      && r.result.totalFeeds == |config.feeds|
      && r.result.successfulFeeds == |Filter(results, Succeeded)|
      && r.result.successfulFeeds <= |EnabledFeeds(config.feeds)|
      && r.result.filteredItems <= r.result.totalItems
      && r.result.publishedItems + r.result.skippedItems <= r.result.filteredItems
  {
    var config := LoadConfig(env.storedConfig);
    var results := ParseResults(env);
    var start := ProcessingResult(|config.feeds|, |Filter(results, Succeeded)|, 0, 0, 0, 0, []);
    ProcessResults(RunState(start, LoadProcessedItems(stored), 0, [], []), results, config.feeds, config.topicMappings, env)
  }

  /** A run's item counters: every item of a feed parsed without error, and those of them the classifier kept. */
  lemma RunItemCounts(env: Env, stored: StoreRead<StoredLedger>)
    ensures var config := LoadConfig(env.storedConfig);
      var results := ParseResults(env);
      && ProcessAllFeeds(env, stored).result.totalItems == TotalItemsOf(results)
      && ProcessAllFeeds(env, stored).result.filteredItems == FilteredOf(results, config.feeds, config.topicMappings)
  {
  }
}
