# AI news aggregator: a Dafny model of its processing core

This project models the core of a Forge app that collects AI news and posts it to a wiki.
The app reads RSS/Atom feeds and keeps the items that mention a feed's keywords. It classifies
those items into topics and groups them by primary topic. Each group is routed to a wiki space
through its topic mapping. An item is published as a new page unless the processed-item ledger
or the space already knows it. The ledger is pruned to a deduplication window measured in days.

The model is a set of pure functions over immutable datatypes. The run threads a `RunState`
through the feed, group and item loops of `processAllFeeds`. Everything the app gets from outside
is a parameter: the stored configuration, the feed fetcher, the wiki's search and create calls,
date formatting, SHA-256, the clock, and storage write failures.

Modules:

- `Wrappers`: `Option` and `Result`.
- `Seqs`: order-preserving `Filter` and first-occurrence `Dedup`, with their lemmas.
- `Text`: JavaScript string semantics the app relies on.
  - `||` on strings, where `""` is falsy.
  - ASCII `toLowerCase`, `includes`, `join` and `trim`.
  - Concatenation of a list of parts.
- `Types`: the records of `src/types/config.ts` and the create-page request of `src/types/confluence.ts`.
- `Hash`, `KeywordFilter`, `ConfigManager`, `FeedParser`, `ConfluencePublisher`, `NewsProcessor`: one module per source file.
- `ItemProperties` and `RunProperties`: properties of the processing run, at item level and at run level.

Source behaviour the model keeps as written, although it is evidently not what was meant:

- `parseFeeds` (src/services/feedParser.ts:66-84) returns one result per enabled feed only. Yet
  `processAllFeeds` (src/services/newsProcessor.ts:45-47) pairs result `i` with configured feed `i`.
  With a disabled feed earlier in the list, a failure is reported under the wrong feed's name, and
  the items are filtered with the wrong feed's keywords. RunProperties.DisabledFeedShiftsPairing
  shows this.
- A feed counts as successful when its error is falsy (src/services/newsProcessor.ts:42), so a
  failed feed whose message is the empty string counts as successful and reports no error.
  RunProperties.EmptyErrorMessageCountsAsSuccess shows this.
- The hash tests expect the id to change with each of source, link and title
  (src/utils/__tests__/hash.test.ts:43-58). The code hashes the three fields joined by vertical
  bars (src/utils/hash.ts:13). That key is ambiguous when a field itself contains a bar, as
  Hash.ItemKeyAmbiguous shows.

Other behaviour of the code that the model keeps:

- The id hashes the raw title, so an untitled entry's id differs from the id of an entry titled "Untitled".
- `markItemProcessed` stamps the record before it reads the clock for the cutoff. With a
  deduplication window of zero days or less, and a clock that advances between the two readings,
  the new record is therefore pruned by the write that adds it.

## Model

| member | source | states |
|---|---|---|
| Hash.HashString | src/utils/hash.ts:20-22 | The hash is 16 lowercase hex digits, and it is a prefix of the SHA-256 hex digest of the input. |
| Hash.GenerateItemId | src/utils/hash.ts:12-15 | The item id is 16 hex digits, and it is a prefix of the digest of source, link and title joined by vertical bars. |
| Hash.ItemIdIsHashOfKey | src/utils/hash.ts:12-22 | `generateItemId` agrees with `hashString` applied to the bar-joined key, for every digest function. |
| Hash.ItemIdDeterministic | src/utils/hash.ts:12-15 | Items with equal keys get equal ids. |
| Hash.ItemKeyAmbiguous | src/utils/hash.ts:13 | The key is not injective: moving a vertical bar from the source into the link keeps the key, so two different items share an id. |
| KeywordFilter.SearchText | src/services/keywordFilter.ts:36 | The search text starts with the title and a space, and its length is the three fields' lengths plus the two separating spaces, a missing content counting as empty. |
| KeywordFilter.MatchesKeywords | src/services/keywordFilter.ts:11-17 | Keeps exactly the keywords whose lowercase form occurs in the lowercased text. A kept keyword appears as often as in the keyword list. |
| KeywordFilter.MatchesKeywordsAppend | src/services/keywordFilter.ts:13-16 | Matched keywords come in keyword-list order: matching a concatenated list matches each part in turn. |
| KeywordFilter.KeywordInAnyFieldMatches | src/services/keywordFilter.ts:34-37 | A keyword found in the title, the description or the content, in any letter case, matches the item. |
| KeywordFilter.MatchIgnoresCase | src/services/keywordFilter.ts:11-17 | An item titled "New ai features" matches the keyword "AI", and "AI" is among its matched keywords. |
| KeywordFilter.MappedTopics | src/services/keywordFilter.ts:41-43 | The mapped topics are exactly the mapping topics that are among the matched keywords. |
| KeywordFilter.MappedTopicsAppend | src/services/keywordFilter.ts:41-43 | Mapped topics come in mapping order. |
| KeywordFilter.TopicsFor | src/services/keywordFilter.ts:41-48 | The topics are the mapped topics when some mapping applies, and the matched keywords otherwise. They are never empty when a keyword matched. |
| KeywordFilter.Classify | src/services/keywordFilter.ts:36-51 | An item is kept if and only if some keyword occurs in its search text. Only its matched keywords and topics change, and both are non-empty. |
| KeywordFilter.FilterAndClassifyItems | src/services/keywordFilter.ts:22-63 | A feed without keywords yields nothing. Every output is a matching input item, classified, and every matching input item appears in the output. |
| KeywordFilter.ClassifyAll | src/services/keywordFilter.ts:32-56 | The item loop keeps the matching items, classified, and yields at most as many items as it was given. |
| KeywordFilter.ClassifyAllAppend | src/services/keywordFilter.ts:34-51 | The item loop keeps input order: classifying `a + b` classifies `a`, then `b`. |
| KeywordFilter.FilterAndClassifyOrder | src/services/keywordFilter.ts:22-63 | The filtered list preserves input order over concatenated inputs. |
| KeywordFilter.FilterSingleItem | src/services/keywordFilter.ts:34-51 | A single item passes if and only if one of the feed's keywords occurs in it. |
| KeywordFilter.PrimaryTopic | src/services/keywordFilter.ts:73 | The primary topic is the first topic, or "uncategorized" when the item has none. |
| KeywordFilter.AddToGroup | src/services/keywordFilter.ts:73-77 | One grouping step keeps keys unique. It appends the item to the group of its key, or opens a new last group. It adds exactly one item. |
| KeywordFilter.AddToGroupTopics | src/services/keywordFilter.ts:74-76 | A grouping step adds a key only when the key is new, and adds it at the end. |
| KeywordFilter.GroupItemsByTopic | src/services/keywordFilter.ts:69-81 | Keys are unique, every group is non-empty, and the groups hold as many items as the input. |
| KeywordFilter.GroupKeysFirstOccurrence | src/services/keywordFilter.ts:69-81 | The group keys are the items' primary topics in order of first occurrence, which is the map's insertion order. |
| KeywordFilter.GroupIsFilter | src/services/keywordFilter.ts:72-78 | Each group is exactly the input items whose primary topic is its key, in input order. |
| KeywordFilter.GroupMembersSound | src/services/keywordFilter.ts:73-77 | Every group member is an input item whose primary topic is the group key. |
| KeywordFilter.GroupingIsPartition | src/services/keywordFilter.ts:72-78 | Every input item is in exactly one group: the one keyed by its first topic, or by "uncategorized" when it has none. |
| ConfigManager.LoadConfig | src/services/configManager.ts:17-73 | Returns the stored configuration if there is one. Otherwise, including when the read throws, it returns the default: two feeds, three mappings and a 30-day window. |
| ConfigManager.FindIndex | src/services/configManager.ts:93 | `findIndex` returns the first position holding the key, or nothing when no element has it. |
| ConfigManager.Upsert | src/services/configManager.ts:93-99 | Replaces the first element with the key in place, or appends when there is none. The new element is always present. |
| ConfigManager.UpsertKeepsKeysUnique | src/services/configManager.ts:91-102 | An upsert keeps a key-unique list key-unique. |
| ConfigManager.FindIndexIsFirst | src/services/configManager.ts:93 | `findIndex` finds the first matching position. |
| ConfigManager.UpsertIdempotent | src/services/configManager.ts:91-102 | Upserting the same element twice is the same as upserting it once. |
| ConfigManager.RemoveKey | src/services/configManager.ts:109 | Keeps exactly the elements with a different key. Each of them keeps its multiplicity. |
| ConfigManager.RemoveAfterUpsert | src/services/configManager.ts:91-111 | Removing a key after upserting an element with that key equals removing the key from the original list. |
| ConfigManager.RemoveKeyOrder | src/services/configManager.ts:109 | Removal preserves the relative order of the remaining elements. |
| ConfigManager.UpsertFeed | src/services/configManager.ts:91-102 | The saved configuration has the feed replacing its first id match, or appended. All other settings are unchanged. |
| ConfigManager.RemoveFeed | src/services/configManager.ts:107-111 | The saved configuration has exactly the feeds with another id. All other settings are unchanged. |
| ConfigManager.UpsertTopicMapping | src/services/configManager.ts:116-127 | The saved configuration has the mapping replacing its first topic match, or appended. All other settings are unchanged. |
| ConfigManager.RemoveTopicMapping | src/services/configManager.ts:132-136 | The saved configuration has exactly the mappings of other topics. All other settings are unchanged. |
| ConfigManager.FeedRoundTrip | src/services/configManager.ts:91-111 | A saved upserted feed is read back by `loadConfig`. Removing its id afterwards gives the same configuration as removing the id from the original. Upserting it again changes nothing. |
| ConfigManager.MappingRoundTrip | src/services/configManager.ts:116-136 | The same round trip for topic mappings, keyed by topic. |
| ConfigManager.LoadProcessedItems | src/services/configManager.ts:141-152 | Returns the stored records when the store holds an object, and an empty ledger when the value is missing, not an object, or the read fails. |
| ConfigManager.IsItemProcessed | src/services/configManager.ts:201-204 | An item counts as processed if and only if the stored ledger object has a record for its id. |
| ConfigManager.Cutoff | src/services/configManager.ts:185-186 | The cutoff lies `window` days of 86 400 000 ms before now. It is not after now if and only if the window is non-negative. |
| ConfigManager.Prune | src/services/configManager.ts:188-193 | Keeps exactly the records not older than the cutoff, each unchanged. |
| ConfigManager.MarkItemProcessed | src/services/configManager.ts:170-196 | Every kept record is within the window. The new record is kept if and only if its time is not before the cutoff. Older records survive if and only if they are within the window, and they are unchanged. Nothing else enters the ledger. |
| ConfigManager.FreshRecordKept | src/services/configManager.ts:175-193 | With a non-negative window and one clock reading, the new item reads as processed afterwards. |
| ConfigManager.FreshRecordEvictedWithoutWindow | src/services/configManager.ts:183-193 | With a window of zero or fewer days and a clock that advances, the new record is pruned by its own write. |
| FeedParser.ToNewsItem | src/services/feedParser.ts:29-48 | The id hashes the feed name, the raw link and the raw title. Title, description, content, link and date each fall back in their own order. Classification fields start empty. |
| FeedParser.UntitledIdUsesRawTitle | src/services/feedParser.ts:31-36 | An untitled entry and an entry titled "Untitled" display the same title but hash different keys. |
| FeedParser.DescriptionAndContentFallbacksDiffer | src/services/feedParser.ts:37-38 | An entry with only a `description` field gets it as content but an empty description. |
| FeedParser.ErrorMessage | src/services/feedParser.ts:54 | The recorded message is the thrown error's message, or "Unknown error" when the thrown value is not an `Error`. |
| FeedParser.ParseFeed | src/services/feedParser.ts:23-61 | On success there is one item per entry, in entry order, and a missing entry list counts as empty. On failure there are no items and the error message is recorded. |
| FeedParser.EnabledFeeds | src/services/feedParser.ts:67 | Keeps exactly the enabled feeds. |
| FeedParser.ParseFeeds | src/services/feedParser.ts:66-84 | There is one result per enabled feed, and result `i` is the parse of enabled feed `i`. |
| FeedParser.ParseFeedsIgnoresDisabled | src/services/feedParser.ts:67-72 | Disabled feeds are never fetched: their fetch outcome does not affect the results. |
| FeedParser.FeedFailureIsolated | src/services/feedParser.ts:70-83 | One feed's fetch outcome affects only that feed's result. |
| FeedParser.AllEnabledPairing | src/services/feedParser.ts:66-84 | When all feeds are enabled, result `i` belongs to configured feed `i`. |
| ConfluencePublisher.FindParentPage | src/services/confluencePublisher.ts:15-43 | With no title there is no lookup. Otherwise it returns the first hit's id, and nothing on no hit or on failure. |
| ConfluencePublisher.ResolveParentId | src/services/confluencePublisher.ts:99-104 | A non-empty configured parent id wins. Otherwise the parent is found by title lookup. |
| ConfluencePublisher.ParentIdNeedsNoLookup | src/services/confluencePublisher.ts:100-101 | With a parent id set, the search answers do not matter. |
| ConfluencePublisher.SummaryText | src/services/confluencePublisher.ts:57 | The summary is the description, or the placeholder when the description is empty. |
| ConfluencePublisher.TopicsCell | src/services/confluencePublisher.ts:75 | The cell is the topics joined by ", ". It is "N/A" exactly when that join is empty, which happens for no topics or for one empty topic. |
| ConfluencePublisher.FullContentSection | src/services/confluencePublisher.ts:79 | The section is present if and only if the content is non-empty, and it wraps that content. |
| ConfluencePublisher.PageTextEnds | src/services/confluencePublisher.ts:55-83 | The page text starts with `<` and ends with `>`. |
| ConfluencePublisher.TrimmedTemplate | src/services/confluencePublisher.ts:55-83 | `trim` removes exactly the template's framing white space. |
| ConfluencePublisher.GeneratePageContent | src/services/confluencePublisher.ts:48-84 | The generated page is the laid-out page text, unshortened by `trim`. It is non-empty and opens and closes with a tag bracket. |
| ConfluencePublisher.PageFraming | src/services/confluencePublisher.ts:55-82 | The page starts with the Summary block, ends with the generated-by footer, and contains the Topics row. |
| ConfluencePublisher.PageFullContent | src/services/confluencePublisher.ts:77-82 | Non-empty content appears inside the Full Content section. Without content, the details table is followed directly by the separators and the footer. |
| ConfluencePublisher.BuildCreateRequest | src/services/confluencePublisher.ts:108-123 | The request carries the item title, the space key, type "page" and the storage body. It has ancestors if and only if a non-empty parent id was resolved, and then exactly that one ancestor. |
| ConfluencePublisher.PublishRequest | src/services/confluencePublisher.ts:99-123 | The request `publishNewsItem` sends carries the item title, the mapping's space, type "page" and the generated page as body. It has an ancestor if and only if the resolved parent id is non-empty, and then exactly that one ancestor. |
| ConfluencePublisher.PublishRequestShape | src/services/confluencePublisher.ts:48-123 | A configured parent id becomes the only ancestor, and the search answers do not matter. Without an id or a title there is no ancestor. With only a title, the ancestor is the lookup's first hit when it is non-empty. The body opens with the Summary block, ends with the footer, and contains the Topics row. |
| ConfluencePublisher.PublishNewsItem | src/services/confluencePublisher.ts:89-156 | A result exists if and only if the create call succeeds and its link is absent or well-formed. It carries the new page id. The URL is "https://" + host + webui, or empty when there is no link. |
| ConfluencePublisher.PageExists | src/services/confluencePublisher.ts:161-184 | Found if and only if the title search returns a hit, and then it carries the first hit's id. Not found on no hit or on failure, and then it carries no id. |
| NewsProcessor.FeedError | src/services/newsProcessor.ts:50 | The message starts with "Feed ", then the feed name, and ends with the parse error. |
| NewsProcessor.MappingError | src/services/newsProcessor.ts:74 | The message is "No mapping for topic: " followed by the topic, which can be read back from it. |
| NewsProcessor.PublishError | src/services/newsProcessor.ts:108 | The message is "Failed to publish: " followed by the title, which can be read back from it. |
| NewsProcessor.ItemError | src/services/newsProcessor.ts:113 | The message starts with `Error processing "`, then the title and its closing quote, and ends with the thrown message. |
| NewsProcessor.ErrorKindsDistinct | src/services/newsProcessor.ts:50-113 | The four kinds of error message never coincide: their first two characters tell them apart. |
| NewsProcessor.Succeeded | src/services/newsProcessor.ts:42-49 | A parse result counts as successful if and only if its error is absent or the empty string, which is the negation of the error test on line 49. |
| NewsProcessor.ExistsInRun | src/services/newsProcessor.ts:88 | The existence check finds a page the run itself created in the space under that title first, and otherwise asks the wiki's title search. A found page always carries an id. |
| NewsProcessor.LedgerWrite | src/services/newsProcessor.ts:99-104 | A ledger write fails if and only if saving throws. Otherwise it yields the pruned ledger of `markItemProcessed`. |
| NewsProcessor.Record | src/services/newsProcessor.ts:88-114 | A resolved item adds exactly one outcome, and the feed counters and the run's created pages are unchanged. A successful write stores the new ledger. A failed write keeps the ledger and records "Error processing" with the thrown message. |
| NewsProcessor.ProcessItem | src/services/newsProcessor.ts:78-115 | One item adds exactly one of: published, skipped, or one error. The feed counters are unchanged. An item counts as published only if it was not in the ledger, had no page of its title (in the wiki or created earlier in the run), was sent for creation, and the publish returned a page; the new page then joins the run's created pages. Ledger writes only increase. |
| NewsProcessor.ProcessItems | src/services/newsProcessor.ts:78-115 | Each item of a group is accounted for exactly once. Errors only grow, and published plus skipped grows by at most the group size. |
| NewsProcessor.FindMapping | src/services/newsProcessor.ts:70 | Finds the first mapping of the group's topic when one exists, and reports absence only when none exists. |
| NewsProcessor.ProcessGroup | src/services/newsProcessor.ts:69-77 | A group without a mapping adds one "No mapping" error and nothing else. A mapped group accounts for each of its items once. |
| NewsProcessor.ProcessGroups | src/services/newsProcessor.ts:69-116 | The group loop leaves the feed counters alone, only appends errors, and publishes or skips at most as many items as the groups hold. |
| NewsProcessor.ProcessFeedResult | src/services/newsProcessor.ts:45-116 | A failed feed adds one error under the paired feed's name and nothing else. A successful feed adds its item count and its filtered count. Published plus skipped never exceeds the filtered count. |
| NewsProcessor.ProcessResults | src/services/newsProcessor.ts:45-117 | Over all results, the item counters are the sums over the error-free results. Filtered never exceeds total, and published plus skipped never exceeds filtered. |
| NewsProcessor.ParseResults | src/services/newsProcessor.ts:41 | There is one parse result per enabled configured feed. |
| NewsProcessor.ProcessAllFeeds | src/services/newsProcessor.ts:26-124 | The run starts from the stored ledger as `loadProcessedItems` reads it. The total feed count counts all configured feeds. Successful feeds are the results without a truthy error, at most the enabled feeds. Filtered never exceeds total, and published plus skipped never exceeds filtered. |
| NewsProcessor.RunItemCounts | src/services/newsProcessor.ts:54-63 | A run's total and filtered item counts are the sums over the feeds that parsed without error. |
| ItemProperties.StoredLookup | src/services/configManager.ts:201-204 | During a run, an item counts as processed if and only if its id is in the current ledger. |
| ItemProperties.LedgerHitSkips | src/services/newsProcessor.ts:81-85 | An item already in the ledger is skipped and nothing else changes. In particular, nothing is sent to the wiki. |
| ItemProperties.ExistingPageMarked | src/services/newsProcessor.ts:88-94 | An item whose title already has a page, in the wiki or created earlier in the run, is marked with that page's id and skipped, without a create call. |
| ItemProperties.FailedPublishNotRecorded | src/services/newsProcessor.ts:97-109 | A failed publish records one "Failed to publish" error and leaves the ledger without the item, so a later run retries it. A page the wiki did create (its link was malformed) is visible to the rest of the run. |
| ItemProperties.PublishedPath | src/services/newsProcessor.ts:97-105 | An item counts as published only on the path that sends it for creation and records the created page. |
| ItemProperties.PublishedRecorded | src/services/newsProcessor.ts:99-105 | A published item is recorded with the new page's id and URL. The record survives exactly when its time is within the window. |
| ItemProperties.RecordedItemSkippedLater | src/services/newsProcessor.ts:81-85 | Once an item's id is in the ledger, the next item handled with that id is skipped and not sent again. |
| ItemProperties.SameTitleNotSentTwice | src/services/newsProcessor.ts:87-105 | After an item is published, a later item with the same title in the same space finds the new page: it is not sent for creation and not published. |
| ItemProperties.MarkKeepsRecord | src/services/configManager.ts:170-193 | A ledger write keeps every other record within the window of its cutoff, unchanged. |
| ItemProperties.RecordSurvivesNextItem | src/services/newsProcessor.ts:78-115 | A record within the window of the next write survives handling the next item, whatever its path, unchanged. |
| ItemProperties.RecordedItemNeverResent | src/services/newsProcessor.ts:78-115 | Within a group, an id the ledger holds is never sent for creation again, and its record stays unchanged, as long as every later write's cutoff leaves the record inside the window. |
| RunProperties.SingleResultRun | src/services/newsProcessor.ts:41-52 | A run with one parse result processes it against the first configured feed, starting from zero counters. |
| RunProperties.DisabledFeedShiftsPairing | src/services/newsProcessor.ts:45-51 | With feeds [disabled a, enabled b] and b failing, the error is reported under a's name. No feed counts as successful, and two feeds are counted in total. |
| RunProperties.SingleFeedFailed | src/services/feedParser.ts:53-60 | When exactly one feed is enabled and its fetch throws, the run's only parse result carries that error. |
| RunProperties.EmptyErrorMessageCountsAsSuccess | src/services/newsProcessor.ts:42-52 | A feed failing with an empty message counts as successful, reports no error, and contributes no items. |

## Left out

- Logging (`logger`) is not modelled. It has no effect on results.
- `index.ts`, the scheduled trigger, the resolver functions and the UI are not part of this model.
- Network I/O, concurrency, timeouts and redirects are not modelled. The feed fetcher and the wiki calls are oracles, and a call is a pure function of its query.
- The wiki's state within a run is modelled only for the existence check: a page created earlier in the run is found by title in its space. The parent-title lookup (`findParentPage`) still asks the fixed search oracle, so it does not see pages the run created.
- `new Date().toISOString()` as a missing entry date (feedParser.ts:40) is one `nowIso` parameter for the whole run, where the code reads the clock once per entry.
- `Promise.allSettled` rejection (feedParser.ts:74-83) is not modelled. `parseFeed` catches everything, so that branch cannot be reached. The model takes every result from `parseFeed`.
- SHA-256 internals are not modelled. The digest is a parameter of type `string -> HexDigest`, so no claim about collisions is made. UTF-8 encoding of the input is not modelled.
- `toLocaleDateString` is not modelled. The formatted date is supplied by a `formatDate` parameter.
- URL host extraction is not modelled. The create oracle reports a link as absent, parsed (with its host), or rejected by the URL constructor.
- ConfluencePublisher.PublishNewsItem: "https://" + host + webui is stated for the host the oracle reports, not for one computed from `webui`.
- `toLowerCase` is ASCII-only. Non-ASCII letters keep their case, whereas JavaScript folds them.
- `processedAt` is kept as milliseconds since the epoch, not as an ISO string parsed back with `new Date`.
- The cutoff moves back `deduplicationWindow × 86 400 000 ms`. Calendar arithmetic with `setDate` across DST changes is not modelled.
- Ledger read failures during a run are not modelled. While processing, the ledger is read as it was last written. A failed read (which `isItemProcessed` would treat as empty) is left out.
- `saveProcessedItems` is modelled only through its outcome. The ledger is stored as a map, without `Object.fromEntries`. Its rethrown failure is the `saveError` message of that write.
- Ledger write failures are modelled as a message per write (`saveError`). Config writes (`saveConfig` and its rethrow) are not: the config functions return the configuration to save.
- `DEFAULT_CONFIG` aliasing is not modelled. The source mutates the shared default object when nothing is stored, but the model's values are immutable.
- Idempotence across two whole runs is not modelled, and it does not hold in general, because failed publishes are retried and records are pruned. It is stated per item instead. ItemProperties.RecordedItemSkippedLater: the next item with a recorded id is skipped. ItemProperties.RecordedItemNeverResent: later ones in the group stay skipped while the record survives pruning.
