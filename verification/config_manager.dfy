/** Configuration aggregate and deduplication ledger over an abstract key-value store. */
module ConfigManager {
  import opened Wrappers
  import opened Seqs
  import opened Types

  /** One day in milliseconds, the unit of the deduplication window. */
  const DAY_MS: int := 86_400_000

  /** The outcome of a `storage.get`: nothing (or a falsy value) stored, a thrown error, or a stored value. */
  datatype StoreRead<T> = Missing | ReadFailed | Found(value: T)

  /** What the ledger key may hold: an object of records, or some other value. */
  datatype StoredLedger = LedgerObject(records: Ledger) | NotAnObject

  /** The configuration used when nothing is stored. */
  const DEFAULT_CONFIG: AppConfig := AppConfig(
    [ FeedConfig("atlassian-blog", "Atlassian Blog", "https://www.atlassian.com/blog/feed",
                 ["Rovo Agent", "Rovo Dev CLI", "Atlassian Intelligence", "AI", "Artificial Intelligence"], true, None),
      FeedConfig("atlassian-developer-blog", "Atlassian Developer Blog", "https://developer.atlassian.com/blog/feed",
                 ["Rovo", "AI", "Forge", "Intelligence"], true, None) ],
    [ TopicMapping("Rovo Agent", "AI", None, Some("Rovo Agent Updates")),
      TopicMapping("Rovo Dev CLI", "AI", None, Some("Rovo Dev CLI Updates")),
      TopicMapping("Atlassian Intelligence", "AI", None, Some("Atlassian Intelligence Updates")) ],
    360, false, 30)

  /** `loadConfig`: the stored configuration, or the default when none is stored or the read throws. */
  function LoadConfig(stored: StoreRead<AppConfig>): (r: AppConfig)
    ensures stored.Found? ==> r == stored.value
    ensures !stored.Found? ==> r == DEFAULT_CONFIG && |r.feeds| == 2 && |r.topicMappings| == 3 && r.deduplicationWindow == 30
  {
    match stored
    case Found(config) => config
    case _ => DEFAULT_CONFIG
  }

  // ---------------------------------------------------------------------------
  // Keyed list updates (`findIndex` then replace or `push`; `filter` to remove)

  /** `findIndex` on a key: the first position whose key is `k`. */
  function FindIndex<T, K(==)>(s: seq<T>, k: K, key: T -> K): (r: Option<nat>)
    ensures r.Some? ==> r.value < |s| && key(s[r.value]) == k && forall j :: 0 <= j < r.value ==> key(s[j]) != k
    ensures r.None? ==> forall j :: 0 <= j < |s| ==> key(s[j]) != k
  {
    if |s| == 0 then None
    else if key(s[0]) == k then Some(0)
    else match FindIndex(s[1..], k, key)
      case Some(i) => Some(i + 1)
      case None => None
  }

  /** Replace the first element with `x`'s key by `x`, or append `x` when there is none. */
  function Upsert<T, K(==)>(s: seq<T>, x: T, key: T -> K): (r: seq<T>)
    ensures forall i :: 0 <= i < |s| && key(s[i]) == key(x) && (forall j :: 0 <= j < i ==> key(s[j]) != key(x))
              ==> r == s[i := x]
    ensures (forall i :: 0 <= i < |s| ==> key(s[i]) != key(x)) ==> r == s + [x]
    ensures x in r
  {
    match FindIndex(s, key(x), key)
    case Some(i) =>
      assert s[i := x][i] == x;
      s[i := x]
    case None => s + [x]
  }

  /** No two elements share a key. */
  predicate UniqueKeys<T, K(==)>(s: seq<T>, key: T -> K) {
    forall i, j :: 0 <= i < j < |s| ==> key(s[i]) != key(s[j])
  }

  /** Upserting keeps keys unique. */
  lemma UpsertKeepsKeysUnique<T, K>(s: seq<T>, x: T, key: T -> K)
    requires UniqueKeys(s, key)
    ensures UniqueKeys(Upsert(s, x, key), key)
  {
    match FindIndex(s, key(x), key)
    case Some(i) =>
    case None =>
  }

  /** `findIndex` finds the first position holding the key. */
  lemma FindIndexIsFirst<T, K>(s: seq<T>, k: K, key: T -> K, i: nat)
    requires i < |s| && key(s[i]) == k
    requires forall j :: 0 <= j < i ==> key(s[j]) != k
    ensures FindIndex(s, k, key) == Some(i)
  {
  }

  /** Upserting the same element twice is the same as once. */
  lemma UpsertIdempotent<T, K>(s: seq<T>, x: T, key: T -> K)
    ensures Upsert(Upsert(s, x, key), x, key) == Upsert(s, x, key)
  {
    match FindIndex(s, key(x), key)
    case Some(i) =>
      FindIndexIsFirst(s[i := x], key(x), key, i);
    case None =>
      FindIndexIsFirst(s + [x], key(x), key, |s|);
  }

  function KeyIsNot<T, K(==)>(k: K, key: T -> K): T -> bool {
    y => key(y) != k
  }

  /** `filter` on a key: every element whose key is not `k`, in order. */
  function RemoveKey<T(!new), K(==)>(s: seq<T>, k: K, key: T -> K): (r: seq<T>)
    ensures forall y :: y in r <==> y in s && key(y) != k
    ensures forall y :: key(y) != k ==> multiset(r)[y] == multiset(s)[y]
    ensures |r| <= |s|
  {
    FilterCount(s, KeyIsNot(k, key));
    Filter(s, KeyIsNot(k, key))
  }

  /** Removing a key after upserting an element with that key removes the element again. */
  lemma {:induction false} RemoveAfterUpsert<T(!new), K>(s: seq<T>, x: T, key: T -> K)
    ensures RemoveKey(Upsert(s, x, key), key(x), key) == RemoveKey(s, key(x), key)
  {
    var p := KeyIsNot(key(x), key);
    assert !p(x);
    match FindIndex(s, key(x), key)
    case Some(i) =>
      assert s == s[..i] + [s[i]] + s[i + 1..];
      assert s[i := x] == s[..i] + [x] + s[i + 1..];
      FilterAppend(s[..i] + [s[i]], s[i + 1..], p);
      FilterAppend(s[..i] + [x], s[i + 1..], p);
      FilterSnoc(s[..i], s[i], p);
      FilterSnoc(s[..i], x, p);
    case None =>
      FilterSnoc(s, x, p);
  }

  /** An element removed by key leaves every other element in its relative order. */
  lemma RemoveKeyOrder<T(!new), K>(a: seq<T>, b: seq<T>, k: K, key: T -> K)
    ensures RemoveKey(a + b, k, key) == RemoveKey(a, k, key) + RemoveKey(b, k, key)
  {
    FilterAppend(a, b, KeyIsNot(k, key));
  }

  function FeedId(f: FeedConfig): string { f.id }

  function MappingTopic(m: TopicMapping): string { m.topic }

  /** `upsertFeed`: the configuration to save, with `feed` replacing the first feed of its id or appended. */
  function UpsertFeed(stored: StoreRead<AppConfig>, feed: FeedConfig): (r: AppConfig)
    ensures r.feeds == Upsert(LoadConfig(stored).feeds, feed, FeedId)
    ensures feed in r.feeds
    ensures r.topicMappings == LoadConfig(stored).topicMappings
    ensures r.scheduleInterval == LoadConfig(stored).scheduleInterval
    ensures r.enableAISummarization == LoadConfig(stored).enableAISummarization
    ensures r.deduplicationWindow == LoadConfig(stored).deduplicationWindow
  {
    var config := LoadConfig(stored);
    config.(feeds := Upsert(config.feeds, feed, FeedId))
  }

  /** `removeFeed`: the configuration to save, without any feed of that id. */
  function RemoveFeed(stored: StoreRead<AppConfig>, feedId: string): (r: AppConfig)
    ensures forall f :: f in r.feeds <==> f in LoadConfig(stored).feeds && f.id != feedId
    ensures r.feeds == RemoveKey(LoadConfig(stored).feeds, feedId, FeedId)
    ensures r.topicMappings == LoadConfig(stored).topicMappings
    ensures r.scheduleInterval == LoadConfig(stored).scheduleInterval
    ensures r.enableAISummarization == LoadConfig(stored).enableAISummarization
    ensures r.deduplicationWindow == LoadConfig(stored).deduplicationWindow
  {
    var config := LoadConfig(stored);
    config.(feeds := RemoveKey(config.feeds, feedId, FeedId))
  }

  /** `upsertTopicMapping`: the configuration to save, with `mapping` replacing the first mapping of its topic or appended. */
  function UpsertTopicMapping(stored: StoreRead<AppConfig>, mapping: TopicMapping): (r: AppConfig)
    ensures r.topicMappings == Upsert(LoadConfig(stored).topicMappings, mapping, MappingTopic)
    ensures mapping in r.topicMappings
    ensures r.feeds == LoadConfig(stored).feeds
    ensures r.scheduleInterval == LoadConfig(stored).scheduleInterval
    ensures r.enableAISummarization == LoadConfig(stored).enableAISummarization
    ensures r.deduplicationWindow == LoadConfig(stored).deduplicationWindow
  {
    var config := LoadConfig(stored);
    config.(topicMappings := Upsert(config.topicMappings, mapping, MappingTopic))
  }

  /** `removeTopicMapping`: the configuration to save, without any mapping of that topic. */
  function RemoveTopicMapping(stored: StoreRead<AppConfig>, topic: string): (r: AppConfig)
    ensures forall m :: m in r.topicMappings <==> m in LoadConfig(stored).topicMappings && m.topic != topic
    ensures r.topicMappings == RemoveKey(LoadConfig(stored).topicMappings, topic, MappingTopic)
    ensures r.feeds == LoadConfig(stored).feeds
    ensures r.scheduleInterval == LoadConfig(stored).scheduleInterval
    ensures r.enableAISummarization == LoadConfig(stored).enableAISummarization
    ensures r.deduplicationWindow == LoadConfig(stored).deduplicationWindow
  {
    var config := LoadConfig(stored);
    config.(topicMappings := RemoveKey(config.topicMappings, topic, MappingTopic))
  }

  /**
   * Saving an upserted feed and reading it back finds the feed; removing its id afterwards gives what
   * removing it from the original would; upserting it again changes nothing.
   */
  lemma FeedRoundTrip(stored: StoreRead<AppConfig>, feed: FeedConfig)
    ensures feed in LoadConfig(Found(UpsertFeed(stored, feed))).feeds
    ensures RemoveFeed(Found(UpsertFeed(stored, feed)), feed.id) == RemoveFeed(stored, feed.id)
    ensures UpsertFeed(Found(UpsertFeed(stored, feed)), feed) == UpsertFeed(stored, feed)
  {
    RemoveAfterUpsert(LoadConfig(stored).feeds, feed, FeedId);
    UpsertIdempotent(LoadConfig(stored).feeds, feed, FeedId);
  }

  /** The same round trip for topic mappings, keyed by topic. */
  lemma MappingRoundTrip(stored: StoreRead<AppConfig>, mapping: TopicMapping)
    ensures mapping in LoadConfig(Found(UpsertTopicMapping(stored, mapping))).topicMappings
    ensures RemoveTopicMapping(Found(UpsertTopicMapping(stored, mapping)), mapping.topic) == RemoveTopicMapping(stored, mapping.topic)
    ensures UpsertTopicMapping(Found(UpsertTopicMapping(stored, mapping)), mapping) == UpsertTopicMapping(stored, mapping)
  {
    RemoveAfterUpsert(LoadConfig(stored).topicMappings, mapping, MappingTopic);
    UpsertIdempotent(LoadConfig(stored).topicMappings, mapping, MappingTopic);
  }

  // ---------------------------------------------------------------------------
  // The processed-item ledger

  /** `loadProcessedItems`: the stored records, or an empty ledger when the value is missing, not an object or unreadable. */
  function LoadProcessedItems(stored: StoreRead<StoredLedger>): (r: Ledger)
    ensures stored.Found? && stored.value.LedgerObject? ==> r == stored.value.records
    ensures !(stored.Found? && stored.value.LedgerObject?) ==> r == map[]
  {
    match stored
    case Found(LedgerObject(records)) => records
    case _ => map[]
  }

  /** `isItemProcessed`: whether the stored ledger holds a record for `itemId`. */
  function IsItemProcessed(stored: StoreRead<StoredLedger>, itemId: string): (r: bool)
    ensures r <==> stored.Found? && stored.value.LedgerObject? && itemId in stored.value.records
    ensures !stored.Found? ==> !r
  {
    itemId in LoadProcessedItems(stored)
  }

  /** The earliest `processedAt` a record may have to survive a prune: `window` days before `now`. */
  function Cutoff(now: int, window: int): (r: int)
    ensures r <= now <==> window >= 0
    ensures r + window * DAY_MS == now
  {
    now - window * DAY_MS
  }

  /** The records not older than `cutoff`. */
  function Prune(ledger: Ledger, cutoff: int): (r: Ledger)
    ensures forall id :: id in r <==> id in ledger && ledger[id].processedAt >= cutoff
    ensures forall id :: id in r ==> r[id] == ledger[id]
  {
    map id | id in ledger && ledger[id].processedAt >= cutoff :: ledger[id]
  }

  /**
   * `markItemProcessed`: the ledger to save after recording `itemId`. The record is stamped with the
   * clock reading `t1`; the prune cutoff is computed from a later reading `t2` and the window of the
   * configuration loaded at that point.
   */
  function MarkItemProcessed(
    stored: StoreRead<StoredLedger>, storedConfig: StoreRead<AppConfig>,
    itemId: string, pageId: Option<string>, pageUrl: Option<string>, t1: int, t2: int): (r: Ledger)
    ensures var cutoff := Cutoff(t2, LoadConfig(storedConfig).deduplicationWindow);
      && (forall id :: id in r ==> r[id].processedAt >= cutoff)
      && (itemId in r <==> t1 >= cutoff)
      && (itemId in r ==> r[itemId] == ProcessedItem(itemId, t1, pageId, pageUrl))
      && (forall id :: id in LoadProcessedItems(stored) && id != itemId ==>
            (id in r <==> LoadProcessedItems(stored)[id].processedAt >= cutoff))
      && (forall id :: id in r && id != itemId ==> id in LoadProcessedItems(stored) && r[id] == LoadProcessedItems(stored)[id])
  {
    var records := LoadProcessedItems(stored)[itemId := ProcessedItem(itemId, t1, pageId, pageUrl)];
    Prune(records, Cutoff(t2, LoadConfig(storedConfig).deduplicationWindow))
  }

  /** With a non-negative window and no time passing between the two clock readings, the new record survives its own prune. */
  lemma FreshRecordKept(
    stored: StoreRead<StoredLedger>, storedConfig: StoreRead<AppConfig>,
    itemId: string, pageId: Option<string>, pageUrl: Option<string>, now: int)
    requires LoadConfig(storedConfig).deduplicationWindow >= 0
    ensures IsItemProcessed(Found(LedgerObject(MarkItemProcessed(stored, storedConfig, itemId, pageId, pageUrl, now, now))), itemId)
  {
  }

  /** With a window of zero days or less, a record is evicted by its own prune as soon as the clock has advanced. */
  lemma FreshRecordEvictedWithoutWindow(
    stored: StoreRead<StoredLedger>, storedConfig: StoreRead<AppConfig>,
    itemId: string, pageId: Option<string>, pageUrl: Option<string>, t1: int, t2: int)
    requires LoadConfig(storedConfig).deduplicationWindow <= 0 && t1 < t2
    ensures !IsItemProcessed(Found(LedgerObject(MarkItemProcessed(stored, storedConfig, itemId, pageId, pageUrl, t1, t2))), itemId)
  {
  }
}
