/** What a whole run reports in two corner cases of the feed loop. */
module RunProperties {
  import opened Wrappers
  import opened Seqs
  import opened Types
  import opened KeywordFilter
  import opened ConfigManager
  import opened FeedParser
  import opened NewsProcessor

  /** A run with a single parse result processes it against the first configured feed, from empty counters. */
  lemma SingleResultRun(env: Env, stored: StoreRead<StoredLedger>, res: FeedParseResult)
    requires ParseResults(env) == [res]
    ensures var config := LoadConfig(env.storedConfig);
      var start := ProcessingResult(|config.feeds|, |Filter([res], Succeeded)|, 0, 0, 0, 0, []);
      ProcessAllFeeds(env, stored) == ProcessFeedResult(RunState(start, LoadProcessedItems(stored), 0, [], []), res, config.feeds[0], config.topicMappings, env)
  {
    var config := LoadConfig(env.storedConfig);
    var start := ProcessingResult(|config.feeds|, |Filter([res], Succeeded)|, 0, 0, 0, 0, []);
    var next := ProcessFeedResult(RunState(start, LoadProcessedItems(stored), 0, [], []), res, config.feeds[0], config.topicMappings, env);
    assert ProcessResults(RunState(start, LoadProcessedItems(stored), 0, [], []), [res], config.feeds, config.topicMappings, env)
        == ProcessResults(next, [], config.feeds[1..], config.topicMappings, env);
  }

  /**
   * Results are paired with configured feeds by position although only enabled feeds are parsed:
   * with a disabled feed first, the second feed's failure is reported under the first feed's name.
   */
  lemma DisabledFeedShiftsPairing(env: Env, stored: StoreRead<StoredLedger>, a: FeedConfig, b: FeedConfig, message: string)
    requires LoadConfig(env.storedConfig).feeds == [a, b]
    requires !a.enabled && b.enabled
    requires env.fetch(b) == FetchFailed(Some(message)) && message != ""
    ensures ProcessAllFeeds(env, stored).result.errors == [FeedError(a.name, message)]
    ensures ProcessAllFeeds(env, stored).result.successfulFeeds == 0
    ensures ProcessAllFeeds(env, stored).result.totalFeeds == 2
  {
    OnlySecondFeedParsed(env, a, b, message);
    SingleResultRun(env, stored, FeedParseResult([], Some(message)));
  }

  /** Only the enabled second feed is parsed, and its failure is the only result. */
  lemma OnlySecondFeedParsed(env: Env, a: FeedConfig, b: FeedConfig, message: string)
    requires LoadConfig(env.storedConfig).feeds == [a, b]
    requires !a.enabled && b.enabled
    requires env.fetch(b) == FetchFailed(Some(message)) && message != ""
    ensures ParseResults(env) == [FeedParseResult([], Some(message))]
    ensures Filter([FeedParseResult([], Some(message))], Succeeded) == []
  {
    SecondFeedEnabledOnly(a, b);
    SingleFeedFailed(env, b, Some(message));
    FilterSingle(FeedParseResult([], Some(message)), Succeeded);
  }

  /** When exactly one feed is enabled and its fetch throws, the run's only parse result carries that error. */
  lemma SingleFeedFailed(env: Env, f: FeedConfig, thrown: Option<string>)
    requires EnabledFeeds(LoadConfig(env.storedConfig).feeds) == [f]
    requires env.fetch(f) == FetchFailed(thrown)
    ensures ParseResults(env) == [FeedParseResult([], Some(ErrorMessage(thrown)))]
  {
    var results := ParseResults(env);
    assert results[0] == ParseFeed(f, env.fetch(f), env.sha, env.nowIso);
  }

  /** Filtering a disabled and an enabled feed leaves the enabled one. */
  lemma SecondFeedEnabledOnly(a: FeedConfig, b: FeedConfig)
    requires !a.enabled && b.enabled
    ensures EnabledFeeds([a, b]) == [b]
  {
    assert [a, b] == [a] + [b];
    FilterAppend([a], [b], IsEnabled);
  }

  /** A feed that fails with an empty message is falsy-errored: it counts as successful and reports nothing. */
  lemma EmptyErrorMessageCountsAsSuccess(env: Env, stored: StoreRead<StoredLedger>, a: FeedConfig)
    requires LoadConfig(env.storedConfig).feeds == [a] && a.enabled
    requires env.fetch(a) == FetchFailed(Some(""))
    ensures ProcessAllFeeds(env, stored).result.successfulFeeds == 1
    ensures ProcessAllFeeds(env, stored).result.errors == []
    ensures ProcessAllFeeds(env, stored).result.totalItems == 0
  {
    FilterSingle(a, IsEnabled);
    SingleFeedFailed(env, a, Some(""));
    var failed := FeedParseResult([], Some(""));
    FilterSingle(failed, Succeeded);
    SingleResultRun(env, stored, failed);
    assert GroupItemsByTopic([]) == [];
  }
}
