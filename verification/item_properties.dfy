/** How a run handles one item: skipped, marked, retried later or published and recorded. */
module ItemProperties {
  import opened Wrappers
  import opened Types
  import opened ConfigManager
  import opened ConfluencePublisher
  import opened NewsProcessor

  /** The run's ledger lookup is membership in the ledger it holds. */
  lemma StoredLookup(ledger: Ledger, id: string)
    ensures IsItemProcessed(Stored(ledger), id) <==> id in ledger
  {
  }

  /** An item the ledger already holds is skipped: nothing is sent to the wiki and nothing else changes. */
  lemma LedgerHitSkips(st: RunState, item: NewsItem, mapping: TopicMapping, env: Env)
    requires item.id in st.ledger
    ensures ProcessItem(st, item, mapping, env) == st.(result := st.result.(skippedItems := st.result.skippedItems + 1))
  {
    StoredLookup(st.ledger, item.id);
  }

  /**
   * An item whose title already exists in the space (before the run or created by it) is skipped
   * without publishing, recorded with the existing page id.
   */
  lemma ExistingPageMarked(st: RunState, item: NewsItem, mapping: TopicMapping, env: Env)
    requires item.id !in st.ledger
    requires ExistsInRun(st, mapping.spaceKey, item.title, env.search).found
    requires env.saveError(st.writes).None?
    ensures var r := ProcessItem(st, item, mapping, env);
      && r.attempts == st.attempts && r.created == st.created
      && r.result.publishedItems == st.result.publishedItems
      && r.result.skippedItems == st.result.skippedItems + 1
      && r.ledger == MarkItemProcessed(Stored(st.ledger), env.storedConfig, item.id,
                                       ExistsInRun(st, mapping.spaceKey, item.title, env.search).pageId, None,
                                       env.clock(st.writes).0, env.clock(st.writes).1)
  {
    StoredLookup(st.ledger, item.id);
  }

  /** A page appended to the created pages is found by its space and title. */
  lemma FindCreatedAppended(created: seq<CreatedPage>, p: CreatedPage)
    ensures FindCreated(created + [p], p.spaceKey, p.title).Some?
  {
    assert (created + [p])[|created|] == p;
  }

  /**
   * A failed publish records one error and leaves the ledger alone, so the item is retried by a
   * later run. When the wiki did create the page (its link was malformed), the page is visible to
   * the rest of the run.
   */
  lemma FailedPublishNotRecorded(st: RunState, item: NewsItem, mapping: TopicMapping, env: Env)
    requires item.id !in st.ledger
    requires !ExistsInRun(st, mapping.spaceKey, item.title, env.search).found
    requires PublishNewsItem(item, mapping, env.search, env.create, env.formatDate).None?
    ensures var r := ProcessItem(st, item, mapping, env);
      && r.result.errors == st.result.errors + [PublishError(item.title)]
      && r.ledger == st.ledger && item.id !in r.ledger
      && r.attempts == st.attempts + [item.id]
      && r.result.publishedItems == st.result.publishedItems
      && (env.create(PublishRequest(item, mapping, env.search, env.formatDate)).Created? ==>
            FindCreated(r.created, mapping.spaceKey, item.title).Some?)
  {
    StoredLookup(st.ledger, item.id);
    var answer := env.create(PublishRequest(item, mapping, env.search, env.formatDate));
    if answer.Created? {
      FindCreatedAppended(st.created, CreatedPage(mapping.spaceKey, item.title, answer.pageId));
    }
  }

  /** An item counts as published only on the path that sends it to the wiki and records the created page. */
  lemma PublishedPath(st: RunState, item: NewsItem, mapping: TopicMapping, env: Env)
    requires ProcessItem(st, item, mapping, env).result.publishedItems == st.result.publishedItems + 1
    ensures var page := PublishNewsItem(item, mapping, env.search, env.create, env.formatDate);
      && page.Some?
      && ProcessItem(st, item, mapping, env)
         == Record(st.(attempts := st.attempts + [item.id],
                       created := st.created + [CreatedPage(mapping.spaceKey, item.title, page.value.pageId)]),
                   item, Some(page.value.pageId), Some(page.value.pageUrl), true, env)
  {
    StoredLookup(st.ledger, item.id);
  }

  /** A published item is recorded with the new page's id and URL, unless its own prune evicts it. */
  lemma PublishedRecorded(st: RunState, item: NewsItem, mapping: TopicMapping, env: Env)
    requires ProcessItem(st, item, mapping, env).result.publishedItems == st.result.publishedItems + 1
    ensures var r := ProcessItem(st, item, mapping, env);
      var page := PublishNewsItem(item, mapping, env.search, env.create, env.formatDate);
      && page.Some?
      && (item.id in r.ledger ==> r.ledger[item.id] == ProcessedItem(item.id, env.clock(st.writes).0, Some(page.value.pageId), Some(page.value.pageUrl)))
      && (item.id in r.ledger <==>
            env.clock(st.writes).0 >= Cutoff(env.clock(st.writes).1, LoadConfig(env.storedConfig).deduplicationWindow))
  {
    PublishedPath(st, item, mapping, env);
    var page := PublishNewsItem(item, mapping, env.search, env.create, env.formatDate).value;
    var sent := st.(attempts := st.attempts + [item.id],
                    created := st.created + [CreatedPage(mapping.spaceKey, item.title, page.pageId)]);
    var r := Record(sent, item, Some(page.pageId), Some(page.pageUrl), true, env);
    assert env.saveError(st.writes).None?;
  }

  /**
   * Once an item is published, a later item with the same title routed to the same space finds the
   * new page: it is not sent to the wiki and not published.
   */
  lemma SameTitleNotSentTwice(st: RunState, a: NewsItem, b: NewsItem, m: TopicMapping, m2: TopicMapping, env: Env)
    requires ProcessItem(st, a, m, env).result.publishedItems == st.result.publishedItems + 1
    requires b.title == a.title && m2.spaceKey == m.spaceKey
    ensures var r := ProcessItem(st, a, m, env);
      var r2 := ProcessItem(r, b, m2, env);
      && r2.attempts == r.attempts && r2.created == r.created
      && r2.result.publishedItems == r.result.publishedItems
  {
    var r := ProcessItem(st, a, m, env);
    var pageId := PublishNewsItem(a, m, env.search, env.create, env.formatDate).value.pageId;
    FindCreatedAppended(st.created, CreatedPage(m.spaceKey, a.title, pageId));
    assert ExistsInRun(r, m2.spaceKey, b.title, env.search).found;
  }

  /** The next item handled with an id the ledger holds is a skip: it is not sent to the wiki again. */
  lemma RecordedItemSkippedLater(st: RunState, item: NewsItem, later: NewsItem, mapping: TopicMapping, other: TopicMapping, env: Env)
    requires item.id in ProcessItem(st, item, mapping, env).ledger
    requires later.id == item.id
    ensures var r := ProcessItem(st, item, mapping, env);
      ProcessItem(r, later, other, env).result.skippedItems == r.result.skippedItems + 1
      && ProcessItem(r, later, other, env).result.publishedItems == r.result.publishedItems
      && ProcessItem(r, later, other, env).attempts == r.attempts
  {
    StoredLookup(ProcessItem(st, item, mapping, env).ledger, later.id);
  }

  /** A ledger write keeps every other record that is within the window of its cutoff, unchanged. */
  lemma MarkKeepsRecord(ledger: Ledger, storedConfig: StoreRead<AppConfig>, itemId: string,
                        pageId: Option<string>, pageUrl: Option<string>, t1: int, t2: int, id: string)
    requires id in ledger && id != itemId
    requires ledger[id].processedAt >= Cutoff(t2, LoadConfig(storedConfig).deduplicationWindow)
    ensures var r := MarkItemProcessed(Stored(ledger), storedConfig, itemId, pageId, pageUrl, t1, t2);
      id in r && r[id] == ledger[id]
  {
    assert LoadProcessedItems(Stored(ledger)) == ledger;
  }

  /** A ledger record that is within the window of the next write survives handling the next item, unchanged. */
  lemma RecordSurvivesNextItem(st: RunState, x: NewsItem, m: TopicMapping, env: Env, id: string)
    requires id in st.ledger
    requires st.ledger[id].processedAt >= Cutoff(env.clock(st.writes).1, LoadConfig(env.storedConfig).deduplicationWindow)
    ensures var r := ProcessItem(st, x, m, env);
      id in r.ledger && r.ledger[id] == st.ledger[id]
  {
    var (t1, t2) := env.clock(st.writes);
    if x.id in st.ledger {
      LedgerHitSkips(st, x, m, env);
    } else {
      StoredLookup(st.ledger, x.id);
      var e := ExistsInRun(st, m.spaceKey, x.title, env.search);
      if e.found {
        if env.saveError(st.writes).None? {
          MarkKeepsRecord(st.ledger, env.storedConfig, x.id, e.pageId, None, t1, t2, id);
        }
      } else {
        match PublishNewsItem(x, m, env.search, env.create, env.formatDate)
        case None =>
        case Some(page) =>
          if env.saveError(st.writes).None? {
            MarkKeepsRecord(st.ledger, env.storedConfig, x.id, Some(page.pageId), Some(page.pageUrl), t1, t2, id);
          }
      }
    }
  }

  /**
   * Within a group, an id the ledger holds is never sent to the wiki again as long as every later
   * write's cutoff leaves its record inside the window.
   */
  lemma {:induction false} RecordedItemNeverResent(st: RunState, items: seq<NewsItem>, m: TopicMapping, env: Env, id: string)
    requires id in st.ledger
    requires forall k: nat :: st.writes <= k ==>
               Cutoff(env.clock(k).1, LoadConfig(env.storedConfig).deduplicationWindow) <= st.ledger[id].processedAt
    ensures var r := ProcessItems(st, items, m, env);
      && id in r.ledger && r.ledger[id] == st.ledger[id]
      && st.attempts <= r.attempts
      && forall j :: |st.attempts| <= j < |r.attempts| ==> r.attempts[j] != id
    decreases |items|
  {
    if |items| > 0 {
      var s1 := ProcessItem(st, items[0], m, env);
      RecordSurvivesNextItem(st, items[0], m, env, id);
      if items[0].id == id {
        LedgerHitSkips(st, items[0], m, env);
      }
      assert s1.attempts == st.attempts || (s1.attempts == st.attempts + [items[0].id] && items[0].id != id);
      RecordedItemNeverResent(s1, items[1..], m, env, id);
      var r := ProcessItems(s1, items[1..], m, env);
      assert ProcessItems(st, items, m, env) == r;
      forall j | |st.attempts| <= j < |r.attempts|
        ensures r.attempts[j] != id
      {
        if j >= |s1.attempts| {
        } else {
          assert r.attempts[j] == s1.attempts[j];
        }
      }
    }
  }
}
