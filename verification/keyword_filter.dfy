/** Keyword filtering, topic classification and grouping by primary topic. */
module KeywordFilter {
  import opened Wrappers
  import opened Seqs
  import opened Text
  import opened Types

  /** Group name for items that carry no topic. */
  const UNCATEGORIZED := "uncategorized"

  /** The text keywords are searched in: title, description and content joined by spaces, a missing content read as empty. */
  function SearchText(item: NewsItem): (r: string)
    ensures item.title + " " <= r
    ensures |r| == |item.title| + |item.description| + |Or(item.content, "")| + 2
  {
    item.title + " " + item.description + " " + Or(item.content, "")
  }

  /** Case-insensitive containment of `keyword` in `text`. */
  predicate KeywordHit(text: string, keyword: string) {
    Contains(Lower(text), Lower(keyword))
  }

  /** The test `matchesKeywords` applies to each keyword. */
  function HitsIn(text: string): string -> bool {
    k => KeywordHit(text, k)
  }

  /** `matchesKeywords`: the keywords found in `text`, in keyword order and with their multiplicity. */
  function MatchesKeywords(text: string, keywords: seq<string>): (r: seq<string>)
    ensures |r| <= |keywords|
    ensures forall k :: k in r <==> k in keywords && KeywordHit(text, k)
    ensures forall k :: multiset(r)[k] == if KeywordHit(text, k) then multiset(keywords)[k] else 0
  {
    FilterCount(keywords, HitsIn(text));
    Filter(keywords, HitsIn(text))
  }

  /** The lowercased search text is the lowercased title, description and content, joined by spaces. */
  lemma LowerSearchText(item: NewsItem)
    ensures Lower(SearchText(item)) == Lower(item.title) + " " + Lower(item.description) + " " + Lower(Or(item.content, ""))
  {
    var c := Or(item.content, "");
    LowerAppend(item.title + " " + item.description + " ", c);
    LowerAppend(item.title + " " + item.description, " ");
    LowerAppend(item.title + " ", item.description);
    LowerAppend(item.title, " ");
    assert Lower(" ") == " ";
  }

  /** A keyword occurring in the title, the description or the content, in any letter case, matches the item. */
  lemma KeywordInAnyFieldMatches(item: NewsItem, keyword: string)
    requires || Contains(Lower(item.title), Lower(keyword))
             || Contains(Lower(item.description), Lower(keyword))
             || Contains(Lower(Or(item.content, "")), Lower(keyword))
    ensures KeywordHit(SearchText(item), keyword)
    ensures keyword in MatchesKeywords(SearchText(item), [keyword])
  {
    LowerSearchText(item);
    var t, d, c := Lower(item.title), Lower(item.description), Lower(Or(item.content, ""));
    var k := Lower(keyword);
    if Contains(t, k) {
      ContainsWithin([], t, " " + d + " " + c, k);
      assert [] + t + (" " + d + " " + c) == t + " " + d + " " + c;
    } else if Contains(d, k) {
      ContainsWithin(t + " ", d, " " + c, k);
      assert t + " " + d + (" " + c) == t + " " + d + " " + c;
    } else {
      ContainsWithin(t + " " + d + " ", c, [], k);
      assert t + " " + d + " " + c + [] == t + " " + d + " " + c;
    }
  }

  /** Matching ignores letter case: a lowercase "ai" in the title matches the keyword "AI". */
  lemma MatchIgnoresCase(item: NewsItem, mappings: seq<TopicMapping>)
    requires item.title == "New ai features"
    ensures HasMatch(item, ["AI"])
    ensures "AI" in Classified(item, ["AI"], mappings).matchedKeywords
  {
    assert Lower("AI") == "ai";
    assert OccursAt(Lower(item.title), "ai", 4);
    KeywordInAnyFieldMatches(item, "AI");
  }

  /** The keywords found in a concatenated keyword list are those found in each part, in order. */
  lemma MatchesKeywordsAppend(text: string, a: seq<string>, b: seq<string>)
    ensures MatchesKeywords(text, a + b) == MatchesKeywords(text, a) + MatchesKeywords(text, b)
  {
    FilterAppend(a, b, HitsIn(text));
  }

  /** The topics of the mappings whose topic is among `matched`, in mapping order (exact, case-sensitive comparison). */
  function MappedTopics(matched: seq<string>, mappings: seq<TopicMapping>): (r: seq<string>)
    ensures |r| <= |mappings|
    ensures forall t :: t in r <==> t in matched && exists m :: m in mappings && m.topic == t
  {
    if |mappings| == 0 then []
    else
      assert forall m :: m in mappings <==> m == mappings[0] || m in mappings[1..];
      (if mappings[0].topic in matched then [mappings[0].topic] else []) + MappedTopics(matched, mappings[1..])
  }

  /** Mapped topics of concatenated mapping lists come in mapping order. */
  lemma {:induction false} MappedTopicsAppend(matched: seq<string>, a: seq<TopicMapping>, b: seq<TopicMapping>)
    ensures MappedTopics(matched, a + b) == MappedTopics(matched, a) + MappedTopics(matched, b)
  {
    if |a| == 0 {
      assert a + b == b;
    } else {
      assert (a + b)[1..] == a[1..] + b;
      MappedTopicsAppend(matched, a[1..], b);
    }
  }

  /** The topics of a matched item: the mapped topics, or all matched keywords when no mapping applies. */
  function TopicsFor(matched: seq<string>, mappings: seq<TopicMapping>): (r: seq<string>)
    ensures forall t :: t in r ==> t in matched
    ensures |matched| > 0 ==> |r| > 0
    ensures (forall m :: m in mappings ==> m.topic !in matched) ==> r == matched
    ensures (exists m :: m in mappings && m.topic in matched) ==>
              r == MappedTopics(matched, mappings) && forall t :: t in r ==> exists m :: m in mappings && m.topic == t
  {
    var topics := MappedTopics(matched, mappings);
    if |topics| > 0 then
      assert topics[0] in topics;
      topics
    else
      assert forall m :: m in mappings ==> m.topic !in matched;
      matched
  }

  /** At least one keyword of the list occurs in the item's search text. */
  predicate HasMatch(item: NewsItem, keywords: seq<string>) {
    exists k :: k in keywords && KeywordHit(SearchText(item), k)
  }

  /** The item with its classification fields set. */
  function Classified(item: NewsItem, keywords: seq<string>, mappings: seq<TopicMapping>): NewsItem {
    var matched := MatchesKeywords(SearchText(item), keywords);
    item.(matchedKeywords := matched, topics := TopicsFor(matched, mappings))
  }

  /** Classification of one item: present iff a keyword matched; only the classification fields change. */
  function Classify(item: NewsItem, keywords: seq<string>, mappings: seq<TopicMapping>): (r: Option<NewsItem>)
    ensures r.Some? <==> HasMatch(item, keywords)
    ensures r.Some? ==> r.value == Classified(item, keywords, mappings)
    ensures r.Some? ==>
              && r.value.id == item.id && r.value.title == item.title
              && r.value.description == item.description && r.value.content == item.content
              && r.value.link == item.link && r.value.pubDate == item.pubDate
              && r.value.source == item.source && r.value.sourceUrl == item.sourceUrl
              && |r.value.matchedKeywords| > 0 && |r.value.topics| > 0
  {
    var matched := MatchesKeywords(SearchText(item), keywords);
    if |matched| > 0 then Some(Classified(item, keywords, mappings)) else None
  }

  /** `filterAndClassifyItems`: the matching items, classified, in input order; nothing when the feed has no keywords. */
  function FilterAndClassifyItems(items: seq<NewsItem>, feed: FeedConfig, mappings: seq<TopicMapping>): (r: seq<NewsItem>)
    ensures |feed.keywords| == 0 ==> r == []
    ensures |r| <= |items|
    ensures forall y :: y in r ==>
              exists x :: x in items && HasMatch(x, feed.keywords) && y == Classified(x, feed.keywords, mappings)
    ensures forall x :: x in items && HasMatch(x, feed.keywords) ==> Classified(x, feed.keywords, mappings) in r
    ensures forall y :: y in r ==> |y.matchedKeywords| > 0 && |y.topics| > 0
  {
    if |feed.keywords| == 0 then []
    else ClassifyAll(items, feed.keywords, mappings)
  }

  /** The per-item loop of `filterAndClassifyItems`. */
  function ClassifyAll(items: seq<NewsItem>, keywords: seq<string>, mappings: seq<TopicMapping>): (r: seq<NewsItem>)
    ensures |r| <= |items|
    ensures forall y :: y in r ==>
              exists x :: x in items && HasMatch(x, keywords) && y == Classified(x, keywords, mappings)
    ensures forall x :: x in items && HasMatch(x, keywords) ==> Classified(x, keywords, mappings) in r
    ensures forall y :: y in r ==> |y.matchedKeywords| > 0 && |y.topics| > 0
  {
    if |items| == 0 then []
    else
      assert forall x :: x in items <==> x == items[0] || x in items[1..];
      var rest := ClassifyAll(items[1..], keywords, mappings);
      match Classify(items[0], keywords, mappings)
      case Some(c) => [c] + rest
      case None => rest
  }

  /** Classification keeps input order: classifying a concatenation classifies each part. */
  lemma {:induction false} ClassifyAllAppend(a: seq<NewsItem>, b: seq<NewsItem>, keywords: seq<string>, mappings: seq<TopicMapping>)
    ensures ClassifyAll(a + b, keywords, mappings) == ClassifyAll(a, keywords, mappings) + ClassifyAll(b, keywords, mappings)
  {
    if |a| == 0 {
      assert a + b == b;
    } else {
      assert (a + b)[1..] == a[1..] + b;
      assert (a + b)[0] == a[0];
      ClassifyAllAppend(a[1..], b, keywords, mappings);
    }
  }

  /** The output holds one classified item per matching input item, in input order. */
  lemma FilterAndClassifyOrder(a: seq<NewsItem>, b: seq<NewsItem>, feed: FeedConfig, mappings: seq<TopicMapping>)
    ensures FilterAndClassifyItems(a + b, feed, mappings)
         == FilterAndClassifyItems(a, feed, mappings) + FilterAndClassifyItems(b, feed, mappings)
  {
    if |feed.keywords| > 0 {
      ClassifyAllAppend(a, b, feed.keywords, mappings);
    }
  }

  /** A single item passes the filter exactly when one of the feed's keywords occurs in it. */
  lemma FilterSingleItem(x: NewsItem, feed: FeedConfig, mappings: seq<TopicMapping>)
    ensures FilterAndClassifyItems([x], feed, mappings)
         == if HasMatch(x, feed.keywords) then [Classified(x, feed.keywords, mappings)] else []
  {
    if |feed.keywords| > 0 {
      assert [x][1..] == [];
    }
  }

  // ---------------------------------------------------------------------------
  // Grouping by primary topic

  /** One entry of the `Map` `groupItemsByTopic` returns. */
  datatype Group = Group(topic: string, items: seq<NewsItem>)

  /** The group an item is routed to: its first topic, or the sentinel when it has none. */
  function PrimaryTopic(item: NewsItem): (r: string)
    ensures |item.topics| > 0 ==> r == item.topics[0]
    ensures |item.topics| == 0 ==> r == UNCATEGORIZED
  {
    if |item.topics| > 0 then item.topics[0] else UNCATEGORIZED
  }

  function HasPrimary(topic: string): NewsItem -> bool {
    x => PrimaryTopic(x) == topic
  }

  /** The keys of a group list, in order. */
  function Topics(groups: seq<Group>): (r: seq<string>)
    ensures |r| == |groups|
    ensures forall j :: 0 <= j < |groups| ==> r[j] == groups[j].topic
  {
    if |groups| == 0 then [] else [groups[0].topic] + Topics(groups[1..])
  }

  /** Map keys are unique. */
  predicate UniqueTopics(groups: seq<Group>) {
    forall i, j :: 0 <= i < j < |groups| ==> groups[i].topic != groups[j].topic
  }

  /** Total number of items over all groups. */
  function TotalSize(groups: seq<Group>): nat {
    if |groups| == 0 then 0 else |groups[0].items| + TotalSize(groups[1..])
  }

  /** Position of the group keyed `topic`, if any. */
  function IndexOfTopic(groups: seq<Group>, topic: string): (r: Option<nat>)
    ensures r.Some? ==> r.value < |groups| && groups[r.value].topic == topic
    ensures r.None? ==> forall j :: 0 <= j < |groups| ==> groups[j].topic != topic
  {
    if |groups| == 0 then None
    else if groups[0].topic == topic then Some(0)
    else match IndexOfTopic(groups[1..], topic)
      case Some(i) => Some(i + 1)
      case None => None
  }

  lemma {:induction false} TotalSizeUpdate(groups: seq<Group>, i: nat, g: Group)
    requires i < |groups|
    ensures TotalSize(groups[i := g]) == TotalSize(groups) - |groups[i].items| + |g.items|
  {
    if i > 0 {
      assert groups[i := g][1..] == groups[1..][i - 1 := g];
      TotalSizeUpdate(groups[1..], i - 1, g);
    }
  }

  lemma {:induction false} TotalSizeSnoc(groups: seq<Group>, g: Group)
    ensures TotalSize(groups + [g]) == TotalSize(groups) + |g.items|
  {
    if |groups| > 0 {
      assert (groups + [g])[1..] == groups[1..] + [g];
      TotalSizeSnoc(groups[1..], g);
    } else {
      assert ([g])[1..] == [];
    }
  }

  /** One step of the grouping loop: append `item` to the group `topic`, creating it at the end if absent. */
  function AddToGroup(groups: seq<Group>, topic: string, item: NewsItem): (r: seq<Group>)
    requires UniqueTopics(groups)
    ensures UniqueTopics(r)
    ensures |r| == if topic in Topics(groups) then |groups| else |groups| + 1
    ensures forall j :: 0 <= j < |groups| ==> r[j].topic == groups[j].topic
    ensures forall j :: 0 <= j < |groups| ==>
              r[j].items == if groups[j].topic == topic then groups[j].items + [item] else groups[j].items
    ensures topic !in Topics(groups) ==> r[|groups|] == Group(topic, [item])
    ensures TotalSize(r) == TotalSize(groups) + 1
  {
    match IndexOfTopic(groups, topic)
    case Some(i) =>
      TotalSizeUpdate(groups, i, groups[i].(items := groups[i].items + [item]));
      groups[i := groups[i].(items := groups[i].items + [item])]
    case None =>
      assert topic !in Topics(groups);
      TotalSizeSnoc(groups, Group(topic, [item]));
      groups + [Group(topic, [item])]
  }

  /** The keys after one grouping step: unchanged when present, else extended by the new key. */
  lemma AddToGroupTopics(groups: seq<Group>, topic: string, item: NewsItem)
    requires UniqueTopics(groups)
    ensures Topics(AddToGroup(groups, topic, item)) == if topic in Topics(groups) then Topics(groups) else Topics(groups) + [topic]
  {
  }

  /** `groupItemsByTopic`, as the left-to-right loop of the source. */
  function GroupItemsByTopic(items: seq<NewsItem>): (r: seq<Group>)
    ensures UniqueTopics(r)
    ensures forall j :: 0 <= j < |r| ==> |r[j].items| > 0
    ensures TotalSize(r) == |items|
  {
    if |items| == 0 then []
    else
      var last := items[|items| - 1];
      AddToGroup(GroupItemsByTopic(items[..|items| - 1]), PrimaryTopic(last), last)
  }

  /** Group keys are the primary topics of the items, in order of first occurrence. */
  lemma {:induction false} GroupKeysFirstOccurrence(items: seq<NewsItem>)
    ensures Topics(GroupItemsByTopic(items)) == Dedup(PrimaryTopics(items))
  {
    if |items| > 0 {
      var init := items[..|items| - 1];
      var last := items[|items| - 1];
      assert PrimaryTopics(items) == PrimaryTopics(init) + [PrimaryTopic(last)];
      assert PrimaryTopics(items)[..|items| - 1] == PrimaryTopics(init);
      GroupKeysFirstOccurrence(init);
      AddToGroupTopics(GroupItemsByTopic(init), PrimaryTopic(last), last);
    }
  }

  /** Each group holds exactly the items with that primary topic, in input order. */
  lemma {:induction false} GroupIsFilter(items: seq<NewsItem>, j: int)
    requires 0 <= j < |GroupItemsByTopic(items)|
    ensures GroupItemsByTopic(items)[j].items == Filter(items, HasPrimary(GroupItemsByTopic(items)[j].topic))
  {
    var init := items[..|items| - 1];
    var last := items[|items| - 1];
    SplitLast(items);
    if j < |GroupItemsByTopic(init)| {
      GroupIsFilter(init, j);
      GroupStepKeepsFilter(init, last, j);
    } else {
      GroupStepNewFilter(init, last, j);
    }
  }

  /** One grouping step keeps an existing group equal to the filter of the items seen so far. */
  lemma GroupStepKeepsFilter(init: seq<NewsItem>, last: NewsItem, j: int)
    requires 0 <= j < |GroupItemsByTopic(init)|
    requires GroupItemsByTopic(init)[j].items == Filter(init, HasPrimary(GroupItemsByTopic(init)[j].topic))
    ensures var r := GroupItemsByTopic(init + [last]);
      j < |r| && r[j].items == Filter(init + [last], HasPrimary(r[j].topic))
  {
    var items := init + [last];
    assert items[..|items| - 1] == init;
    var g := GroupItemsByTopic(init);
    var r := GroupItemsByTopic(items);
    assert r == AddToGroup(g, PrimaryTopic(last), last);
    var t := g[j].topic;
    assert r[j].topic == t;
    assert HasPrimary(t)(last) <==> PrimaryTopic(last) == t;
    FilterSnoc(init, last, HasPrimary(t));
  }

  /** A group that one grouping step creates is the filter of the items seen so far. */
  lemma GroupStepNewFilter(init: seq<NewsItem>, last: NewsItem, j: int)
    requires |GroupItemsByTopic(init)| <= j < |GroupItemsByTopic(init + [last])|
    ensures var r := GroupItemsByTopic(init + [last]);
      r[j].items == Filter(init + [last], HasPrimary(r[j].topic))
  {
    var items := init + [last];
    assert items[..|items| - 1] == init;
    var g := GroupItemsByTopic(init);
    var r := GroupItemsByTopic(items);
    var t := PrimaryTopic(last);
    assert r == AddToGroup(g, t, last);
    assert t !in Topics(g) && j == |g|;
    assert r[j] == Group(t, [last]);
    NewGroupHasNoEarlierItems(init, last);
    assert HasPrimary(t)(last);
    FilterSnoc(init, last, HasPrimary(t));
  }

  /** A group created by the last item holds nothing from before it. */
  lemma NewGroupHasNoEarlierItems(init: seq<NewsItem>, last: NewsItem)
    requires PrimaryTopic(last) !in Topics(GroupItemsByTopic(init))
    ensures Filter(init, HasPrimary(PrimaryTopic(last))) == []
  {
    var t := PrimaryTopic(last);
    GroupKeysFirstOccurrence(init);
    forall i | 0 <= i < |init|
      ensures !HasPrimary(t)(init[i])
    {
      assert PrimaryTopics(init)[i] in PrimaryTopics(init);
    }
    FilterDropsAll(init, HasPrimary(t));
  }

  /** The primary topic of each item, in order. */
  function PrimaryTopics(items: seq<NewsItem>): (r: seq<string>)
    ensures |r| == |items|
    ensures forall i :: 0 <= i < |items| ==> r[i] == PrimaryTopic(items[i])
  {
    seq(|items|, i requires 0 <= i < |items| => PrimaryTopic(items[i]))
  }

  /** Every group member is an input item whose primary topic is the group key. */
  lemma GroupMembersSound(items: seq<NewsItem>, j: int, x: NewsItem)
    requires 0 <= j < |GroupItemsByTopic(items)|
    requires x in GroupItemsByTopic(items)[j].items
    ensures x in items && PrimaryTopic(x) == GroupItemsByTopic(items)[j].topic
  {
    GroupIsFilter(items, j);
  }

  /** Every input item lands in exactly one group, the one keyed by its primary topic (never a later topic). */
  lemma GroupingIsPartition(items: seq<NewsItem>, x: NewsItem)
    requires x in items
    ensures PrimaryTopic(x) in Topics(GroupItemsByTopic(items))
    ensures forall j :: 0 <= j < |GroupItemsByTopic(items)| ==>
              (x in GroupItemsByTopic(items)[j].items <==> GroupItemsByTopic(items)[j].topic == PrimaryTopic(x))
  {
    var r := GroupItemsByTopic(items);
    GroupKeysFirstOccurrence(items);
    var i :| 0 <= i < |items| && items[i] == x;
    assert PrimaryTopics(items)[i] == PrimaryTopic(x);
    forall j | 0 <= j < |r|
      ensures x in r[j].items <==> r[j].topic == PrimaryTopic(x)
    {
      GroupIsFilter(items, j);
    }
  }
}
