/** Building and submitting wiki pages for news items. The wiki's REST API is an oracle. */
module ConfluencePublisher {
  import opened Wrappers
  import opened Text
  import opened Types

  /** The answer to "find content by space key and exact title": the ids of the hits in order, or a failure. */
  datatype SearchOutcome = SearchFailed | SearchResults(ids: seq<string>)

  /**
   * The answer to "create content". `Created` carries the new page id and its `webui` link: absent
   * or empty, one the URL constructor accepts (with the host it parses out of it), or one the URL
   * constructor rejects, which throws inside the publisher. Host parsing itself is not modelled.
   */
  datatype CreateOutcome = Created(pageId: string, link: PageLink) | Rejected(status: int, text: string) | CreateFailed(message: string)

  datatype PageLink = NoLink | ParsedLink(webui: string, host: string) | MalformedLink

  datatype PublishResult = PublishResult(pageId: string, pageUrl: string)

  datatype ExistsResult = ExistsResult(found: bool, pageId: Option<string>)

  /** `findParentPage`: no lookup without a title; otherwise the first hit's id, or nothing on no hit or failure. */
  function FindParentPage(spaceKey: string, parentPageTitle: Option<string>, search: (string, string) -> SearchOutcome): (r: Option<string>)
    ensures Or(parentPageTitle, "") == "" ==> r.None?
    ensures Or(parentPageTitle, "") != "" ==>
              var answer := search(spaceKey, parentPageTitle.value);
              (r.Some? <==> answer.SearchResults? && |answer.ids| > 0) && (r.Some? ==> r.value == answer.ids[0])
  {
    if !Truthy(Or(parentPageTitle, "")) then None
    else match search(spaceKey, parentPageTitle.value)
      case SearchResults(ids) => if |ids| > 0 then Some(ids[0]) else None
      case SearchFailed => None
  }

  /** The parent id of a new page: the mapping's own id when set, otherwise a lookup by parent title. */
  function ResolveParentId(mapping: TopicMapping, search: (string, string) -> SearchOutcome): (r: Option<string>)
    ensures Or(mapping.parentPageId, "") != "" ==> r == mapping.parentPageId
    ensures Or(mapping.parentPageId, "") == "" ==> r == FindParentPage(mapping.spaceKey, mapping.parentPageTitle, search)
  {
    if Truthy(Or(mapping.parentPageId, "")) then mapping.parentPageId
    else if Truthy(Or(mapping.parentPageTitle, "")) then FindParentPage(mapping.spaceKey, mapping.parentPageTitle, search)
    else None
  }

  /** With a parent id configured no title lookup happens: the search oracle does not matter. */
  lemma ParentIdNeedsNoLookup(mapping: TopicMapping, search1: (string, string) -> SearchOutcome, search2: (string, string) -> SearchOutcome)
    requires Or(mapping.parentPageId, "") != ""
    ensures ResolveParentId(mapping, search1) == ResolveParentId(mapping, search2) == mapping.parentPageId
  {
  }

  // ---------------------------------------------------------------------------
  // Page body

  const NO_DESCRIPTION := "No description available."
  const NO_TOPICS := "N/A"
  const FOOTER := "<hr/>\n<p><em>Automatically aggregated by AI News Aggregator</em></p>"

  /** The Summary paragraph: the description, or a placeholder when it is empty. */
  function SummaryText(item: NewsItem): (r: string)
    ensures item.description != "" ==> r == item.description
    ensures item.description == "" ==> r == NO_DESCRIPTION
  {
    if Truthy(item.description) then item.description else NO_DESCRIPTION
  }

  /** The Topics cell: the topics joined by ", ", or "N/A" when that join is empty. */
  function TopicsCell(topics: seq<string>): (r: string)
    ensures topics == [] || topics == [""] ==> r == NO_TOPICS
    ensures !(topics == [] || topics == [""]) ==> r == Join(topics, ", ") && r != ""
  {
    JoinEmpty(topics, ", ");
    var joined := Join(topics, ", ");
    if Truthy(joined) then joined else NO_TOPICS
  }

  /** The optional Full Content section: present exactly when the item's content is non-empty. */
  function FullContentSection(item: NewsItem): (r: string)
    ensures r != "" <==> Or(item.content, "") != ""
    ensures Or(item.content, "") != "" ==> r == "<h2>Full Content</h2><div>" + item.content.value + "</div>"
  {
    if Truthy(Or(item.content, "")) then "<h2>Full Content</h2><div>" + item.content.value + "</div>" else ""
  }

  /** The opening Summary heading and paragraph. */
  function SummaryBlock(item: NewsItem): string {
    "<h2>Summary</h2>\n<p>" + SummaryText(item) + "</p>"
  }

  function TopicsRow(item: NewsItem): string {
    "<th>Topics</th>\n    <td>" + TopicsCell(item.topics) + "</td>"
  }

  /** The details table up to its Topics row; `published` is the localised publication date. */
  function DetailsHead(item: NewsItem, published: string): string {
    "<h2>Details</h2>\n<table>\n  <tr>\n    <th>Source</th>\n    <td>" + item.source
    + "</td>\n  </tr>\n  <tr>\n    <th>Published</th>\n    <td>" + published
    + "</td>\n  </tr>\n  <tr>\n    <th>Link</th>\n    <td><a href=\"" + item.link + "\">" + item.link
    + "</a></td>\n  </tr>\n  <tr>\n    "
  }

  const DETAILS_END := "\n  </tr>\n</table>"


  const SEP := "\n\n"

  /** The page layout: summary, details table (split around its Topics row), optional full content, footer. */
  function LayoutParts(summary: string, detailsHead: string, topicsRow: string, fullContent: string): seq<string> {
    [summary, SEP, detailsHead, topicsRow, DETAILS_END, SEP, fullContent, SEP, FOOTER]
  }

  /** The page text between the template's framing white space. */
  function PageText(item: NewsItem, published: string): string {
    Concat(LayoutParts(SummaryBlock(item), DetailsHead(item, published), TopicsRow(item), FullContentSection(item)))
  }

  /** The template literal before `trim`. */
  function PageTemplate(item: NewsItem, published: string): string {
    "\n" + PageText(item, published) + "\n  "
  }

  /** The first and last characters of the page are tag brackets, so `trim` leaves them in place. */
  lemma PageTextEnds(item: NewsItem, published: string)
    ensures var text := PageText(item, published);
      |text| > 0 && text[0] == '<' && text[|text| - 1] == '>'
  {
    var parts := LayoutParts(SummaryBlock(item), DetailsHead(item, published), TopicsRow(item), FullContentSection(item));
    var text := Concat(parts);
    assert SummaryBlock(item)[0] == '<';
    assert parts[0] <= text;
    assert text[0] == parts[0][0];
    ConcatEnds(parts);
    assert parts[8] == FOOTER;
    assert text[|text| - 1] == text[|text| - |FOOTER|..][|FOOTER| - 1];
  }

  lemma TrimmedTemplate(item: NewsItem, published: string)
    ensures Trim(PageTemplate(item, published)) == PageText(item, published)
  {
    var text := PageText(item, published);
    PageTextEnds(item, published);
    assert AllWhitespace("\n") && AllWhitespace("\n  ");
    TrimFramed("\n", text, "\n  ");
  }

  /**
   * `generatePageContent` (date formatting excluded: `published` is the formatted date). Trimming
   * removes exactly the template's framing white space and nothing of the page itself.
   */
  function GeneratePageContent(item: NewsItem, published: string): (r: string)
    ensures r == PageText(item, published)
    ensures |r| > 0 && r[0] == '<' && r[|r| - 1] == '>'
  {
    TrimmedTemplate(item, published);
    PageTextEnds(item, published);
    Trim(PageTemplate(item, published))
  }

  /** The generated page opens with the Summary block, closes with the generated-by footer and carries the Topics row. */
  lemma PageFraming(item: NewsItem, published: string)
    ensures var page := GeneratePageContent(item, published);
      && SummaryBlock(item) <= page
      && |page| >= |FOOTER| && page[|page| - |FOOTER|..] == FOOTER
      && Contains(page, TopicsRow(item))
  {
    var parts := LayoutParts(SummaryBlock(item), DetailsHead(item, published), TopicsRow(item), FullContentSection(item));
    assert parts[0] == SummaryBlock(item) && parts[3] == TopicsRow(item) && parts[8] == FOOTER;
    ConcatEnds(parts);
    ConcatContains(parts, 3);
  }

  /**
   * The Full Content section appears exactly when the content is non-empty; without it the details
   * table is followed directly by the separators and the footer.
   */
  lemma PageFullContent(item: NewsItem, published: string)
    ensures var page := GeneratePageContent(item, published);
      && (Or(item.content, "") != "" ==>
            Contains(page, "<h2>Full Content</h2><div>" + item.content.value + "</div>"))
      && (Or(item.content, "") == "" ==>
            page == Concat([SummaryBlock(item), SEP, DetailsHead(item, published), TopicsRow(item), DETAILS_END, SEP, SEP, FOOTER]))
  {
    var parts := LayoutParts(SummaryBlock(item), DetailsHead(item, published), TopicsRow(item), FullContentSection(item));
    if Or(item.content, "") != "" {
      ConcatContains(parts, 6);
    } else {
      ConcatSkipsEmpty(parts, 6);
      assert parts[..6] + parts[7..] == [SummaryBlock(item), SEP, DetailsHead(item, published), TopicsRow(item), DETAILS_END, SEP, SEP, FOOTER];
    }
  }

  // ---------------------------------------------------------------------------
  // Requests

  /** The `CreatePageRequest` for an item under a mapping, with an ancestor only when a non-empty parent id was resolved. */
  function BuildCreateRequest(item: NewsItem, mapping: TopicMapping, parentId: Option<string>, content: string): (r: CreatePageRequest)
    ensures r.title == item.title && r.space.key == mapping.spaceKey && r.pageType == "page"
    ensures r.body.storage.value == content && r.body.storage.representation == "storage"
    ensures r.ancestors.Some? <==> Or(parentId, "") != ""
    ensures r.ancestors.Some? ==> r.ancestors.value == [Ancestor(parentId.value)]
  {
    CreatePageRequest(
      item.title,
      Space(mapping.spaceKey),
      "page",
      Body(Storage(content, "storage")),
      if Truthy(Or(parentId, "")) then Some([Ancestor(parentId.value)]) else None)
  }

  /** The request `publishNewsItem` sends; `formatDate` stands for the locale date formatting. */
  function PublishRequest(item: NewsItem, mapping: TopicMapping, search: (string, string) -> SearchOutcome, formatDate: string -> string): (r: CreatePageRequest)
    ensures r.title == item.title && r.space.key == mapping.spaceKey && r.pageType == "page"
    ensures r.body.storage.value == GeneratePageContent(item, formatDate(item.pubDate))
    ensures r.ancestors.Some? <==> Or(ResolveParentId(mapping, search), "") != ""
    ensures r.ancestors.Some? ==> r.ancestors.value == [Ancestor(ResolveParentId(mapping, search).value)]
  {
    BuildCreateRequest(item, mapping, ResolveParentId(mapping, search), GeneratePageContent(item, formatDate(item.pubDate)))
  }

  /**
   * The request in terms of the mapping: a configured parent id becomes the only ancestor and makes
   * the search irrelevant; with neither id nor title there is no ancestor; with only a title the
   * ancestor is the first non-empty hit of the title lookup. The body is a framed page.
   */
  lemma PublishRequestShape(item: NewsItem, mapping: TopicMapping, search: (string, string) -> SearchOutcome,
                            other: (string, string) -> SearchOutcome, formatDate: string -> string)
    ensures var r := PublishRequest(item, mapping, search, formatDate);
      && (Or(mapping.parentPageId, "") != "" ==>
            r.ancestors == Some([Ancestor(mapping.parentPageId.value)])
            && r == PublishRequest(item, mapping, other, formatDate))
      && (Or(mapping.parentPageId, "") == "" && Or(mapping.parentPageTitle, "") == "" ==> r.ancestors.None?)
      && (Or(mapping.parentPageId, "") == "" && Or(mapping.parentPageTitle, "") != "" ==>
            var answer := search(mapping.spaceKey, mapping.parentPageTitle.value);
            && (r.ancestors.Some? <==> answer.SearchResults? && |answer.ids| > 0 && answer.ids[0] != "")
            && (r.ancestors.Some? ==> r.ancestors.value == [Ancestor(answer.ids[0])]))
    ensures var body := PublishRequest(item, mapping, search, formatDate).body.storage.value;
      && SummaryBlock(item) <= body
      && |body| >= |FOOTER| && body[|body| - |FOOTER|..] == FOOTER
      && Contains(body, TopicsRow(item))
  {
    PageFraming(item, formatDate(item.pubDate));
    if Or(mapping.parentPageId, "") != "" {
      ParentIdNeedsNoLookup(mapping, search, other);
    }
  }

  /** `publishNewsItem`: the new page's id and URL, or nothing when the call is rejected, fails, or its link is malformed. */
  function PublishNewsItem(
    item: NewsItem, mapping: TopicMapping,
    search: (string, string) -> SearchOutcome, create: CreatePageRequest -> CreateOutcome,
    formatDate: string -> string): (r: Option<PublishResult>)
    ensures var answer := create(PublishRequest(item, mapping, search, formatDate));
      && (r.Some? <==> answer.Created? && !answer.link.MalformedLink?)
      && (r.Some? ==> r.value.pageId == answer.pageId)
      && (r.Some? && answer.link.NoLink? ==> r.value.pageUrl == "")
      && (r.Some? && answer.link.ParsedLink? ==> r.value.pageUrl == "https://" + answer.link.host + answer.link.webui)
  {
    match create(PublishRequest(item, mapping, search, formatDate))
    case Created(pageId, NoLink) => Some(PublishResult(pageId, ""))
    case Created(pageId, ParsedLink(webui, host)) => Some(PublishResult(pageId, "https://" + host + webui))
    case Created(_, MalformedLink) => None
    case Rejected(_, _) => None
    case CreateFailed(_) => None
  }

  /** `pageExists`: the first hit's id when a page of that title exists in the space; no on no hit or failure. */
  function PageExists(spaceKey: string, title: string, search: (string, string) -> SearchOutcome): (r: ExistsResult)
    ensures r.found <==> search(spaceKey, title).SearchResults? && |search(spaceKey, title).ids| > 0
    ensures r.found ==> r.pageId == Some(search(spaceKey, title).ids[0])
    ensures !r.found ==> r.pageId.None?
  {
    match search(spaceKey, title)
    case SearchResults(ids) => if |ids| > 0 then ExistsResult(true, Some(ids[0])) else ExistsResult(false, None)
    case SearchFailed => ExistsResult(false, None)
  }
}
