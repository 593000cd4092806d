/** The blog API route (`GET /api/notion`): the list path turns each database
    row into a post summary through fixed field fallbacks, isolating failures
    per row; the detail path passes a page and its first page of blocks
    through. External calls are replaced by a `Backend` value holding their
    answers, and every handler reports the calls it made, in order. */
module NotionRoute {
  import opened Wrappers
  import opened Cms
  import Text

  const UnknownId := "unknown"
  /** `page_size` of the block-children request. */
  const ChildrenPageSize: nat := 100

  // ---------------------------------------------------------------------
  // Per-page extraction

  function Title(props: Properties): string {
    if NameKey in props && props[NameKey].TitleValue? && |props[NameKey].title| > 0
    then props[NameKey].title[0].plainText
    else Untitled
  }

  /** `Date.date.start` when the Date property has a date, else the page's
      `created_time` when it has one, else the request time. */
  function Date(page: Page, props: Properties, now: string): string {
    if DateKey in props && props[DateKey].DateValue? && props[DateKey].start.Some?
    then props[DateKey].start.value
    else if page.createdTime.Some? then page.createdTime.value
    else now
  }

  function RichTextOf(props: Properties, key: string): Option<string> {
    if key in props && props[key].RichTextValue? && |props[key].richText| > 0
    then Some(props[key].richText[0].plainText)
    else None
  }

  function Description(props: Properties): string {
    match RichTextOf(props, SummaryKey)
    case Some(text) => text
    case None =>
      match RichTextOf(props, DescriptionKey)
      case Some(text) => text
      case None => ""
  }

  /** The page cover when there is one, by its type; the first Featured Image
      file only when there is no cover. A missing sub-object makes the access
      throw inside a try whose catch leaves the cover null. */
  function Cover(page: Page, props: Properties): Option<string> {
    match page.cover
    case Some(c) =>
      if c.kind == "external" then c.external
      else if c.kind == "file" then c.file
      else None
    case None =>
      if FeaturedImageKey in props && props[FeaturedImageKey].FilesValue?
         && |props[FeaturedImageKey].files| > 0
      then
        var f := props[FeaturedImageKey].files[0];
        if f.file.Some? then f.file else f.external
      else None
  }

  /** The body of the per-page callback: throws when the result is not a full
      page (no properties); every other failure is caught field by field. */
  function Extract(page: Page, now: string): Extracted<PostSummary> {
    match page.properties
    case None => Throws
    case Some(props) =>
      Value(Summary(page.id, Title(props), Some(Date(page, props, now)),
                    Description(props), Cover(page, props)))
  }

  /** The per-page callback with its catch: a throw yields the placeholder. */
  function SummarizePage(page: Page, now: string): PostSummary {
    match Extract(page, now)
    case Value(post) => post
    case Throws => Placeholder(Some(page.id.GetOr(UnknownId)), now)
  }

  /** `results.map(...)` under `Promise.all`: one summary per result, in order. */
  function SummarizeAll(pages: seq<Page>, now: string): (posts: seq<PostSummary>)
    ensures |posts| == |pages|
    ensures forall i :: 0 <= i < |pages| ==> posts[i] == SummarizePage(pages[i], now)
  {
    if pages == [] then [] else [SummarizePage(pages[0], now)] + SummarizeAll(pages[1..], now)
  }

  // ---------------------------------------------------------------------
  // Properties of the extraction

  /** The title is the first text of the Name title when that array is
      non-empty, and "Untitled" otherwise. */
  lemma TitleFallback(props: Properties)
    ensures NameKey in props && props[NameKey].TitleValue? && |props[NameKey].title| > 0
            ==> Title(props) == props[NameKey].title[0].plainText
    ensures !(NameKey in props && props[NameKey].TitleValue? && |props[NameKey].title| > 0)
            ==> Title(props) == Untitled
  {
  }

  /** "now" is only the last resort: a dated or timestamped page gets the
      same date whatever the request time, and an undated one gets "now". */
  lemma DateFallback(page: Page, props: Properties, now: string, now': string)
    ensures (DateKey in props && props[DateKey].DateValue? && props[DateKey].start.Some?)
            ==> Date(page, props, now) == props[DateKey].start.value
    ensures (DateKey in props && props[DateKey].DateValue? && props[DateKey].start.Some?)
            || page.createdTime.Some?
            ==> Date(page, props, now) == Date(page, props, now')
    ensures !(DateKey in props && props[DateKey].DateValue? && props[DateKey].start.Some?)
            && page.createdTime.Some?
            ==> Date(page, props, now) == page.createdTime.value
    ensures !(DateKey in props && props[DateKey].DateValue? && props[DateKey].start.Some?)
            && page.createdTime.None?
            ==> Date(page, props, now) == now
  {
  }

  /** A non-empty Content Summary wins, and the Description property is then
      never consulted; without one, Description's first text is used; with
      neither, the description is empty. */
  lemma DescriptionFallback(props: Properties, other: PropertyValue)
    ensures RichTextOf(props, SummaryKey).Some?
            ==> Description(props) == props[SummaryKey].richText[0].plainText
                && Description(props[DescriptionKey := other]) == Description(props)
    ensures RichTextOf(props, SummaryKey).None? && RichTextOf(props, DescriptionKey).Some?
            ==> Description(props) == props[DescriptionKey].richText[0].plainText
    ensures RichTextOf(props, SummaryKey).None? && RichTextOf(props, DescriptionKey).None?
            ==> Description(props) == ""
  {
    if RichTextOf(props, SummaryKey).Some? {
      assert SummaryKey != DescriptionKey;
      assert RichTextOf(props[DescriptionKey := other], SummaryKey) == RichTextOf(props, SummaryKey);
    }
  }

  /** The URLs a page offers as a cover: its cover's and its first Featured
      Image file's. */
  function CoverCandidates(page: Page, props: Properties): set<string> {
    (if page.cover.Some? && page.cover.value.external.Some? then {page.cover.value.external.value} else {})
    + (if page.cover.Some? && page.cover.value.file.Some? then {page.cover.value.file.value} else {})
    + (if FeaturedImageKey in props && props[FeaturedImageKey].FilesValue?
          && |props[FeaturedImageKey].files| > 0
       then (var f := props[FeaturedImageKey].files[0];
             (if f.file.Some? then {f.file.value} else {})
             + (if f.external.Some? then {f.external.value} else {}))
       else {})
  }

  /** A page cover, when present, decides the cover alone, by its type, and
      a cover of any other type gives null. Without one, the first Featured
      Image file is used, its `file` URL before its `external` one. Any cover
      found is one the page offers, and the cover is null when the page offers
      none. */
  lemma CoverPrecedence(page: Page, props: Properties, props': Properties)
    ensures page.cover.Some? ==> Cover(page, props) == Cover(page, props')
    ensures page.cover.Some? && page.cover.value.kind == "external"
            ==> Cover(page, props) == page.cover.value.external
    ensures page.cover.Some? && page.cover.value.kind == "file"
            ==> Cover(page, props) == page.cover.value.file
    ensures page.cover.Some? && page.cover.value.kind != "external" && page.cover.value.kind != "file"
            ==> Cover(page, props).None?
    ensures page.cover.None? && FeaturedImageKey in props && props[FeaturedImageKey].FilesValue?
            && |props[FeaturedImageKey].files| > 0
            ==> Cover(page, props) == (var f := props[FeaturedImageKey].files[0];
                                       if f.file.Some? then f.file else f.external)
    ensures page.cover.None? && !(FeaturedImageKey in props && props[FeaturedImageKey].FilesValue?
                                  && |props[FeaturedImageKey].files| > 0)
            ==> Cover(page, props).None?
    ensures Cover(page, props).Some? ==> Cover(page, props).value in CoverCandidates(page, props)
    ensures CoverCandidates(page, props) == {} ==> Cover(page, props).None?
  {
  }

  /** Only the five known properties are read: pages that agree on them, on
      id, on creation time and on cover yield the same entry. */
  lemma ExtractReadsKnownProperties(page: Page, page': Page, now: string)
    requires page.id == page'.id && page.createdTime == page'.createdTime && page.cover == page'.cover
    requires page.properties.Some? <==> page'.properties.Some?
    requires page.properties.Some? ==>
      forall key :: key in [NameKey, DateKey, SummaryKey, DescriptionKey, FeaturedImageKey] ==>
        (key in page.properties.value <==> key in page'.properties.value) &&
        (key in page.properties.value ==> page.properties.value[key] == page'.properties.value[key])
    ensures SummarizePage(page, now) == SummarizePage(page', now)
  {
    if page.properties.Some? {
      var p, p' := page.properties.value, page'.properties.value;
      assert NameKey in [NameKey, DateKey, SummaryKey, DescriptionKey, FeaturedImageKey];
      assert DateKey in [NameKey, DateKey, SummaryKey, DescriptionKey, FeaturedImageKey];
      assert SummaryKey in [NameKey, DateKey, SummaryKey, DescriptionKey, FeaturedImageKey];
      assert DescriptionKey in [NameKey, DateKey, SummaryKey, DescriptionKey, FeaturedImageKey];
      assert FeaturedImageKey in [NameKey, DateKey, SummaryKey, DescriptionKey, FeaturedImageKey];
      assert Title(p) == Title(p');
      assert Date(page, p, now) == Date(page', p', now);
      assert RichTextOf(p, SummaryKey) == RichTextOf(p', SummaryKey);
      assert RichTextOf(p, DescriptionKey) == RichTextOf(p', DescriptionKey);
      assert Cover(page, p) == Cover(page', p');
    }
  }

  /** Per-row isolation: one entry per row, in order; an entry is the
      placeholder exactly when its row is not a full page, and it keeps the
      row's id, or "unknown" without one. */
  lemma {:induction false} SummarizeAllIsolatesFailures(pages: seq<Page>, now: string, k: nat)
    requires k < |pages|
    ensures |SummarizeAll(pages, now)| == |pages|
    ensures SummarizeAll(pages, now)[k] == Placeholder(Some(pages[k].id.GetOr(UnknownId)), now)
            <==> pages[k].properties.None?
    ensures pages[k].properties.Some? ==>
      SummarizeAll(pages, now)[k].id == pages[k].id &&
      SummarizeAll(pages, now)[k].slug == Text.Slug(SummarizeAll(pages, now)[k].title)
  {
    var page := pages[k];
    if page.properties.Some? {
      var props := page.properties.value;
      SummaryIsNotPlaceholder(page.id, Title(props), Some(Date(page, props, now)),
        Description(props), Cover(page, props), Some(page.id.GetOr(UnknownId)), now);
    }
  }

  // ---------------------------------------------------------------------
  // Request handling

  /** The first of the token variables that is set and non-empty. */
  function ResolveToken(integrationToken: Option<string>, oauthSecret: Option<string>,
                        apiKey: Option<string>): Option<string> {
    if IsSet(integrationToken) then integrationToken
    else if IsSet(oauthSecret) then oauthSecret
    else apiKey
  }

  /** JavaScript truthiness of an optional string. */
  predicate IsSet(v: Option<string>) {
    v.Some? && v.value != ""
  }

  /** The token is the first of the three variables that is set; when none
      is, it is the API key's value as it stands. */
  lemma ResolveTokenFirstSet(a: Option<string>, b: Option<string>, c: Option<string>)
    ensures IsSet(ResolveToken(a, b, c)) <==> IsSet(a) || IsSet(b) || IsSet(c)
    ensures IsSet(a) ==> ResolveToken(a, b, c) == a
    ensures !IsSet(a) && IsSet(b) ==> ResolveToken(a, b, c) == b
    ensures !IsSet(a) && !IsSet(b) ==> ResolveToken(a, b, c) == c
  {
  }

  datatype Config = Config(token: Option<string>, databaseId: Option<string>)

  /** The answers the Notion service gives this request. `listChildren`
      holds all children of the page, in order. */
  datatype Backend = Backend(
    retrieveDatabase: Result<(), string>,
    queryDatabase: Result<seq<Page>, string>,
    retrievePage: Result<Page, string>,
    listChildren: Result<seq<Block>, string>)

  datatype Call =
    | RetrieveDatabase(databaseId: string)
    | QueryDatabase(databaseId: string, sortProperty: string, descending: bool)
    | RetrievePage(pageId: string)
    | ListChildren(blockId: string, pageSize: nat)

  datatype Body =
    | PostList(posts: seq<PostSummary>)
    | PostDetail(page: Page, blocks: seq<Block>)
    | ErrorBody(error: string, message: Option<string>)

  datatype Response = Response(status: nat, body: Body)

  /** A handler's response and the external calls it made, in order. */
  datatype Handled = Handled(response: Response, calls: seq<Call>)

  const ConfigMissing := "Notion API configuration missing"
  const QueryFailed := "Failed to query Notion database"
  const IdRequired := "Post ID is required"
  const ContentFailed := "Failed to fetch post content"

  /** The one page of children the service returns for `page_size` 100. */
  function FirstPage(children: seq<Block>): seq<Block> {
    if |children| <= ChildrenPageSize then children else children[..ChildrenPageSize]
  }

  function GetAllPosts(config: Config, backend: Backend, now: string): Handled {
    if !IsSet(config.token) || !IsSet(config.databaseId) then
      Handled(Response(500, ErrorBody(ConfigMissing, None)), [])
    else
      var db := config.databaseId.value;
      var calls := [RetrieveDatabase(db), QueryDatabase(db, DateKey, true)];
      match backend.queryDatabase
      case Failure(message) => Handled(Response(500, ErrorBody(QueryFailed, Some(message))), calls)
      case Success(pages) =>
        if |pages| == 0 then Handled(Response(200, PostList([])), calls)
        else Handled(Response(200, PostList(SummarizeAll(pages, now))), calls)
  }

  function GetPageContent(id: string, backend: Backend): Handled {
    if id == "" then Handled(Response(400, ErrorBody(IdRequired, None)), [])
    else
      match backend.retrievePage
      case Failure(message) =>
        Handled(Response(500, ErrorBody(ContentFailed, Some(message))), [RetrievePage(id)])
      case Success(page) =>
        var calls := [RetrievePage(id), ListChildren(id, ChildrenPageSize)];
        match backend.listChildren
        case Failure(message) => Handled(Response(500, ErrorBody(ContentFailed, Some(message))), calls)
        case Success(children) => Handled(Response(200, PostDetail(page, FirstPage(children))), calls)
  }

  /** `GET`: the `id` search parameter, `None` when absent. */
  function Get(id: Option<string>, config: Config, backend: Backend, now: string): Handled {
    if IsSet(id) then GetPageContent(id.value, backend) else GetAllPosts(config, backend, now)
  }

  // ---------------------------------------------------------------------
  // Properties of the handlers

  /** The list path's outcomes: missing configuration fails before any call;
      otherwise the database is retrieved and then queried sorted by Date,
      newest first; a failed query is a 500 carrying its message; an empty result is an
      empty list; otherwise one summary per row. A failed preliminary
      database retrieve changes nothing. */
  lemma ListOutcomes(config: Config, backend: Backend, now: string, retrieved: Result<(), string>)
    ensures var h := GetAllPosts(config, backend, now);
      && (!IsSet(config.token) || !IsSet(config.databaseId) <==> h.calls == [])
      && (h.calls == [] ==> h.response == Response(500, ErrorBody(ConfigMissing, None)))
      && (h.calls != [] ==> h.calls == [RetrieveDatabase(config.databaseId.value),
                                        QueryDatabase(config.databaseId.value, DateKey, true)])
      && (h.calls != [] && backend.queryDatabase.Failure?
          ==> h.response == Response(500, ErrorBody(QueryFailed, Some(backend.queryDatabase.error))))
      && (h.calls != [] && backend.queryDatabase.Success?
          ==> h.response == Response(200, PostList(SummarizeAll(backend.queryDatabase.value, now))))
      && (h.response.status == 200 <==> h.calls != [] && backend.queryDatabase.Success?)
    ensures GetAllPosts(config, backend.(retrieveDatabase := retrieved), now) == GetAllPosts(config, backend, now)
  {
  }

  /** A failed query and an empty database are told apart by the caller. */
  lemma QueryFailureIsNotEmptyList(config: Config, backend: Backend, now: string, message: string)
    requires backend.queryDatabase == Failure(message)
    ensures IsSet(config.token) && IsSet(config.databaseId) ==>
      GetAllPosts(config, backend.(queryDatabase := Success([])), now).response == Response(200, PostList([]))
    ensures GetAllPosts(config, backend, now).response != Response(200, PostList([]))
  {
  }

  /** Only a non-empty id takes the detail path, so the handler's own 400
      for an empty id is never what `GET` answers; a fetched page comes back
      with its blocks in order, first page only. */
  lemma DetailPath(id: Option<string>, config: Config, backend: Backend, now: string)
    ensures IsSet(id) ==> Get(id, config, backend, now) == GetPageContent(id.value, backend)
    ensures !IsSet(id) ==> Get(id, config, backend, now) == GetAllPosts(config, backend, now)
    ensures GetPageContent("", backend) == Handled(Response(400, ErrorBody(IdRequired, None)), [])
    ensures Get(id, config, backend, now).response.status != 400
    ensures IsSet(id) && backend.retrievePage.Success? && backend.listChildren.Success? ==>
      var h := Get(id, config, backend, now);
      var children := backend.listChildren.value;
      && h.response.status == 200
      && h.response.body.page == backend.retrievePage.value
      && |h.response.body.blocks| == (if |children| < ChildrenPageSize then |children| else ChildrenPageSize)
      && (forall i :: 0 <= i < |h.response.body.blocks| ==> h.response.body.blocks[i] == children[i])
      && h.calls == [RetrievePage(id.value), ListChildren(id.value, ChildrenPageSize)]
    ensures IsSet(id) && (backend.retrievePage.Failure? || backend.listChildren.Failure?) ==>
      Get(id, config, backend, now).response.status == 500
  {
  }
}
