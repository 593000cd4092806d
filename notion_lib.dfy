/** The older Notion helper: the same per-row summary built from `?.` and
    `||` chains. Unlike the API route it never reads the Description
    property, has no request-time date fallback, and answers a failed query
    with an empty list. A Name that is not a title, a Content Summary that is
    not rich text, and a cover or file lacking the URL object its type names
    throw, turning the whole row into the placeholder; a Date or Featured
    Image of the wrong type is only skipped. */
module NotionLib {
  import opened Wrappers
  import opened Cms
  import Text
  import NotionRoute

  /** `page.properties.Name?.title[0]?.plain_text || 'Untitled'`: a Name that
      is not a title property throws; an empty array or empty text falls back. */
  function Title(props: Properties): Extracted<string> {
    if NameKey !in props then Value(Untitled)
    else match props[NameKey]
      case TitleValue(runs) =>
        if |runs| > 0 && runs[0].plainText != "" then Value(runs[0].plainText) else Value(Untitled)
      case _ => Throws
  }

  /** `page.properties.Date?.date?.start || page.created_time`. */
  function Date(page: Page, props: Properties): Option<string> {
    if DateKey in props && props[DateKey].DateValue? && props[DateKey].start.Some?
       && props[DateKey].start.value != ""
    then props[DateKey].start
    else page.createdTime
  }

  /** `page.properties['Content Summary']?.rich_text[0]?.plain_text || ''`. */
  function Description(props: Properties): Extracted<string> {
    if SummaryKey !in props then Value("")
    else match props[SummaryKey]
      case RichTextValue(runs) =>
        if |runs| > 0 && runs[0].plainText != "" then Value(runs[0].plainText) else Value("")
      case _ => Throws
  }

  /** The file object carries the URL object its `type` selects: `external`
      for type `external`, `file` for any other type. */
  predicate HasNamedUrl(f: FileObject) {
    if f.kind == "external" then f.external.Some? else f.file.Some?
  }

  /** `file.type === 'external' ? file.external.url : file.file.url`. */
  function FileUrl(f: FileObject): Extracted<Option<string>> {
    var url := if f.kind == "external" then f.external else f.file;
    if url.Some? then Value(url) else Throws
  }

  /** The page cover when there is one; else the first Featured Image file
      when the property has a non-empty `files`; else null. */
  function Cover(page: Page, props: Properties): Extracted<Option<string>> {
    if page.cover.Some? then FileUrl(page.cover.value)
    else if FeaturedImageKey in props && props[FeaturedImageKey].FilesValue?
            && |props[FeaturedImageKey].files| > 0
    then FileUrl(props[FeaturedImageKey].files[0])
    else Value(None)
  }

  /** The body of the callback: any throw aborts the whole row. */
  function Extract(page: Page): Extracted<PostSummary> {
    match page.properties
    case None => Throws
    case Some(props) =>
      match (Title(props), Description(props), Cover(page, props))
      case (Value(title), Value(description), Value(cover)) =>
        Value(Summary(page.id, title, Date(page, props), description, cover))
      case _ => Throws
  }

  function SummarizePage(page: Page, now: string): PostSummary {
    match Extract(page)
    case Value(post) => post
    case Throws => Placeholder(page.id, now)
  }

  function SummarizeAll(pages: seq<Page>, now: string): (posts: seq<PostSummary>)
    ensures |posts| == |pages|
    ensures forall i :: 0 <= i < |pages| ==> posts[i] == SummarizePage(pages[i], now)
  {
    if pages == [] then [] else [SummarizePage(pages[0], now)] + SummarizeAll(pages[1..], now)
  }

  /** `getNotionData`: a failed query yields `[]`. */
  function GetNotionData(query: Result<seq<Page>, string>, now: string): seq<PostSummary> {
    match query
    case Failure(_) => []
    case Success(pages) => SummarizeAll(pages, now)
  }

  /** `getPageContent`: the fetched record map, or null on failure. */
  function GetPageContent<T>(fetched: Result<T, string>): (content: Option<T>)
    ensures content.Some? <==> fetched.Success?
    ensures fetched.Success? ==> content.value == fetched.value
  {
    match fetched
    case Success(recordMap) => Some(recordMap)
    case Failure(_) => None
  }

  // ---------------------------------------------------------------------
  // Properties

  /** The title is the first Name text when that text is non-empty, else
      "Untitled"; it throws
      only for a Name property that is not a title. */
  lemma TitleFallback(props: Properties)
    ensures Title(props).Throws? <==> NameKey in props && !props[NameKey].TitleValue?
    ensures Title(props).Value? ==> Title(props).value != ""
    ensures Title(props).Value? && !(NameKey in props && |props[NameKey].title| > 0
                                     && props[NameKey].title[0].plainText != "")
            ==> Title(props).value == Untitled
    ensures Title(props).Value? && Title(props).value != Untitled ==>
      props[NameKey].title[0].plainText == Title(props).value
  {
  }

  /** A non-empty `Date.date.start` wins; otherwise `created_time`, with no
      request-time fallback, so an undated page without `created_time` gets
      no date. */
  lemma DateFallback(page: Page, props: Properties)
    ensures DateKey in props && props[DateKey].DateValue? && props[DateKey].start.Some?
            && props[DateKey].start.value != ""
            ==> Date(page, props) == props[DateKey].start
    ensures !(DateKey in props && props[DateKey].DateValue? && props[DateKey].start.Some?
              && props[DateKey].start.value != "")
            ==> Date(page, props) == page.createdTime
    ensures Date(page, props).Some? ==>
      Date(page, props) == page.createdTime
      || (DateKey in props && props[DateKey] == DateValue(Date(page, props)))
    ensures Date(page, props).None? ==> page.createdTime.None?
    ensures Date(page, props).Some? ==> Date(page, props).value != "" || page.createdTime == Some("")
  {
  }

  /** Only Content Summary is read: the Description property never changes
      the description. */
  lemma DescriptionIgnoresDescriptionProperty(props: Properties, other: PropertyValue)
    ensures Description(props[DescriptionKey := other]) == Description(props)
    ensures Description(props).Throws? <==> SummaryKey in props && !props[SummaryKey].RichTextValue?
  {
    assert SummaryKey != DescriptionKey;
  }

  /** Cover precedence: a page cover decides alone (by its type); otherwise
      the first Featured Image file, by its type; otherwise null. The lookup
      throws exactly when the object it picks lacks the URL object its type
      names (anything but `external` is read as `file`). */
  lemma CoverPrecedence(page: Page, props: Properties, props': Properties)
    ensures page.cover.Some? ==> Cover(page, props) == Cover(page, props')
    ensures page.cover.Some? && page.cover.value.kind == "external" && page.cover.value.external.Some?
            ==> Cover(page, props) == Value(page.cover.value.external)
    ensures page.cover.Some? && page.cover.value.kind != "external" && page.cover.value.file.Some?
            ==> Cover(page, props) == Value(page.cover.value.file)
    ensures page.cover.None? && FeaturedImageKey !in props ==> Cover(page, props) == Value(None)
    ensures page.cover.None? && FeaturedImageKey in props && !props[FeaturedImageKey].FilesValue?
            ==> Cover(page, props) == Value(None)
    ensures page.cover.None? && FeaturedImageKey in props && props[FeaturedImageKey].FilesValue?
            && |props[FeaturedImageKey].files| == 0
            ==> Cover(page, props) == Value(None)
    ensures page.cover.None? && FeaturedImageKey in props && props[FeaturedImageKey].FilesValue?
            && |props[FeaturedImageKey].files| > 0
            ==> Cover(page, props) == FileUrl(props[FeaturedImageKey].files[0])
    ensures Cover(page, props).Throws? <==>
      (page.cover.Some? && !HasNamedUrl(page.cover.value))
      || (page.cover.None? && FeaturedImageKey in props && props[FeaturedImageKey].FilesValue?
          && |props[FeaturedImageKey].files| > 0 && !HasNamedUrl(props[FeaturedImageKey].files[0]))
    ensures Cover(page, props).Value? && Cover(page, props).value.Some? ==>
      (page.cover.Some? && Cover(page, props).value in {page.cover.value.external, page.cover.value.file})
      || (page.cover.None? && FeaturedImageKey in props && props[FeaturedImageKey].FilesValue?
          && |props[FeaturedImageKey].files| > 0
          && Cover(page, props).value in {props[FeaturedImageKey].files[0].external,
                                          props[FeaturedImageKey].files[0].file})
  {
  }

  /** Per-row isolation with the row's own id; a failed query is
      indistinguishable from an empty database. */
  lemma {:induction false} GetNotionDataOutcomes(pages: seq<Page>, now: string, message: string, k: nat)
    requires k < |pages|
    ensures |GetNotionData(Success(pages), now)| == |pages|
    ensures GetNotionData(Success(pages), now)[k] == Placeholder(pages[k].id, now)
            <==> Extract(pages[k]).Throws?
    ensures GetNotionData(Failure(message), now) == GetNotionData(Success([]), now) == []
  {
    var page := pages[k];
    match Extract(page)
    case Value(post) =>
      var props := page.properties.value;
      SummaryIsNotPlaceholder(page.id, Title(props).value, Date(page, props),
        Description(props).value, Cover(page, props).value, page.id, now);
    case Throws =>
  }

  /** Where both versions produce a title, they agree, except that this one
      also replaces an empty first text by "Untitled". */
  lemma TitleAgreesWithRoute(props: Properties)
    ensures Title(props).Value? ==>
      Title(props).value == if NotionRoute.Title(props) == "" then Untitled else NotionRoute.Title(props)
  {
  }

  /** Where this version yields a description, it is the first Content
      Summary text, or "" without one. A non-empty one is the one the route
      gives; where the route falls back to the Description property, this
      version gives "". */
  lemma DescriptionAgreesWithRoute(props: Properties)
    ensures Description(props).Value? && Description(props).value != "" ==>
      Description(props).value == NotionRoute.Description(props)
    ensures Description(props).Value? && NotionRoute.RichTextOf(props, SummaryKey).None? ==>
      Description(props).value == ""
    ensures Description(props).Value? ==>
      Description(props).value == (if NotionRoute.RichTextOf(props, SummaryKey).Some?
                                   then NotionRoute.RichTextOf(props, SummaryKey).value else "")
  {
  }
}
