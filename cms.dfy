/** The Notion records the proxy reads, reduced to the fields the code
    inspects, and the post summary it produces for the blog list. Every field
    the code probes defensively is optional here. */
module Cms {
  import opened Wrappers
  import Text

  /** One rich-text run; only its `plain_text` is read. */
  datatype RichText = RichText(plainText: string)

  /** A Notion file object (a page cover or an entry of a files property):
      its `type` tag and the `url` of its `file` and `external` sub-objects,
      `None` when that sub-object is absent. */
  datatype FileObject = FileObject(kind: string, file: Option<string>, external: Option<string>)

  /** A page property, by the one field the code looks for in it. A property of
      any other Notion type has none of those fields. */
  datatype PropertyValue =
    | TitleValue(title: seq<RichText>)
    | RichTextValue(richText: seq<RichText>)
    | DateValue(start: Option<string>)  // `date` is null, or `{start}`
    | FilesValue(files: seq<FileObject>)
    | OtherValue

  type Properties = map<string, PropertyValue>

  /** One element of a database query's `results`: a full page has a
      properties bag; a partial object has none. */
  datatype Page = Page(
    id: Option<string>,
    properties: Option<Properties>,
    createdTime: Option<string>,
    cover: Option<FileObject>)

  /** A content block of a page, passed through untouched whatever its type. */
  datatype Block = Block(id: string, kind: string)

  /** The list-view record; `None` stands for a field left `undefined`. */
  datatype PostSummary = PostSummary(
    id: Option<string>,
    title: string,
    date: Option<string>,
    description: string,
    cover: Option<string>,
    slug: string)

  /** The outcome of an expression that may throw a TypeError. */
  datatype Extracted<+T> = Value(value: T) | Throws

  const NameKey := "Name"
  const DateKey := "Date"
  const SummaryKey := "Content Summary"
  const DescriptionKey := "Description"
  const FeaturedImageKey := "Featured Image"

  /** The title of a page without one. */
  const Untitled := "Untitled"

  const ErrorTitle := "Error loading post"
  const ErrorDescription := "There was an error loading this post"
  const ErrorSlug := "error"

  /** The entry that stands in for a page whose extraction threw. */
  function Placeholder(id: Option<string>, now: string): PostSummary {
    PostSummary(id, ErrorTitle, Some(now), ErrorDescription, None, ErrorSlug)
  }

  /** A summary built from a page: its slug follows from its title. */
  function Summary(id: Option<string>, title: string, date: Option<string>,
                   description: string, cover: Option<string>): PostSummary
  {
    PostSummary(id, title, date, description, cover, Text.Slug(title))
  }

  /** No extracted summary can be mistaken for the placeholder: the
      placeholder's slug is not the slug of its title. */
  lemma SummaryIsNotPlaceholder(id: Option<string>, title: string, date: Option<string>,
                                description: string, cover: Option<string>,
                                id': Option<string>, now: string)
    ensures Summary(id, title, date, description, cover) != Placeholder(id', now)
  {
    if title == ErrorTitle {
      var error, space, loadingPost := "error", " ", "loading post";
      ErrorTitlePieces(title, error, space, loadingPost);
      Text.CollapseRun(error, space, loadingPost);
      Text.CollapseFixesWhitespaceFree(error);
      assert |Text.Slug(title)| > |ErrorSlug|;
    }
  }

  /** The placeholder title is two words around one space. */
  lemma ErrorTitlePieces(title: string, error: string, space: string, loadingPost: string)
    requires title == ErrorTitle && error == "error" && space == " " && loadingPost == "loading post"
    ensures Text.ToLower(title) == error + (space + loadingPost)
    ensures error != [] && Text.NoWhitespace(error) && |error| == |ErrorSlug|
    ensures |space| > 0 && Text.AllWhitespace(space)
    ensures !Text.IsWhitespace(loadingPost[0])
  {
  }
}
