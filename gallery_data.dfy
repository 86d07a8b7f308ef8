/** The gallery item as the `/api/maps` JSON delivers it to the front end and
    as the back end reads it from its data file. Keys that may be absent are
    `Option`s; `description` is either one text or a list of paragraphs. */
module GalleryData {
  import opened Wrappers

  /** The exception a front-end expression raises when it calls a string
      method on a value that is not a string (a paragraph list, a missing
      `url`). */
  datatype JsError = TypeError

  /** A description is one string, or a list of paragraphs. */
  datatype Description = Text(text: string) | Paragraphs(paragraphs: seq<string>)

  /** The MacEachren metric object of an item; `None` is an absent key.
      The values are the whole numbers the data file holds. */
  datatype MetricTriple = MetricTriple(communication: Option<int>, task: Option<int>, interaction: Option<int>)

  /** An entry of `images`: a bare URL string, or an object with optional
      `url`, `title` and `type` keys. */
  datatype MediaEntry =
    | Plain(url: string)
    | Record(link: Option<string>, title: Option<string>, mediaType: Option<string>)

  /** An `id` in the data file: a string or a number. */
  datatype MapId = StrId(s: string) | IntId(n: int)

  datatype MapItem = MapItem(
    id: MapId,
    title: string,
    description: Description,
    category: string,
    mode: string,
    tags: seq<string>,
    thumbnail: Option<string>,
    preview: Option<string>,
    images: Option<seq<MediaEntry>>,
    maceachren: Option<MetricTriple>,
    views: int,
    technologies: Option<seq<string>>)
}
