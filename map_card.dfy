/** The gallery card (`MapCard`): the shortened description and the preview
    image source, which the detail modal shares. */
module MapCard {
  import opened Wrappers
  import opened JsText
  import opened GalleryData

  /** The image shown when an item has no preview. */
  const DefaultPreview := "/static/images/default-map.svg"

  /** `map.preview || '/static/images/default-map.svg'`: an absent or empty
      preview falls back to the default image. */
  function PreviewSrc(preview: Option<string>): (src: string)
    ensures src != ""
    ensures preview.Some? && preview.value != "" ==> src == preview.value
    ensures preview.None? || preview.value == "" ==> src == DefaultPreview
  {
    if preview.Some? && preview.value != "" then preview.value else DefaultPreview
  }

  /** The text that is shortened: a paragraph list gives its first
      paragraph, which an empty list does not have. */
  function FirstText(desc: Description): Option<string> {
    match desc
    case Text(t) => Some(t)
    case Paragraphs(ps) => if |ps| > 0 then Some(ps[0]) else None
  }

  function Max0(n: int): nat {
    if n < 0 then 0 else n
  }

  /** `truncateDescription(desc, maxLength = 80)`. A text of at most
      `maxLength` characters is returned as it is; a longer one is cut to its
      first `maxLength` characters (none when `maxLength` is negative, as
      `substring` clamps), trimmed, and followed by "...". Reading the
      length of the missing first paragraph of an empty list throws. */
  function Truncate(desc: Description, maxLength: int := 80): (r: Result<string, JsError>)
    ensures r.Err? <==> FirstText(desc).None?
    ensures r.Ok? ==> |r.value| <= Max0(maxLength) + 3
    ensures r.Ok? && |FirstText(desc).value| <= maxLength ==> r.value == FirstText(desc).value
    ensures r.Ok? && |FirstText(desc).value| > maxLength ==>
              var text := FirstText(desc).value;
              |r.value| >= 3 && r.value[|r.value| - 3..] == "..." &&
              var body := r.value[..|r.value| - 3];
              && (exists i :: OccursAt(text[..Max0(maxLength)], body, i))
              && (body == [] || (!IsJsWhitespace(body[0]) && !IsJsWhitespace(body[|body| - 1])))
    ensures FirstText(desc).Some? && |FirstText(desc).value| > maxLength ==>
              r == Ok(Trim(FirstText(desc).value[..Max0(maxLength)]) + "...")
  {
    match FirstText(desc)
    case None => Err(TypeError)
    case Some(text) =>
      if |text| <= maxLength then Ok(text)
      else
        var body := Trim(text[..Max0(maxLength)]);
        var r := body + "...";
        assert r[..|r| - 3] == body;
        Ok(r)
  }

  /** Trimming a string that neither starts nor ends with whitespace changes
      nothing. */
  lemma TrimClean(s: string)
    requires s == [] || (!IsJsWhitespace(s[0]) && !IsJsWhitespace(s[|s| - 1]))
    ensures Trim(s) == s
  {
    assert TrimStartIndex(s, 0) == 0 || s == [];
    assert TrimEndIndex(s, 0, |s|) == |s|;
    assert s[0..|s|] == s;
  }

  /** When the cut falls between two words, exactly the first `maxLength`
      characters are kept before the "...". */
  lemma CleanCutIsKept(text: string, maxLength: nat)
    requires maxLength < |text|
    requires maxLength == 0 || (!IsJsWhitespace(text[0]) && !IsJsWhitespace(text[maxLength - 1]))
    ensures Truncate(Text(text), maxLength) == Ok(text[..maxLength] + "...")
  {
    TrimClean(text[..maxLength]);
  }

  /** A paragraph list is shortened like its first paragraph alone. */
  lemma ParagraphsUseFirst(ps: seq<string>, maxLength: int)
    requires |ps| > 0
    ensures Truncate(Paragraphs(ps), maxLength) == Truncate(Text(ps[0]), maxLength)
  {
  }

  /** The default cut: a long text becomes at most 83 characters ending in
      "...", and a text of at most 80 characters is left alone. */
  lemma DefaultLengthIsEighty(text: string)
    ensures |text| <= 80 ==> Truncate(Text(text)) == Ok(text)
    ensures |text| > 80 ==> |Truncate(Text(text)).value| <= 83 && Truncate(Text(text)).value[|Truncate(Text(text)).value| - 3..] == "..."
  {
  }
}
