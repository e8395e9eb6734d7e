/** The pure formatting part of the MMKV plugin: how a serialized value is
    shortened, and the preview lines shown for a write and for a delete. */
module Preview {
  import opened JsText

  /** Serialized values longer than this many code units are shortened. */
  const PreviewLimit: nat := 50

  const Ellipsis: JsString := Ascii("...")
  const SetOpen: JsString := Ascii("Set \"")
  const SetInfix: JsString := Ascii("\" to ")
  const DeleteOpen: JsString := Ascii("Deleting \"")
  const Quote: JsString := Ascii("\"")

  /** The longest a shortened value can be: the kept prefix and the ellipsis. */
  const MaxPreviewValue: nat := PreviewLimit + 3

  /** `stringValue.length > 50 ? stringValue.slice(0, 50) + "..." : stringValue` */
  function PreviewValue(s: JsString): (r: JsString)
    ensures |r| <= MaxPreviewValue
    ensures |r| == if |s| > PreviewLimit then MaxPreviewValue else |s|
    ensures |s| <= PreviewLimit ==> r == s
    ensures |s| > PreviewLimit ==> r[..PreviewLimit] == s[..PreviewLimit] && r[PreviewLimit..] == Ellipsis
  {
    if |s| > PreviewLimit then s[..PreviewLimit] + Ellipsis else s
  }

  /** What it means for `p` to be the preview of `s`, stated without the
      function: the value itself when short, otherwise its first 50 code units
      followed by the three-dot ellipsis. */
  ghost predicate IsPreviewOf(s: JsString, p: JsString) {
    if |s| <= PreviewLimit then p == s
    else |p| == MaxPreviewValue && p[..PreviewLimit] == s[..PreviewLimit] && p[PreviewLimit..] == Ellipsis
  }

  /** The shortening rule has exactly one result, and PreviewValue computes it. */
  lemma PreviewValueCharacterized(s: JsString, p: JsString)
    ensures IsPreviewOf(s, p) <==> p == PreviewValue(s)
  {
  }

  /** The preview never loses the start of the value: the first min(|s|, 50)
      code units of the preview are those of the value. */
  lemma PreviewKeepsPrefix(s: JsString)
    ensures var n := if |s| < PreviewLimit then |s| else PreviewLimit;
            PreviewValue(s)[..n] == s[..n]
  {
  }

  /** Shortening a preview again changes nothing. */
  lemma PreviewValueIdempotent(s: JsString)
    ensures PreviewValue(PreviewValue(s)) == PreviewValue(s)
  {
  }

  /** `Set "${key}" to ${previewValue}` */
  function WritePreview(key: JsString, previewValue: JsString): (r: JsString)
    ensures |r| == |key| + |previewValue| + 10
    ensures r[..5] == SetOpen
    ensures r[5..5 + |key|] == key
    ensures r[5 + |key|..10 + |key|] == SetInfix
    ensures r[10 + |key|..] == previewValue
  {
    SetOpen + key + SetInfix + previewValue
  }

  /** `Deleting "${key}"` */
  function DeletePreview(key: JsString): (r: JsString)
    ensures |r| == |key| + 11
    ensures r[..10] == DeleteOpen
    ensures r[10..10 + |key|] == key
    ensures r[10 + |key|..] == Quote
  {
    DeleteOpen + key + Quote
  }

  /** A write line shows the key in full and at most 53 code units of the value. */
  lemma WriteLineBounded(key: JsString, serialized: JsString)
    ensures |WritePreview(key, PreviewValue(serialized))| <= |key| + 10 + MaxPreviewValue
    ensures |serialized| <= PreviewLimit ==>
              WritePreview(key, PreviewValue(serialized)) == SetOpen + key + SetInfix + serialized
  {
  }

  /** A write line and a delete line never coincide: one starts with `S`,
      the other with `D`. */
  lemma WriteAndDeletePreviewsDiffer(k1: JsString, pv: JsString, k2: JsString)
    ensures WritePreview(k1, pv) != DeletePreview(k2)
  {
  }
}
