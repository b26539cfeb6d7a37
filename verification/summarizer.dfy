/** The mock `/summarize` endpoint of supabase/functions/summarize.js: the
    first 100 UTF-16 code units of the content followed by "...". */
module Summarizer {
  import opened Js

  /** Code units kept from the content. */
  const KEPT_UNITS: nat := 100
  /** "..." as code units (0x2E is the full stop). */
  const ELLIPSIS: Str := [0x2E, 0x2E, 0x2E]
  const CONTENT_REQUIRED: string := "Content is required"

  /** 400 with an error message, or 200 with the summary. */
  datatype SummaryResponse = BadRequest(error: string) | Summary(summary: Str)

  /** The handler on the code units of the `content` field; `None` is a
      missing key. */
  function Summarize(content: Option<Str>): (r: SummaryResponse)
    ensures r.BadRequest? <==> !Truthy(content)
    ensures r.BadRequest? ==> r.error == CONTENT_REQUIRED
    ensures r.Summary? ==>
              && EndsWith(r.summary, ELLIPSIS)
              && |r.summary| == Min(|content.value|, KEPT_UNITS) + |ELLIPSIS|
              && |r.summary| <= KEPT_UNITS + |ELLIPSIS|
              && r.summary[..|r.summary| - |ELLIPSIS|] <= content.value
    ensures r.Summary? && |content.value| <= KEPT_UNITS ==> r.summary == content.value + ELLIPSIS
  {
    if !Truthy(content) then BadRequest(CONTENT_REQUIRED)
    else Summary(Slice(content.value, 0, KEPT_UNITS) + ELLIPSIS)
  }

  /** The summary keeps exactly the head of the content: two contents give
      the same summary exactly when they agree on their first 100 code units,
      so nothing past that point shows and nothing before it is lost. */
  lemma {:induction false} SummaryDeterminesHead(c1: Str, c2: Str)
    requires |c1| > 0 && |c2| > 0
    ensures Summarize(Some(c1)) == Summarize(Some(c2))
            <==> c1[..Min(|c1|, KEPT_UNITS)] == c2[..Min(|c2|, KEPT_UNITS)]
  {
    var s1, s2 := Summarize(Some(c1)).summary, Summarize(Some(c2)).summary;
    assert s1 == c1[..Min(|c1|, KEPT_UNITS)] + ELLIPSIS;
    assert s2 == c2[..Min(|c2|, KEPT_UNITS)] + ELLIPSIS;
    if s1 == s2 {
      assert s1[..|s1| - 3] == c1[..Min(|c1|, KEPT_UNITS)];
      assert s2[..|s2| - 3] == c2[..Min(|c2|, KEPT_UNITS)];
    }
  }
}
