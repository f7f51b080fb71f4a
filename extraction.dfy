/** The brace-matching heuristic that cuts the JSON block out of the
    language model's free-text reply: slice from the first `{` up to and
    including the last `}`, with Python's slice semantics. */
module Extraction {
  import opened Text

  /** `ai_content[ai_content.find('{') : ai_content.rfind('}') + 1]`. */
  function ExtractSpan(content: string): (r: string)
    // only three shapes can come out
    ensures r == [] || r == "}" || (|r| >= 2 && r[0] == '{' && r[|r| - 1] == '}')
    // the span is a contiguous piece of the reply
    ensures exists i | 0 <= i <= |content| - |r| :: OccursAt(r, content, i)
    // without a `{` the start index -1 counts from the end: the span is the
    // final character when that is `}`, and empty otherwise
    ensures '{' !in content ==>
      (r == "}" <==> |content| > 0 && content[|content| - 1] == '}') && (r != "}" ==> r == [])
  {
    var startIdx := Find(content, '{');
    var endIdx := RFind(content, '}') + 1;
    var r := Slice(content, startIdx, endIdx);
    if '{' in content then
      if startIdx < endIdx then
        assert OccursAt(r, content, startIdx);
        r
      else
        assert OccursAt(r, content, 0);
        r
    else if |content| == 0 then
      assert OccursAt(r, content, 0);
      r
    else
      assert startIdx == -1 && SliceBound(startIdx, |content|) == |content| - 1;
      if endIdx == |content| then
        assert r == content[|content| - 1..];
        assert OccursAt(r, content, |content| - 1);
        r
      else
        assert r == [] && OccursAt(r, content, 0);
        r
  }

  /** When the reply holds a `{` followed later by a `}`, the span runs from
      the first `{` through the last `}`, both included. */
  lemma SpanIsFirstOpenToLastClose(content: string, i: nat, j: nat)
    requires i < j < |content|
    requires content[i] == '{' && '{' !in content[..i]
    requires content[j] == '}' && '}' !in content[j + 1..]
    ensures ExtractSpan(content) == content[i..j + 1]
  {
  }

  /** When no `}` follows the first `{`, the span is empty. */
  lemma SpanEmptyWhenNoCloseAfterOpen(content: string, i: nat)
    requires i < |content|
    requires content[i] == '{' && '{' !in content[..i]
    requires '}' !in content[i..]
    ensures ExtractSpan(content) == []
  {
  }
}
