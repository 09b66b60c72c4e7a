/**
 The markdown-fence stripping the enrich handler applies to the trimmed
 model text before parsing it: when the text begins with three backticks,
 the first match of the pattern ^```(?:json)?\s* and then the first match
 of ```$ are each replaced by the empty string.
 */
module Fences {
  import opened JsText

  const Fence: string := "```"
  const JsonTag: string := "json"

  /** The tag the leading pattern takes after the opening fence: the optional
      group `(?:json)?` is greedy, so it takes `json` whenever it is there. */
  function TagAfterFence(t: string): (tag: string)
    requires StartsWith(t, Fence)
    ensures tag == JsonTag <==> StartsWith(t[3..], JsonTag)
    ensures tag == "" <==> !StartsWith(t[3..], JsonTag)
  {
    if StartsWith(t[3..], JsonTag) then JsonTag else ""
  }

  /** The replacement of ^```(?:json)?\s* by the empty string. The removed prefix is the fence,
      the greedy tag and every whitespace character after it; what is left
      does not begin with whitespace. Without an opening fence nothing
      matches and `t` is returned as it is. */
  function StripLeadingFence(t: string): (r: string)
    ensures |r| <= |t| && r == t[|t| - |r|..]
    ensures !StartsWith(t, Fence) ==> r == t
    ensures StartsWith(t, Fence) ==>
              var start := |Fence| + |TagAfterFence(t)|;
              && start <= |t| - |r|
              && t[..start] == Fence + TagAfterFence(t)
              && AllWhiteSpace(t[start..|t| - |r|])
              && (r == [] || !IsWhiteSpace(r[0]))
  {
    if !StartsWith(t, Fence) then t
    else
      var start := |Fence| + |TagAfterFence(t)|;
      var rest := t[start..];
      var n := LeadingWhiteSpace(rest);
      assert rest[..n] == t[start..start + n];
      assert t[..start] == Fence + TagAfterFence(t);
      rest[n..]
  }

  /** The replacement of ```$ by the empty string: without the multiline
      flag `$` matches only at the very end, so at most the last three
      characters are removed. */
  function StripTrailingFence(t: string): (r: string)
    ensures EndsWith(t, Fence) ==> r + Fence == t
    ensures !EndsWith(t, Fence) ==> r == t
  {
    if EndsWith(t, Fence) then t[..|t| - 3] else t
  }

  /** The fence handling of the enrich handler: both replacements run only
      when the text begins with three backticks. */
  function StripFences(t: string): (r: string)
    ensures !StartsWith(t, Fence) ==> r == t
    ensures exists i, j :: 0 <= i <= j <= |t| && r == t[i..j]
  {
    if StartsWith(t, Fence) then
      var u := StripLeadingFence(t);
      var i := |t| - |u|;
      var r := StripTrailingFence(u);
      assert r == t[i..i + |r|];
      r
    else
      assert t == t[0..|t|];
      t
  }

  /** With the lower-case tag, the fence, the tag and all whitespace after it
      are removed, leaving the body from its first non-whitespace character. */
  lemma JsonTagRemoved(ws: string, body: string)
    requires AllWhiteSpace(ws)
    requires body == [] || !IsWhiteSpace(body[0])
    ensures StripLeadingFence(Fence + JsonTag + ws + body) == body
  {
    var t := Fence + JsonTag + ws + body;
    assert t[..3] == Fence;
    assert t[3..] == JsonTag + ws + body;
    assert t[3..][..4] == JsonTag;
    assert t[7..] == ws + body;
    LeadingWhiteSpaceOf(ws, body);
  }

  /** An upper-case `JSON` is not the tag: only the fence is removed. */
  lemma UpperCaseTagKept(body: string)
    ensures StripLeadingFence(Fence + "JSON" + body) == "JSON" + body
  {
    var t := Fence + "JSON" + body;
    assert t[..3] == Fence;
    assert t[3..] == "JSON" + body;
    assert t[3..][..4] == "JSON";
    assert !StartsWith(t[3..], JsonTag);
    assert "JSON" + body == [] + ("JSON" + body);
    LeadingWhiteSpaceOf([], "JSON" + body);
  }

  /** Exactly one closing fence is removed, and only from the very end:
      `t` is the result followed by either nothing or one fence, and nothing
      is removed unless `t` ends with a fence. */
  lemma TrailingFenceAtMostOnce(t: string)
    ensures t == StripTrailingFence(t) || t == StripTrailingFence(t) + Fence
    ensures t == StripTrailingFence(t) <==> !EndsWith(t, Fence)
  {
    if EndsWith(t, Fence) {
      assert t == t[..|t| - 3] + t[|t| - 3..];
    }
  }

  /** Two closing fences in a row lose only the last one. */
  lemma DoubleClosingFenceLosesOne(body: string)
    ensures StripTrailingFence(body + Fence + Fence) == body + Fence
  {
    var t := body + Fence + Fence;
    assert t[|t| - 3..] == Fence;
    assert t[..|t| - 3] == body + Fence;
  }

  /** Whitespace between the body and the closing fence is kept. */
  lemma WhiteSpaceBeforeClosingFenceKept(body: string, ws: string)
    ensures StripTrailingFence(body + ws + Fence) == body + ws
  {
    var t := body + ws + Fence;
    assert t[|t| - 3..] == Fence;
    assert t[..|t| - 3] == body + ws;
  }

  /** A body between a tagged opening fence and a closing fence on its own
      line comes out with the newline before the closing fence still on it. */
  lemma FencedJsonBody(body: string)
    requires body != [] && !IsWhiteSpace(body[0])
    ensures StripFences(Fence + JsonTag + "\n" + body + "\n" + Fence) == body + "\n"
  {
    var t := Fence + JsonTag + "\n" + body + "\n" + Fence;
    assert t == Fence + JsonTag + "\n" + (body + "\n" + Fence);
    assert t[..3] == Fence;
    JsonTagRemoved("\n", body + "\n" + Fence);
    WhiteSpaceBeforeClosingFenceKept(body, "\n");
  }

  /** Prose before the fence defeats the stripping: the whole text goes to
      the parser as it is. */
  lemma LeadingProseNotRemoved()
    ensures var t := "Here is your answer:\n" + Fence + JsonTag + "\n[1,2,3]\n" + Fence;
            StripFences(t) == t
  {
    var t := "Here is your answer:\n" + Fence + JsonTag + "\n[1,2,3]\n" + Fence;
    assert !StartsWith(t, Fence) by {
      assert t[..3][0] == 'H';
    }
  }
}
