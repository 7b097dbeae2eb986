/**
 * Recovering the JSON payload from a completion's text (parseJSONFromText,
 * src/lib/parallel/api.ts:14-44): strip a Markdown code fence, then cut the
 * text down to the span from its first `{` to its last `}`. `JSON.parse` itself
 * is not modelled; its outcome is an input of the generators.
 */
module JsonText {
  import opened Text

  const FENCE := "```"
  const JSON_FENCE := "```json"

  /** Removes a leading "```json" (else a leading "```") and then a trailing
      "```": text without fences is kept, and a fenced block loses exactly its
      two fences. */
  function StripFences(s: string): (r: string)
    ensures |r| <= |s|
    ensures !StartsWith(s, FENCE) && !EndsWith(s, FENCE) ==> r == s
    ensures StartsWith(s, JSON_FENCE) && EndsWith(s, FENCE) && |s| >= 10 ==> r == s[7..|s| - 3]
    ensures StartsWith(s, FENCE) && !StartsWith(s, JSON_FENCE) && EndsWith(s, FENCE) && |s| >= 6 ==>
              r == s[3..|s| - 3]
  {
    CloseFenceStripped(OpenFenceStripped(s))
  }

  function OpenFenceStripped(s: string): string
  {
    if StartsWith(s, JSON_FENCE) then s[7..] else if StartsWith(s, FENCE) then s[3..] else s
  }

  function CloseFenceStripped(s: string): string
  {
    if EndsWith(s, FENCE) then s[..|s| - 3] else s
  }

  /** `s.slice(s.indexOf('{'), s.lastIndexOf('}') + 1)` when both braces occur,
      else `s` unchanged. */
  function BraceSpan(s: string): (r: string)
    ensures |r| <= |s|
  {
    SpanBetween(s, IndexOf(s, '{'), LastIndexOf(s, '}'))
  }

  /** The slice between two found positions; -1 marks one not found. */
  function SpanBetween(s: string, first: int, last: int): (r: string)
    requires -1 <= first < |s| && -1 <= last < |s|
    ensures |r| <= |s|
  {
    if first != -1 && last != -1 then
      (if first <= last then s[first..last + 1] else [])
    else s
  }

  /** Without both braces (an index of -1) the text is kept; when the first
      `{` comes after the last `}` nothing is left; otherwise the result runs
      from the first `{` through the last `}`, so it opens with `{` and closes
      with `}`. */
  lemma BraceSpanSpec(s: string)
    ensures IndexOf(s, '{') == -1 || LastIndexOf(s, '}') == -1 ==> BraceSpan(s) == s
    ensures IndexOf(s, '{') > LastIndexOf(s, '}') >= 0 ==> BraceSpan(s) == []
    ensures 0 <= IndexOf(s, '{') < LastIndexOf(s, '}') ==>
              var r := BraceSpan(s);
              && r == s[IndexOf(s, '{')..LastIndexOf(s, '}') + 1]
              && |r| >= 2 && r[0] == '{' && r[|r| - 1] == '}'
  {
    var first := IndexOf(s, '{');
    var last := LastIndexOf(s, '}');
    SpanBetweenSpec(s, first, last);
  }

  lemma SpanBetweenSpec(s: string, first: int, last: int)
    requires -1 <= first < |s| && -1 <= last < |s|
    requires first >= 0 ==> s[first] == '{'
    requires last >= 0 ==> s[last] == '}'
    ensures first == -1 || last == -1 ==> SpanBetween(s, first, last) == s
    ensures first > last >= 0 ==> SpanBetween(s, first, last) == []
    ensures 0 <= first < last ==>
              var r := SpanBetween(s, first, last);
              && r == s[first..last + 1]
              && |r| >= 2 && r[0] == '{' && r[|r| - 1] == '}'
  {
    if 0 <= first < last {
      var r := s[first..last + 1];
      assert r[0] == s[first] && r[|r| - 1] == s[last];
    }
  }

  /** The text handed to `JSON.parse` (api.ts:15-36), as a value: each binding
      below is one reassignment of `cleaned`. */
  function Cleaned(text: string): (r: string)
    ensures |r| <= |text|
  {
    var cleaned := Trim(text);
    var cleaned := StripFences(cleaned);
    var cleaned := Trim(cleaned);
    BraceSpan(cleaned)
  }

  /** `parseJSONFromText` up to the call of `JSON.parse`: `cleaned` reassigned
      step by step, as the source does it. */
  method CleanJsonText(text: string) returns (cleaned: string)
    ensures cleaned == Cleaned(text)
  {
    cleaned := Trim(text);
    cleaned := RemoveFences(cleaned);
    cleaned := Trim(cleaned);
    cleaned := CutToBraces(cleaned);
  }

  /** The fence removal of api.ts:18-26, in place on `cleaned`. */
  method RemoveFences(s: string) returns (cleaned: string)
    ensures cleaned == StripFences(s)
  {
    cleaned := s;
    if StartsWith(cleaned, JSON_FENCE) {
      cleaned := cleaned[|JSON_FENCE|..];
    } else if StartsWith(cleaned, FENCE) {
      cleaned := cleaned[|FENCE|..];
    }
    if EndsWith(cleaned, FENCE) {
      cleaned := cleaned[..|cleaned| - |FENCE|];
    }
  }

  /** The brace search of api.ts:30-35. */
  method CutToBraces(s: string) returns (cleaned: string)
    ensures cleaned == BraceSpan(s)
  {
    cleaned := s;
    var firstBrace := IndexOf(cleaned, '{');
    var lastBrace := LastIndexOf(cleaned, '}');
    if firstBrace != -1 && lastBrace != -1 {
      cleaned := if firstBrace <= lastBrace then cleaned[firstBrace..lastBrace + 1] else [];
    }
  }

  /** A text that looks like one JSON object: it opens with `{` and closes with `}`. */
  predicate IsObjectText(j: string)
  {
    |j| >= 2 && j[0] == '{' && j[|j| - 1] == '}'
  }

  /** An object surrounded by prose with no `{` before it and no `}` after it. */
  predicate Wrapped(pre: string, j: string, post: string)
  {
    IsObjectText(j) && '{' !in pre && '}' !in post
  }

  /** Whatever surrounds the object (white space, a code fence, a sentence of
      prose) is cut away and the object itself comes back unchanged: this covers
      the three reply shapes the service produces (bare JSON, fenced JSON, JSON
      inside prose). */
  lemma {:induction false} CleanedRecoversObject(pre: string, j: string, post: string)
    requires Wrapped(pre, j, post)
    ensures Cleaned(pre + j + post) == j
  {
    var pre1, post1 := TrimKeeps(pre, j, post);
    var pre2, post2 := StripKeeps(pre1, j, post1);
    var pre3, post3 := TrimKeeps(pre2, j, post2);
    BraceSpanOfWrapped(pre3, j, post3);
  }

  lemma CleanedBareObject(j: string)
    requires IsObjectText(j)
    ensures Cleaned(j) == j
  {
    assert j == [] + j + [];
    CleanedRecoversObject([], j, []);
  }

  lemma CleanedFencedObject(j: string)
    requires IsObjectText(j)
    ensures Cleaned(JSON_FENCE + "\n" + j + "\n" + FENCE) == j
  {
    assert JSON_FENCE + "\n" + j + "\n" + FENCE == (JSON_FENCE + "\n") + j + ("\n" + FENCE);
    CleanedRecoversObject(JSON_FENCE + "\n", j, "\n" + FENCE);
  }

  // --- helpers for CleanedRecoversObject -------------------------------------

  lemma TrimKeeps(pre: string, j: string, post: string) returns (pre': string, post': string)
    requires Wrapped(pre, j, post)
    ensures Wrapped(pre', j, post') && Trim(pre + j + post) == pre' + j + post'
  {
    pre' := TrimStartKeeps(pre, j, post);
    post' := TrimEndKeeps(pre', j, post);
  }

  lemma TrimStartKeeps(pre: string, j: string, post: string) returns (pre': string)
    requires Wrapped(pre, j, post)
    ensures Wrapped(pre', j, post) && TrimStart(pre + j + post) == pre' + j + post
  {
    var s := pre + j + post;
    TrimStartSpec(s);
    var k := |s| - |TrimStart(s)|;
    assert s[|pre|] == '{' && !IsWhitespace('{');
    pre' := pre[k..];
    assert '{' !in pre' by { assert forall c :: c in pre' ==> c in pre; }
  }

  lemma TrimEndKeeps(pre: string, j: string, post: string) returns (post': string)
    requires Wrapped(pre, j, post)
    ensures Wrapped(pre, j, post') && TrimEnd(pre + j + post) == pre + j + post'
  {
    var s := pre + j + post;
    TrimEndSpec(s);
    var m := |TrimEnd(s)|;
    assert s[|pre| + |j| - 1] == '}' && !IsWhitespace('}');
    post' := post[..m - |pre| - |j|];
    assert s[..m] == pre + j + post';
    assert '}' !in post' by { assert forall c :: c in post' ==> c in post; }
  }

  lemma StripKeeps(pre: string, j: string, post: string) returns (pre': string, post': string)
    requires Wrapped(pre, j, post)
    ensures Wrapped(pre', j, post') && StripFences(pre + j + post) == pre' + j + post'
  {
    pre' := StripOpenKeeps(pre, j, post);
    post' := StripCloseKeeps(pre', j, post);
  }

  lemma StripOpenKeeps(pre: string, j: string, post: string) returns (pre': string)
    requires Wrapped(pre, j, post)
    ensures Wrapped(pre', j, post) && OpenFenceStripped(pre + j + post) == pre' + j + post
  {
    var s := pre + j + post;
    var k := if StartsWith(s, JSON_FENCE) then 7 else if StartsWith(s, FENCE) then 3 else 0;
    assert s[|pre|] == '{';
    pre' := pre[k..];
    assert s[k..] == pre' + j + post;
    assert '{' !in pre' by { assert forall c :: c in pre' ==> c in pre; }
  }

  lemma StripCloseKeeps(pre: string, j: string, post: string) returns (post': string)
    requires Wrapped(pre, j, post)
    ensures Wrapped(pre, j, post') && CloseFenceStripped(pre + j + post) == pre + j + post'
  {
    var s := pre + j + post;
    var k := if EndsWith(s, FENCE) then 3 else 0;
    assert s[|pre| + |j| - 1] == '}';
    post' := post[..|post| - k];
    assert s[..|s| - k] == pre + j + post';
    assert '}' !in post' by { assert forall c :: c in post' ==> c in post; }
  }

  lemma BraceSpanOfWrapped(pre: string, j: string, post: string)
    requires Wrapped(pre, j, post)
    ensures BraceSpan(pre + j + post) == j
  {
    var s := pre + j + post;
    assert s[|pre|] == '{';
    assert s[|pre| + |j| - 1] == '}';
    var f := IndexOf(s, '{');
    var l := LastIndexOf(s, '}');
    assert f == |pre| by {
      assert s[..|pre|] == pre;
    }
    assert l == |pre| + |j| - 1 by {
      assert s[|pre| + |j|..] == post;
    }
    assert s[f..l + 1] == j;
  }
}
