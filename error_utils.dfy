/**
 * The client's `parseHtmlError`: pull the text of the first `<pre ...>...</pre>`
 * element out of an HTML error page, turn its line-break tags into newlines
 * and trim the result.
 *
 * The pattern `<pre.*?>(.*?)</pre>` with flags `i` and `s` is decided here by
 * three leftmost searches: the first `<pre` in any letter case, the first `>`
 * after it, and the first `</pre>` after that. `SearchMatchesPattern` shows
 * that these searches find a match exactly when the pattern's three parts occur
 * in that order anywhere in the page.
 */
module ErrorUtils {
  import opened Wrappers
  import opened Text

  const DefaultMessage := "An unknown error occurred"

  /** The positions of one match: where `<pre` starts, the `>` that closes the opening tag, and where `</pre>` starts. */
  datatype PreMatch = PreMatch(open: nat, gt: nat, close: nat)

  /** `<pre`, then a `>` at or after the end of `<pre`, then `</pre>` after that `>`. */
  predicate IsPreMatch(s: string, m: PreMatch) {
    && MatchesAt(s, m.open, "<pre", true)
    && m.open + 4 <= m.gt < |s| && s[m.gt] == '>'
    && m.gt + 1 <= m.close && MatchesAt(s, m.close, "</pre>", true)
  }

  /** The first index at or after `from` holding `>`. */
  function FindGt(s: string, from: nat): (r: Option<nat>)
    ensures r.Some? ==> from <= r.value < |s| && s[r.value] == '>'
    ensures forall k :: from <= k < |s| && (r.None? || k < r.value) ==> s[k] != '>'
    decreases |s| - from
  {
    if from >= |s| then None
    else if s[from] == '>' then Some(from)
    else FindGt(s, from + 1)
  }

  /** The leftmost match, with both lazy quantifiers as short as they can be. */
  function FindPre(s: string): (r: Option<PreMatch>)
    ensures r.Some? ==> IsPreMatch(s, r.value)
    ensures r.Some? ==> forall k :: 0 <= k < r.value.open ==> !MatchesAt(s, k, "<pre", true)
    ensures r.Some? ==> forall k :: r.value.open + 4 <= k < r.value.gt ==> s[k] != '>'
    ensures r.Some? ==> forall k :: r.value.gt + 1 <= k < r.value.close ==> !MatchesAt(s, k, "</pre>", true)
  {
    match IndexOf(s, "<pre", 0, true)
    case None => None
    case Some(open) =>
      match FindGt(s, open + 4)
      case None => None
      case Some(gt) =>
        match IndexOf(s, "</pre>", gt + 1, true)
        case None => None
        case Some(close) => Some(PreMatch(open, gt, close))
  }

  /** The searches fail only when no `<pre`, `>`, `</pre>` triple exists at all, so no later start could match either. */
  lemma SearchMatchesPattern(s: string)
    ensures FindPre(s).None? <==> forall m :: !IsPreMatch(s, m)
  {
    if FindPre(s).None? {
      forall m | IsPreMatch(s, m) ensures false {
      }
    }
  }

  // ---------------------------------------------------------------- <br> rewriting

  /** The length of the whitespace run `\s*` at the start of `s`. */
  function SkipSpace(s: string): (r: nat)
    ensures r <= |s| && (r == |s| || !IsSpace(s[r]))
    ensures AllSpace(s[..r])
    decreases |s|
  {
    if s != [] && IsSpace(s[0]) then
      var r := 1 + SkipSpace(s[1..]);
      assert s[..r] == [s[0]] + s[1..][..r - 1];
      AllSpaceConcat([s[0]], s[1..][..r - 1]);
      r
    else 0
  }

  predicate StartsBr(s: string) {
    MatchesAt(s, 0, "<br", true)
  }

  /** The length of a `<br\s*\/?>` tag (any case) at the start of `s`, if it starts with one. */
  function TagAt(s: string): (r: Option<nat>)
    ensures r.Some? ==> 4 <= r.value <= |s| && StartsBr(s) && s[r.value - 1] == '>'
    ensures !StartsBr(s) ==> r.None?
  {
    if !StartsBr(s) then None
    else
      var j := 3 + SkipSpace(s[3..]);
      var j' := if j < |s| && s[j] == '/' then j + 1 else j;
      if j' < |s| && s[j'] == '>' then Some(j' + 1) else None
  }

  /** `s.replace(/<br\s*\/?>/gi, '\n')`: left to right, each tag replaced, everything else copied. */
  function ReplaceBr(s: string): (r: string)
    ensures |r| <= |s|
    decreases |s|
  {
    if s == "" then ""
    else match TagAt(s)
      case Some(n) => "\n" + ReplaceBr(s[n..])
      case None => [s[0]] + ReplaceBr(s[1..])
  }

  /** No tag starts anywhere in `s`. */
  predicate NoBrIn(s: string) {
    forall k :: 0 <= k < |s| ==> !StartsBr(s[k..])
  }

  /** Text with no `<br` in it, other tags included, comes through the rewrite unchanged. */
  lemma {:induction false} NoBrUnchanged(s: string)
    requires NoBrIn(s)
    ensures ReplaceBr(s) == s
    decreases |s|
  {
    if s != "" {
      assert !StartsBr(s[0..]) && s[0..] == s;
      assert NoBrIn(s[1..]) by {
        forall k | 0 <= k < |s[1..]| ensures !StartsBr(s[1..][k..]) {
          assert s[1..][k..] == s[k + 1..];
        }
      }
      NoBrUnchanged(s[1..]);
    }
  }

  /** The three spellings of the tag, in any case, each become one newline. */
  lemma BrSpellings()
    ensures ReplaceBr("<br>") == "\n"
    ensures ReplaceBr("<BR/>") == "\n"
    ensures ReplaceBr("<br />") == "\n"
  {
    assert TagAt("<br>") == Some(4);
    assert TagAt("<BR/>") == Some(5);
    assert SkipSpace(" />") == 1;
    assert TagAt("<br />") == Some(6);
  }

  /** A whole `<br\s*\/?>` tag: `<br` in any case, whitespace, an optional `/`, then `>`. */
  predicate IsBrTag(t: string) {
    && |t| >= 4
    && StartsBr(t)
    && t[|t| - 1] == '>'
    && (|| AllSpace(t[3..|t| - 1])
        || (|t| >= 5 && t[|t| - 2] == '/' && AllSpace(t[3..|t| - 2])))
  }

  /** Skipping a run of whitespace stops at its first non-whitespace character. */
  lemma {:induction false} SkipSpaceRun(s: string, e: nat)
    requires e <= |s| && AllSpace(s[..e]) && (e == |s| || !IsSpace(s[e]))
    ensures SkipSpace(s) == e
    decreases e
  {
    if e > 0 {
      assert IsSpace(s[..e][0]);
      assert s[1..][..e - 1] == s[1..e];
      SkipSpaceRun(s[1..], e - 1);
    }
  }

  /** Every tag of the pattern is recognised whole, whatever follows it. */
  lemma TagAtTag(t: string, b: string)
    requires IsBrTag(t)
    ensures TagAt(t + b) == Some(|t|)
  {
    var s := t + b;
    assert s[..|t|] == t;
    assert StartsBr(s) by {
      assert s[0] == t[0] && s[1] == t[1] && s[2] == t[2];
    }
    if AllSpace(t[3..|t| - 1]) {
      assert s[3..][..|t| - 4] == t[3..|t| - 1];
      SkipSpaceRun(s[3..], |t| - 4);
    } else {
      assert s[3..][..|t| - 5] == t[3..|t| - 2];
      SkipSpaceRun(s[3..], |t| - 5);
    }
  }

  /** A tag at the front becomes one newline. */
  lemma ReplaceTagStep(s: string)
    requires TagAt(s).Some?
    ensures ReplaceBr(s) == "\n" + ReplaceBr(s[TagAt(s).value..])
  {
  }

  /** Any other first character is copied. */
  lemma ReplaceCharStep(s: string)
    requires s != "" && TagAt(s).None?
    ensures ReplaceBr(s) == [s[0]] + ReplaceBr(s[1..])
  {
  }

  /** Text before the first tag is copied as is, the tag becomes one newline, and what follows is rewritten on its own. */
  lemma {:induction false} FirstTagBecomesNewline(a: string, t: string, b: string)
    requires IsBrTag(t)
    requires forall k :: 0 <= k < |a| ==> !StartsBr((a + t + b)[k..])
    ensures ReplaceBr(a + t + b) == a + "\n" + ReplaceBr(b)
    decreases |a|
  {
    var s := a + t + b;
    if a == "" {
      assert s == t + b;
      TagAtTag(t, b);
      ReplaceTagStep(s);
      assert s[|t|..] == b;
    } else {
      var rest := a[1..] + t + b;
      assert s[0..] == s && !StartsBr(s);
      assert s[1..] == rest;
      forall k | 0 <= k < |a[1..]| ensures !StartsBr(rest[k..]) {
        assert rest[k..] == s[k + 1..];
      }
      FirstTagBecomesNewline(a[1..], t, b);
      ReplaceCharStep(s);
      assert a == [a[0]] + a[1..];
    }
  }

  /** Text made only of whitespace and line-break tags. */
  predicate Blank(s: string)
    decreases |s|
  {
    s == "" || (IsSpace(s[0]) && Blank(s[1..])) || (TagAt(s).Some? && Blank(s[TagAt(s).value..]))
  }

  /** A tag starts with `<`, which is not whitespace. */
  lemma TagStartsWithBracket(s: string)
    requires TagAt(s).Some?
    ensures s[0] == '<' && !IsSpace(s[0])
  {
    assert CharEq(s[0 + 0], "<br"[0], true);
  }

  /** Rewriting such text leaves only whitespace. */
  lemma {:induction false} BlankRewritesToSpace(s: string)
    requires Blank(s)
    ensures AllSpace(ReplaceBr(s))
    decreases |s|
  {
    if s != "" {
      match TagAt(s)
      case Some(n) =>
        TagStartsWithBracket(s);
        BlankRewritesToSpace(s[n..]);
        AllSpaceConcat("\n", ReplaceBr(s[n..]));
      case None =>
        BlankRewritesToSpace(s[1..]);
        AllSpaceConcat([s[0]], ReplaceBr(s[1..]));
    }
  }

  // ---------------------------------------------------------------- parseHtmlError

  /** The captured group of the leftmost match, if the page has one. */
  function Capture(html: string): (r: Option<string>)
    ensures r.None? <==> FindPre(html).None?
    ensures r.Some? ==> var m := FindPre(html).value; r.value == html[m.gt + 1..m.close]
  {
    match FindPre(html)
    case None => None
    case Some(m) => Some(html[m.gt + 1..m.close])
  }

  /** The default message unless the page has a non-empty capture; otherwise that capture rewritten and trimmed. */
  function ParseHtmlError(html: string): (r: string)
    ensures Capture(html).None? || Capture(html) == Some("") ==> r == DefaultMessage
    ensures Capture(html).Some? && Capture(html).value != "" ==> r == Trim(ReplaceBr(Capture(html).value))
  {
    match Capture(html)
    case None => DefaultMessage
    case Some(capture) => if capture == "" then DefaultMessage else Trim(ReplaceBr(capture))
  }

  /** A non-empty capture of nothing but whitespace and line breaks yields "", not the default message. */
  lemma BlankCaptureGivesEmpty(html: string)
    requires Capture(html).Some? && Capture(html).value != "" && Blank(Capture(html).value)
    ensures ParseHtmlError(html) == ""
  {
    BlankRewritesToSpace(Capture(html).value);
  }

  /** The tags are found in any letter case. */
  lemma UpperCaseTags()
    ensures ParseHtmlError("<PRE>x</PRE>") == "x"
  {
    UpperCaseCapture();
    PlainX();
  }

  lemma PlainX()
    ensures Trim(ReplaceBr("x")) == "x"
  {
    NoBrInX();
    TrimX();
  }

  lemma NoBrInX()
    ensures ReplaceBr("x") == "x"
  {
    assert !StartsBr("x");
    assert "x"[1..] == "";
  }

  lemma TrimX()
    ensures Trim("x") == "x"
  {
    assert TrimStart("x") == "x";
    assert TrimEnd("x") == "x";
  }

  lemma UpperCaseCapture()
    ensures Capture("<PRE>x</PRE>") == Some("x")
  {
    var s := "<PRE>x</PRE>";
    UpperCaseOpen(s);
    assert FindGt(s, 4) == Some(4);
    UpperCaseClose(s);
    assert FindPre(s) == Some(PreMatch(0, 4, 6));
    assert s[5..6] == "x";
  }

  lemma UpperCaseOpen(s: string)
    requires s == "<PRE>x</PRE>"
    ensures IndexOf(s, "<pre", 0, true) == Some(0)
  {
    assert MatchesAt(s, 0, "<pre", true);
  }

  lemma UpperCaseClose(s: string)
    requires s == "<PRE>x</PRE>"
    ensures IndexOf(s, "</pre>", 5, true) == Some(6)
  {
    assert !CharEq(s[5], "</pre>"[0], true);
    assert !MatchesAt(s, 5, "</pre>", true);
    assert MatchesAt(s, 6, "</pre>", true);
    assert IndexOf(s, "</pre>", 6, true) == Some(6);
  }
}
