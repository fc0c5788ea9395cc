/**
 * `clean_html` (utils/text_cleaning.py): markup is removed first, then
 * entities are decoded, runs of blank lines are collapsed and the result is
 * stripped. Each regular-expression pass is a recursive function that scans
 * left to right as Python's `re.sub` does.
 */
module TextCleaning {
  import opened Wrappers
  import Text

  // ------------------------------------------------------------ tags

  /** The index of the first `c` in `s`, if any. */
  function IndexOf(s: string, c: char): (r: Option<nat>)
    ensures r.Some? ==> r.value < |s| && s[r.value] == c && c !in s[..r.value]
    ensures r.None? ==> c !in s
  {
    if s == [] then None
    else if s[0] == c then Some(0)
    else match IndexOf(s[1..], c)
      case None => None
      case Some(k) => assert s[..k + 1] == [s[0]] + s[1..][..k]; Some(k + 1)
  }

  /**
   * The length of the markup `<[^>]+>` at the start of `s`: a `<`, at least
   * one character other than `>`, and the first `>` after them; 0 when `s`
   * does not start with one.
   */
  function TagLength(s: string): nat
  {
    if s == [] || s[0] != '<' then 0
    else match IndexOf(s[1..], '>')
      case Some(k) => if k >= 1 then k + 2 else 0
      case None => 0
  }

  /** `re.sub(r'<[^>]+>', '', text)`. */
  function StripTags(s: string): string
    decreases |s|
  {
    if s == [] then []
    else if TagLength(s) > 0 then StripTags(s[TagLength(s)..])
    else [s[0]] + StripTags(s[1..])
  }

  /** A markup element: `<`, a body without `>`, `>`. */
  predicate IsTag(t: string)
  {
    |t| >= 3 && t[0] == '<' && t[|t| - 1] == '>' && '>' !in t[1..|t| - 1]
  }

  /** The first `c` after a stretch without one is found right there. */
  lemma {:induction false} IndexAfter(a: string, c: char, rest: string)
    requires c !in a
    ensures IndexOf(a + [c] + rest, c) == Some(|a|)
    decreases |a|
  {
    if a != [] {
      assert (a + [c] + rest)[1..] == a[1..] + [c] + rest;
      IndexAfter(a[1..], c, rest);
    } else {
      assert (a + [c] + rest)[0] == c;
    }
  }

  lemma TagMatched(t: string, rest: string)
    requires IsTag(t)
    ensures TagLength(t + rest) == |t|
  {
    var s := t + rest;
    assert s[1..] == t[1..|t| - 1] + ['>'] + rest;
    IndexAfter(t[1..|t| - 1], '>', rest);
  }

  /** Text without `<` passes through the tag pass unchanged, whatever follows. */
  lemma {:induction false} TextKept(t: string, rest: string)
    requires '<' !in t
    ensures StripTags(t + rest) == t + StripTags(rest)
    decreases |t|
  {
    if t != [] {
      assert (t + rest)[1..] == t[1..] + rest;
      TextKept(t[1..], rest);
    } else {
      assert t + rest == rest;
    }
  }

  /** A markup element is dropped whole. */
  lemma TagDropped(t: string, rest: string)
    requires IsTag(t)
    ensures StripTags(t + rest) == StripTags(rest)
  {
    TagMatched(t, rest);
    assert (t + rest)[|t|..] == rest;
  }

  /** Markup around text is removed and the enclosed text kept. */
  lemma EnclosedTextKept(open: string, t: string, close: string)
    requires IsTag(open) && IsTag(close) && '<' !in t
    ensures StripTags(open + t + close) == t
  {
    TagDropped(open, t + close);
    assert open + t + close == open + (t + close);
    TextKept(t, close);
    TagDropped(close, []);
    assert close + [] == close;
  }

  // ------------------------------------------------------------ entities

  /**
   * `html.unescape` for the named entities &quot; &lt; &gt; &amp; &apos;
   * and the numeric &#39;; anything else is kept as it is.
   */
  function Unescape(s: string): string
    decreases |s|
  {
    if s == [] then []
    else if s[0] != '&' then [s[0]] + Unescape(s[1..])
    else if Text.StartsWith(s, "&quot;") then "\"" + Unescape(s[6..])
    else if Text.StartsWith(s, "&lt;") then "<" + Unescape(s[4..])
    else if Text.StartsWith(s, "&gt;") then ">" + Unescape(s[4..])
    else if Text.StartsWith(s, "&amp;") then "&" + Unescape(s[5..])
    else if Text.StartsWith(s, "&apos;") then "'" + Unescape(s[6..])
    else if Text.StartsWith(s, "&#39;") then "'" + Unescape(s[5..])
    else [s[0]] + Unescape(s[1..])
  }

  /** Text without `&` is decoded to itself, whatever follows. */
  lemma {:induction false} NoEntity(t: string, rest: string)
    requires '&' !in t
    ensures Unescape(t + rest) == t + Unescape(rest)
    decreases |t|
  {
    if t != [] {
      assert (t + rest)[1..] == t[1..] + rest;
      assert (t + rest)[0] == t[0];
      NoEntity(t[1..], rest);
    } else {
      assert t + rest == rest;
    }
  }

  // ------------------------------------------------------------ blank lines

  /** The number of newlines in the whitespace run at the start of `s`. */
  function RunNewlines(s: string): nat
  {
    if s == [] || !Text.IsSpace(s[0]) then 0
    else (if s[0] == '\n' then 1 else 0) + RunNewlines(s[1..])
  }

  /** Where the whitespace run at the start of `s` has its last newline, plus one (0 if none). */
  function RunCut(s: string): nat
  {
    if s == [] || !Text.IsSpace(s[0]) then 0
    else if RunCut(s[1..]) > 0 then RunCut(s[1..]) + 1
    else if s[0] == '\n' then 1
    else 0
  }

  /** The cut lies in `s`, ends on a newline, and is followed by no newline. */
  lemma {:induction false} RunCutShape(s: string)
    ensures RunCut(s) <= |s|
    ensures RunCut(s) > 0 ==> s[RunCut(s) - 1] == '\n'
    ensures RunNewlines(s) > 0 ==> RunCut(s) > 0
    ensures RunCut(s) < |s| ==> s[RunCut(s)] != '\n' || RunCut(s) == 0
    ensures RunCut(s) == 0 ==> RunNewlines(s) == 0
  {
    if s != [] && Text.IsSpace(s[0]) {
      RunCutShape(s[1..]);
    }
  }

  /** `\n\s*\n\s*\n+` matches at the start of `s`: a newline opening a whitespace run with at least three. */
  predicate Collapsible(s: string)
  {
    s != [] && s[0] == '\n' && RunNewlines(s) >= 3
  }

  /** `re.sub(r'\n\s*\n\s*\n+', '\n\n', text)`: the match runs to the last newline of its whitespace run. */
  function Collapse(s: string): string
    decreases |s|
  {
    if s == [] then []
    else if Collapsible(s) then
      RunCutShape(s);
      "\n\n" + Collapse(s[RunCut(s)..])
    else [s[0]] + Collapse(s[1..])
  }

  /** No three newlines follow each other in `t`. */
  predicate NoTripleNewline(t: string)
  {
    forall k :: 0 <= k && k + 2 < |t| ==> !(t[k] == '\n' && t[k + 1] == '\n' && t[k + 2] == '\n')
  }

  /** What `Collapse` starts with. */
  lemma CollapseStart(s: string)
    ensures s != [] && !Collapsible(s) ==> Collapse(s) != [] && Collapse(s)[0] == s[0]
    ensures Collapsible(s) ==> |Collapse(s)| >= 2 && Collapse(s)[..2] == "\n\n"
    ensures s == [] ==> Collapse(s) == []
  {
  }

  /** A newline that does not open a collapsible run is not followed by two more in the output. */
  lemma NoTripleAtStart(s: string)
    requires s != [] && !Collapsible(s) && s[0] == '\n'
    ensures |Collapse(s)| >= 3 ==> !(Collapse(s)[1] == '\n' && Collapse(s)[2] == '\n')
  {
    var tail := s[1..];
    assert RunNewlines(s) == 1 + RunNewlines(tail);
    CollapseStart(tail);
    assert Collapse(s) == [s[0]] + Collapse(tail);
    if tail != [] && tail[0] == '\n' {
      var tail2 := tail[1..];
      assert RunNewlines(tail) == 1 + RunNewlines(tail2);
      CollapseStart(tail2);
      assert Collapse(tail) == [tail[0]] + Collapse(tail2);
    }
  }

  /** After a collapse, no three newlines follow each other. */
  lemma {:induction false} CollapseLeavesNoTriple(s: string)
    ensures NoTripleNewline(Collapse(s))
    decreases |s|
  {
    if s == [] {
      return;
    }
    var out := Collapse(s);
    if Collapsible(s) {
      RunCutShape(s);
      var rest := s[RunCut(s)..];
      CollapseLeavesNoTriple(rest);
      CollapseStart(rest);
      assert out == "\n\n" + Collapse(rest);
      forall k | 0 <= k && k + 2 < |out|
        ensures !(out[k] == '\n' && out[k + 1] == '\n' && out[k + 2] == '\n')
      {
        if k >= 2 {
          assert out[k] == Collapse(rest)[k - 2] && out[k + 1] == Collapse(rest)[k - 1] && out[k + 2] == Collapse(rest)[k];
        } else {
          assert out[2] == Collapse(rest)[0];
        }
      }
    } else {
      var tail := s[1..];
      CollapseLeavesNoTriple(tail);
      assert out == [s[0]] + Collapse(tail);
      forall k | 0 <= k && k + 2 < |out|
        ensures !(out[k] == '\n' && out[k + 1] == '\n' && out[k + 2] == '\n')
      {
        if k >= 1 {
          assert out[k] == Collapse(tail)[k - 1] && out[k + 1] == Collapse(tail)[k] && out[k + 2] == Collapse(tail)[k + 1];
        } else if s[0] == '\n' {
          NoTripleAtStart(s);
        }
      }
    }
  }

  /** Text without newlines is left alone, whatever follows. */
  lemma {:induction false} NoNewlineKept(t: string, rest: string)
    requires '\n' !in t
    ensures Collapse(t + rest) == t + Collapse(rest)
    decreases |t|
  {
    if t != [] {
      assert (t + rest)[1..] == t[1..] + rest;
      assert (t + rest)[0] == t[0];
      NoNewlineKept(t[1..], rest);
    } else {
      assert t + rest == rest;
    }
  }

  // ------------------------------------------------------------ clean_html

  /** The cleaning of a non-empty string. */
  function Cleaned(s: string): string
  {
    Text.Strip(Collapse(Unescape(StripTags(s))))
  }

  /**
   * `clean_html`: `None` and the empty string are returned as they are;
   * anything else is cleaned.
   */
  function CleanHtml(text: Option<string>): (r: Option<string>)
    ensures text.None? <==> r.None?
    ensures text == Some("") ==> r == Some("")
  {
    match text
    case None => None
    case Some(s) => if s == [] then Some(s) else Some(Cleaned(s))
  }

  /** The result has no surrounding whitespace and never three newlines in a row. */
  lemma CleanedShape(s: string)
    ensures var r := Cleaned(s);
      (r == [] || (!Text.IsSpace(r[0]) && !Text.IsSpace(r[|r| - 1]))) && NoTripleNewline(r)
  {
    var c := Collapse(Unescape(StripTags(s)));
    CollapseLeavesNoTriple(Unescape(StripTags(s)));
    var i, j := Text.StripShape(c);
    var r := Cleaned(s);
    assert r == c[i..j];
    forall k | 0 <= k && k + 2 < |r|
      ensures !(r[k] == '\n' && r[k + 1] == '\n' && r[k + 2] == '\n')
    {
      assert r[k] == c[i + k] && r[k + 1] == c[i + k + 1] && r[k + 2] == c[i + k + 2];
    }
  }

  /** Plain text without markup, entities, newlines or surrounding whitespace comes back unchanged. */
  lemma PlainTextUnchanged(s: string)
    requires '<' !in s && '&' !in s && '\n' !in s
    requires s == [] || (!Text.IsSpace(s[0]) && !Text.IsSpace(s[|s| - 1]))
    ensures CleanHtml(Some(s)) == Some(s)
  {
    TextKept(s, []);
    NoEntity(s, []);
    NoNewlineKept(s, []);
    assert s + [] == s;
    Text.StripNoop(s);
  }

  /**
   * Entities are decoded after the markup is gone, so an encoded `<value>`
   * survives as text: without `<` in the input, cleaning is decoding,
   * collapsing and stripping.
   */
  lemma EntitiesDecodedAfterTags(s: string)
    requires '<' !in s
    ensures Cleaned(s) == Text.Strip(Collapse(Unescape(s)))
  {
    TextKept(s, []);
    assert s + [] == s;
  }

  /** Cleaning text that has no markup, entity, newline or surrounding whitespace left after the first two passes. */
  lemma CleanedAfterDecoding(s: string, t: string)
    requires Unescape(StripTags(s)) == t && '\n' !in t
    requires t == [] || (!Text.IsSpace(t[0]) && !Text.IsSpace(t[|t| - 1]))
    ensures Cleaned(s) == t
  {
    NoNewlineKept(t, []);
    assert t + [] == t;
    Text.StripNoop(t);
  }

  /** An escaped element `&lt;name&gt;` decodes to `<name>`. */
  lemma {:induction false} EncodedTagDecoded(name: string)
    requires '&' !in name
    ensures Unescape("&lt;" + name + "&gt;") == "<" + name + ">"
  {
    var s := "&lt;" + name + "&gt;";
    assert s[..4] == "&lt;";
    assert s[1] == 'l';
    assert !Text.StartsWith(s, "&quot;");
    assert Unescape(s) == "<" + Unescape(s[4..]);
    assert s[4..] == name + "&gt;";
    NoEntity(name, "&gt;");
    var g := "&gt;";
    assert g[..4] == "&gt;" && g[4..] == [];
    assert !Text.StartsWith(g, "&quot;") && !Text.StartsWith(g, "&lt;");
    assert Unescape(g) == ">";
  }

  /**
   * An escaped element survives cleaning as text: `&lt;name&gt;` comes out
   * as `<name>` and is not removed as markup.
   */
  lemma EncodedMarkupSurvives(name: string)
    requires '<' !in name && '&' !in name && '\n' !in name
    ensures CleanHtml(Some("&lt;" + name + "&gt;")) == Some("<" + name + ">")
  {
    var s := "&lt;" + name + "&gt;";
    assert '<' !in s by {
      forall i | 0 <= i < |s| ensures s[i] != '<' {
        if 4 <= i < 4 + |name| { assert s[i] == name[i - 4]; }
      }
    }
    TextKept(s, []);
    assert s + [] == s;
    EncodedTagDecoded(name);
    var t := "<" + name + ">";
    assert '\n' !in t by {
      forall i | 0 <= i < |t| ensures t[i] != '\n' {
        if 1 <= i < 1 + |name| { assert t[i] == name[i - 1]; }
      }
    }
    CleanedAfterDecoding(s, t);
  }
}
