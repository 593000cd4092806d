/** String helpers shared by the slug rule, `trim()` and the e-mail check:
    the ECMAScript white-space class, `toLowerCase` on ASCII letters, `trim`,
    and the slug rule `title.toLowerCase().replace(/\s+/g, '-')`. */
module Text {

  /** The characters matched by ECMAScript's `\s` and removed by
      `String.prototype.trim`: the WhiteSpace and LineTerminator code points. */
  predicate IsWhitespace(c: char) {
    || c == '\t' || c == '\n' || c == '\U{000B}' || c == '\U{000C}' || c == '\r'
    || c == ' ' || c == '\U{00A0}' || c == '\U{1680}'
    || ('\U{2000}' <= c <= '\U{200A}')
    || c == '\U{2028}' || c == '\U{2029}' || c == '\U{202F}' || c == '\U{205F}'
    || c == '\U{3000}' || c == '\U{FEFF}'
  }

  predicate NoWhitespace(s: string) {
    forall i :: 0 <= i < |s| ==> !IsWhitespace(s[i])
  }

  predicate AllWhitespace(s: string) {
    forall i :: 0 <= i < |s| ==> IsWhitespace(s[i])
  }

  /** `toLowerCase` restricted to ASCII capitals; every other character is kept. */
  function LowerChar(c: char): (d: char)
    ensures IsWhitespace(d) <==> IsWhitespace(c)
    ensures !('A' <= d <= 'Z')
  {
    if 'A' <= c <= 'Z' then (c as int + 32) as char else c
  }

  function ToLower(s: string): (r: string)
    ensures |r| == |s|
    ensures forall i :: 0 <= i < |s| ==> r[i] == LowerChar(s[i])
  {
    seq(|s|, i requires 0 <= i < |s| => LowerChar(s[i]))
  }

  /** A string `toLowerCase` leaves as it is. */
  predicate IsLowered(s: string) {
    forall i :: 0 <= i < |s| ==> LowerChar(s[i]) == s[i]
  }

  /** `trimStart`: drops the leading white-space run. */
  function TrimStart(s: string): (r: string)
    ensures |r| <= |s| && r == s[|s| - |r|..]
    ensures AllWhitespace(s[..|s| - |r|])
    ensures r == [] || !IsWhitespace(r[0])
    ensures r == [] <==> AllWhitespace(s)
  {
    if s != [] && IsWhitespace(s[0]) then TrimStart(s[1..]) else s
  }

  /** `trimEnd`: drops the trailing white-space run. */
  function TrimEnd(s: string): (r: string)
    ensures |r| <= |s| && r == s[..|r|]
    ensures AllWhitespace(s[|r|..])
    ensures r == [] || !IsWhitespace(r[|r| - 1])
    ensures r == [] <==> AllWhitespace(s)
  {
    if s != [] && IsWhitespace(s[|s| - 1]) then TrimEnd(s[..|s| - 1]) else s
  }

  function Trim(s: string): string {
    TrimEnd(TrimStart(s))
  }

  /** `!s.trim()`: the trimmed string is empty. */
  predicate IsBlank(s: string) {
    Trim(s) == []
  }

  /** A field is blank exactly when every character in it is white space. */
  lemma BlankIffAllWhitespace(s: string)
    ensures IsBlank(s) <==> AllWhitespace(s)
  {
    var t := TrimStart(s);
    if IsBlank(s) {
      assert AllWhitespace(t);
      assert t == [];
      assert s[..|s|] == s;
    }
  }

  /** `replace(/\s+/g, '-')`: each maximal run of white space becomes one '-'. */
  function CollapseWhitespace(s: string): (r: string)
    ensures NoWhitespace(r)
    decreases |s|
  {
    if s == [] then []
    else if IsWhitespace(s[0]) then "-" + CollapseWhitespace(TrimStart(s[1..]))
    else [s[0]] + CollapseWhitespace(s[1..])
  }

  /** The slug of a post title: lower-cased, white-space runs turned into '-'. */
  function Slug(title: string): (r: string)
    ensures NoWhitespace(r)
  {
    CollapseWhitespace(ToLower(title))
  }

  /** A string without white space passes through the rule unchanged. */
  lemma {:induction false} CollapseFixesWhitespaceFree(s: string)
    requires NoWhitespace(s)
    ensures CollapseWhitespace(s) == s
    decreases |s|
  {
    if s != [] {
      assert !IsWhitespace(s[0]);
      CollapseFixesWhitespaceFree(s[1..]);
      assert s == [s[0]] + s[1..];
    }
  }

  /** The rule only introduces '-' and characters of its input, so it keeps
      a lower-cased string lower-cased. */
  lemma {:induction false} CollapseKeepsLowered(s: string)
    requires IsLowered(s)
    ensures IsLowered(CollapseWhitespace(s))
    decreases |s|
  {
    if s != [] {
      if IsWhitespace(s[0]) {
        var t := TrimStart(s[1..]);
        assert forall i :: 0 <= i < |t| ==> t[i] == s[1..][|s[1..]| - |t| + i];
        CollapseKeepsLowered(t);
      } else {
        CollapseKeepsLowered(s[1..]);
      }
    }
  }

  /** Leading white space of `x` is all that `trimStart` removes from `x + y`
      when `x` holds a character that is not white space. */
  lemma {:induction false} TrimStartAppend(x: string, y: string)
    requires !AllWhitespace(x)
    ensures TrimStart(x + y) == TrimStart(x) + y
    decreases |x|
  {
    var k :| 0 <= k < |x| && !IsWhitespace(x[k]);
    if IsWhitespace(x[0]) {
      assert (x + y)[1..] == x[1..] + y;
      assert x[1..][k - 1] == x[k];
      TrimStartAppend(x[1..], y);
    }
  }

  /** `trimStart` removes a whole run of white space in front of a string that
      does not itself start with white space. */
  lemma {:induction false} TrimStartRun(w: string, b: string)
    requires AllWhitespace(w)
    requires b == [] || !IsWhitespace(b[0])
    ensures TrimStart(w + b) == b
    decreases |w|
  {
    if w == [] {
      assert w + b == b;
    } else {
      assert (w + b)[1..] == w[1..] + b;
      TrimStartRun(w[1..], b);
    }
  }

  /** A run of white space at the front becomes one leading '-'. */
  lemma CollapseLeadingRun(w: string, b: string)
    requires |w| > 0 && AllWhitespace(w)
    requires b == [] || !IsWhitespace(b[0])
    ensures CollapseWhitespace(w + b) == "-" + CollapseWhitespace(b)
  {
    var s := w + b;
    assert s[0] == w[0];
    assert s[1..] == w[1..] + b;
    TrimStartRun(w[1..], b);
  }

  /** A leading character that is not white space is copied. */
  lemma CollapseLeadingChar(c: char, s: string)
    requires !IsWhitespace(c)
    ensures CollapseWhitespace([c] + s) == [c] + CollapseWhitespace(s)
  {
    assert ([c] + s)[1..] == s;
  }

  /** Unfolds the rule once on a string that starts with white space and
      ends with a character that is not. */
  lemma CollapseLeadingWhitespace(a: string, y: string)
    requires a != [] && IsWhitespace(a[0]) && !IsWhitespace(a[|a| - 1])
    ensures TrimStart(a[1..]) != [] && !IsWhitespace(TrimStart(a[1..])[|TrimStart(a[1..])| - 1])
    ensures CollapseWhitespace(a + y) == "-" + CollapseWhitespace(TrimStart(a[1..]) + y)
  {
    var a' := a[1..];
    assert (a + y)[0] == a[0] && (a + y)[1..] == a' + y;
    assert a'[|a'| - 1] == a[|a| - 1];
    TrimStartAppend(a', y);
  }

  /** The regrouping of a concatenation that `CollapseRun`'s two recursive
      cases need. */
  lemma Associative(x: string, y: string, z: string)
    ensures x + (y + z) == (x + y) + z
  {
  }

  /** Each maximal run of white space is replaced by exactly one '-': splitting
      the input around one run splits the output around one '-'. */
  lemma {:induction false} CollapseRun(a: string, w: string, b: string)
    requires a == [] || !IsWhitespace(a[|a| - 1])
    requires |w| > 0 && AllWhitespace(w)
    requires b == [] || !IsWhitespace(b[0])
    ensures CollapseWhitespace(a + (w + b)) == CollapseWhitespace(a) + ("-" + CollapseWhitespace(b))
    decreases |a|
  {
    var rest := "-" + CollapseWhitespace(b);
    if a == [] {
      CollapseLeadingRun(w, b);
      assert a + (w + b) == w + b;
    } else if IsWhitespace(a[0]) {
      var t := TrimStart(a[1..]);
      CollapseLeadingWhitespace(a, w + b);
      CollapseRun(t, w, b);
      CollapseLeadingWhitespaceAlone(a);
      Associative("-", CollapseWhitespace(t), rest);
    } else {
      var a' := a[1..];
      assert a' == [] || a'[|a'| - 1] == a[|a| - 1];
      CollapseRun(a', w, b);
      CollapseLeadingCharSplit(a, w + b);
      Associative([a[0]], CollapseWhitespace(a'), rest);
    }
  }

  lemma CollapseLeadingWhitespaceAlone(a: string)
    requires a != [] && IsWhitespace(a[0]) && !IsWhitespace(a[|a| - 1])
    ensures CollapseWhitespace(a) == "-" + CollapseWhitespace(TrimStart(a[1..]))
  {
  }

  lemma CollapseLeadingCharSplit(a: string, y: string)
    requires a != [] && !IsWhitespace(a[0])
    ensures CollapseWhitespace(a + y) == [a[0]] + CollapseWhitespace(a[1..] + y)
    ensures CollapseWhitespace(a) == [a[0]] + CollapseWhitespace(a[1..])
  {
    assert (a + y)[0] == a[0] && (a + y)[1..] == a[1..] + y;
  }

  /** Applying the slug rule to a slug changes nothing. */
  lemma SlugIdempotent(title: string)
    ensures Slug(Slug(title)) == Slug(title)
  {
    var s := Slug(title);
    CollapseKeepsLowered(ToLower(title));
    assert ToLower(s) == s;
    CollapseFixesWhitespaceFree(s);
  }

  /** One run of white space between two words becomes one '-'. */
  lemma CollapseBetweenWords(x: string, w: string, y: string)
    requires NoWhitespace(x) && NoWhitespace(y)
    requires |w| > 0 && AllWhitespace(w)
    ensures CollapseWhitespace(x + (w + y)) == x + ("-" + y)
  {
    CollapseRun(x, w, y);
    CollapseFixesWhitespaceFree(x);
    CollapseFixesWhitespaceFree(y);
  }

  /** A worked example: one inner space. */
  lemma SlugOfTwoWords(title: string)
    requires title == "Hello World"
    ensures Slug(title) == "hello-world"
  {
    var hello, space, world := "hello", " ", "world";
    assert ToLower(title) == hello + (space + world);
    CollapseBetweenWords(hello, space, world);
  }

  /** A worked example: a leading run and an inner run each become one '-'. */
  lemma SlugOfSpacedLetters(title: string)
    requires title == "  A   B"
    ensures Slug(title) == "-a-b"
  {
    var lead, a, inner, b := "  ", "a", "   ", "b";
    SpacedLettersPieces(title, lead, a, inner, b);
    SlugOfRunWordRunWord(title, lead, a, inner, b);
  }

  lemma SpacedLettersPieces(title: string, lead: string, a: string, inner: string, b: string)
    requires title == "  A   B" && lead == "  " && a == "a" && inner == "   " && b == "b"
    ensures ToLower(title) == lead + (a + (inner + b))
    ensures |lead| > 0 && AllWhitespace(lead) && |inner| > 0 && AllWhitespace(inner)
    ensures |a| > 0 && NoWhitespace(a) && NoWhitespace(b)
    ensures "-" + (a + ("-" + b)) == "-a-b"
  {
  }

  lemma SlugOfRunWordRunWord(title: string, lead: string, a: string, inner: string, b: string)
    requires |lead| > 0 && AllWhitespace(lead) && |inner| > 0 && AllWhitespace(inner)
    requires |a| > 0 && NoWhitespace(a) && NoWhitespace(b)
    requires ToLower(title) == lead + (a + (inner + b))
    ensures Slug(title) == "-" + (a + ("-" + b))
  {
    CollapseBetweenWords(a, inner, b);
    CollapseLeadingRun(lead, a + (inner + b));
  }
}
