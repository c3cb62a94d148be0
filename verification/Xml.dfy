/** Escaping and unescaping XML text, both done as a chain of whole-string replacements. */
module Xml {
  import opened Strings

  /** `str::replace`: leftmost matches, without overlap. */
  function Replace(s: string, pattern: string, to: string): string
    requires pattern != []
    decreases |s|
  {
    if s == [] then []
    else if pattern <= s then to + Replace(s[|pattern|..], pattern, to)
    else [s[0]] + Replace(s[1..], pattern, to)
  }

  function Escape(value: string): string {
    var amp := Replace(value, "&", "&amp;");
    var lt := Replace(amp, "<", "&lt;");
    var gt := Replace(lt, ">", "&gt;");
    var quot := Replace(gt, "\"", "&quot;");
    Replace(quot, "'", "&apos;")
  }

  function Unescape(value: string): string {
    var quot := Replace(value, "&quot;", "\"");
    var apos := Replace(quot, "&apos;", "'");
    var lt := Replace(apos, "&lt;", "<");
    var gt := Replace(lt, "&gt;", ">");
    Replace(gt, "&amp;", "&")
  }

  // ----- escaping works character by character

  /** The predefined entity of a character, or the character. */
  function EscapedChar(c: char): string {
    match c
    case '&' => "&amp;"
    case '<' => "&lt;"
    case '>' => "&gt;"
    case '"' => "&quot;"
    case '\'' => "&apos;"
    case _ => [c]
  }

  lemma {:induction false} SingleDistributes(a: string, b: string, c: char, to: string)
    ensures Replace(a + b, [c], to) == Replace(a, [c], to) + Replace(b, [c], to)
    decreases |a|
  {
    if a == [] {
      assert a + b == b;
    } else {
      assert (a + b)[1..] == a[1..] + b;
      assert ([c] <= a + b) == ([c] <= a) == (a[0] == c);
      SingleDistributes(a[1..], b, c, to);
    }
  }

  lemma EscapeDistributes(a: string, b: string)
    ensures Escape(a + b) == Escape(a) + Escape(b)
  {
    SingleDistributes(a, b, '&', "&amp;");
    var a1, b1 := Replace(a, "&", "&amp;"), Replace(b, "&", "&amp;");
    SingleDistributes(a1, b1, '<', "&lt;");
    var a2, b2 := Replace(a1, "<", "&lt;"), Replace(b1, "<", "&lt;");
    SingleDistributes(a2, b2, '>', "&gt;");
    var a3, b3 := Replace(a2, ">", "&gt;"), Replace(b2, ">", "&gt;");
    SingleDistributes(a3, b3, '"', "&quot;");
    var a4, b4 := Replace(a3, "\"", "&quot;"), Replace(b3, "\"", "&quot;");
    SingleDistributes(a4, b4, '\'', "&apos;");
  }

  lemma {:induction false} ReplaceAbsent(s: string, c: char, to: string)
    requires c !in s
    ensures Replace(s, [c], to) == s
    decreases |s|
  {
    if s != [] {
      ReplaceAbsent(s[1..], c, to);
      assert [s[0]] + s[1..] == s;
    }
  }

  lemma ReplaceOne(c: char, d: char, to: string)
    ensures Replace([c], [d], to) == if c == d then to else [c]
  {
    assert [d] <= [c] ==> [d][0] == [c][0];
    assert c == d ==> [d] <= [c];
    assert to + [] == to;
  }

  lemma EscapeOne(c: char)
    ensures Escape([c]) == EscapedChar(c)
  {
    hide Replace;
    ReplaceOne(c, '&', "&amp;");
    ReplaceOne(c, '<', "&lt;");
    ReplaceOne(c, '>', "&gt;");
    ReplaceOne(c, '"', "&quot;");
    ReplaceOne(c, '\'', "&apos;");
    if c == '&' {
      ReplaceAbsent("&amp;", '<', "&lt;");
      ReplaceAbsent("&amp;", '>', "&gt;");
      ReplaceAbsent("&amp;", '"', "&quot;");
      ReplaceAbsent("&amp;", '\'', "&apos;");
    } else if c == '<' {
      ReplaceAbsent("&lt;", '>', "&gt;");
      ReplaceAbsent("&lt;", '"', "&quot;");
      ReplaceAbsent("&lt;", '\'', "&apos;");
    } else if c == '>' {
      ReplaceAbsent("&gt;", '"', "&quot;");
      ReplaceAbsent("&gt;", '\'', "&apos;");
    } else if c == '"' {
      ReplaceAbsent("&quot;", '\'', "&apos;");
    }
  }

  // ----- unescaping, one entity at a time

  /** Unescaping turns the entities back in this order. */
  function Rank(c: char): nat {
    match c
    case '"' => 0
    case '\'' => 1
    case '<' => 2
    case '>' => 3
    case '&' => 4
    case _ => 5
  }

  /** What stands for a character after the first `stage` replacements of unescaping. */
  function Token(stage: nat, c: char): string { if Rank(c) < stage then [c] else EscapedChar(c) }

  function Tokens(stage: nat, s: string): string {
    if s == [] then [] else Token(stage, s[0]) + Tokens(stage, s[1..])
  }

  lemma {:induction false} EscapeIsTokens(s: string)
    ensures Escape(s) == Tokens(0, s)
  {
    if s != [] {
      EscapeDistributes([s[0]], s[1..]);
      assert [s[0]] + s[1..] == s;
      EscapeOne(s[0]);
      EscapeIsTokens(s[1..]);
    }
  }

  lemma {:induction false} LastTokens(s: string)
    ensures Tokens(5, s) == s
  {
    if s != [] {
      LastTokens(s[1..]);
      assert [s[0]] + s[1..] == s;
    }
  }

  /** An ampersand, a name, and a semicolon that occurs nowhere earlier. */
  predicate IsEntity(t: string) {
    |t| >= 2 && t[0] == '&' && t[|t| - 1] == ';' && ';' !in t[..|t| - 1] && '&' !in t[1..]
  }

  lemma EntitiesDiffer(t: string, pattern: string, rest: string)
    requires IsEntity(t) && IsEntity(pattern) && pattern <= t + rest
    ensures t == pattern
  {
    var m, n := |t| - 1, |pattern| - 1;
    assert forall i :: 0 <= i <= n ==> (t + rest)[i] == pattern[i];
    assert forall i :: 0 <= i < n ==> pattern[i] in pattern[..n];
    assert forall i :: 0 <= i < m ==> t[i] in t[..m];
    assert (t + rest)[m] == ';' && (t + rest)[n] == ';';
    assert t == (t + rest)[..|t|];
  }

  lemma {:induction false} SkipPlain(u: string, rest: string, pattern: string, to: string)
    requires '&' !in u && IsEntity(pattern)
    ensures Replace(u + rest, pattern, to) == u + Replace(rest, pattern, to)
    decreases |u|
  {
    if u == [] {
      assert u + rest == rest;
    } else {
      assert (u + rest)[0] == u[0] && u[0] in u;
      assert (u + rest)[1..] == u[1..] + rest;
      SkipPlain(u[1..], rest, pattern, to);
      assert [u[0]] + u[1..] == u;
    }
  }

  /** One token at the front: only the entity looked for is replaced. */
  lemma ReplaceToken(t: string, rest: string, pattern: string, to: string)
    requires IsEntity(pattern) && (IsEntity(t) || '&' !in t)
    ensures Replace(t + rest, pattern, to) == (if t == pattern then to else t) + Replace(rest, pattern, to)
  {
    if '&' !in t {
      SkipPlain(t, rest, pattern, to);
    } else if t == pattern {
      assert (t + rest)[|pattern|..] == rest;
    } else {
      if pattern <= t + rest {
        EntitiesDiffer(t, pattern, rest);
      }
      assert (t + rest)[1..] == t[1..] + rest;
      SkipPlain(t[1..], rest, pattern, to);
      assert [t[0]] + t[1..] == t;
    }
  }

  lemma TokenShape(stage: nat, c: char)
    requires stage < 5
    ensures IsEntity(Token(stage, c)) || '&' !in Token(stage, c)
  {
    assert IsEntity("&amp;") && IsEntity("&lt;") && IsEntity("&gt;") && IsEntity("&quot;") && IsEntity("&apos;");
  }

  /** At a stage exactly one entity stands for the character of that rank, and it is turned back. */
  lemma NextToken(stage: nat, d: char, c: char)
    requires stage < 5 && Rank(c) == stage
    ensures IsEntity(EscapedChar(c)) && Token(stage, c) == EscapedChar(c)
    ensures Token(stage + 1, d) == if Token(stage, d) == EscapedChar(c) then [c] else Token(stage, d)
  {
    assert IsEntity("&amp;") && IsEntity("&lt;") && IsEntity("&gt;") && IsEntity("&quot;") && IsEntity("&apos;");
  }

  /** The replacement at one stage of unescaping takes the tokens of that stage to those of the next. */
  lemma {:induction false} UnescapeStage(stage: nat, s: string, c: char)
    requires stage < 5 && Rank(c) == stage
    ensures Replace(Tokens(stage, s), EscapedChar(c), [c]) == Tokens(stage + 1, s)
  {
    if s != [] {
      UnescapeStage(stage, s[1..], c);
      TokenShape(stage, s[0]);
      TokenShape(stage, c);
      NextToken(stage, s[0], c);
      hide Replace, Token, EscapedChar, Rank, IsEntity;
      ReplaceToken(Token(stage, s[0]), Tokens(stage, s[1..]), EscapedChar(c), [c]);
    }
  }

  /** Unescaping undoes escaping, for every string. */
  lemma EscapeReadsBack(s: string)
    ensures Unescape(Escape(s)) == s
  {
    EscapeIsTokens(s);
    UnescapeStage(0, s, '"');
    UnescapeStage(1, s, '\'');
    UnescapeStage(2, s, '<');
    UnescapeStage(3, s, '>');
    UnescapeStage(4, s, '&');
    LastTokens(s);
  }

  // ----- what escaped text looks like

  lemma EscapeFirst(s: string)
    requires s != []
    ensures Escape(s) == EscapedChar(s[0]) + Escape(s[1..])
  {
    EscapeDistributes([s[0]], s[1..]);
    assert [s[0]] + s[1..] == s;
    EscapeOne(s[0]);
  }

  lemma EscapeLast(s: string)
    requires s != []
    ensures Escape(s) == Escape(s[..|s| - 1]) + EscapedChar(s[|s| - 1])
  {
    EscapeDistributes(s[..|s| - 1], [s[|s| - 1]]);
    assert s[..|s| - 1] + [s[|s| - 1]] == s;
    EscapeOne(s[|s| - 1]);
  }

  lemma EscapeEmpty()
    ensures Escape("") == ""
  {
  }

  lemma EscapedCharShape(c: char)
    ensures var e := EscapedChar(c);
      && e != [] && '<' !in e
      && (if IsWhitespace(c) then e == [c] else !IsWhitespace(e[0]) && !IsWhitespace(e[|e| - 1]))
  {
  }

  lemma {:induction false} EscapedHasNoMarkup(s: string)
    ensures '<' !in Escape(s)
  {
    hide Escape, EscapedChar;
    if s == [] {
      EscapeEmpty();
    } else {
      EscapeFirst(s);
      EscapedCharShape(s[0]);
      EscapedHasNoMarkup(s[1..]);
    }
  }

  lemma {:induction false} EscapeTrimsStart(s: string)
    ensures TrimStart(Escape(s)) == Escape(TrimStart(s))
  {
    hide Escape, EscapedChar, IsWhitespace;
    if s == [] {
      EscapeEmpty();
    } else {
      EscapeFirst(s);
      EscapedCharShape(s[0]);
      if IsWhitespace(s[0]) {
        assert Escape(s)[1..] == Escape(s[1..]);
        EscapeTrimsStart(s[1..]);
      }
    }
  }

  lemma {:induction false} EscapeTrimsEnd(s: string)
    ensures TrimEnd(Escape(s)) == Escape(TrimEnd(s))
  {
    hide Escape, EscapedChar, IsWhitespace;
    if s == [] {
      EscapeEmpty();
    } else {
      var n, e := |s| - 1, Escape(s);
      EscapeLast(s);
      EscapedCharShape(s[n]);
      assert e[|e| - 1] == EscapedChar(s[n])[|EscapedChar(s[n])| - 1];
      if IsWhitespace(s[n]) {
        assert e[..|e| - 1] == Escape(s[..n]);
        EscapeTrimsEnd(s[..n]);
      }
    }
  }

  /** Trimming escaped text trims the text. */
  lemma EscapeTrims(s: string)
    ensures Unescape(Trim(Escape(s))) == Trim(s)
  {
    EscapeTrimsStart(s);
    EscapeTrimsEnd(TrimStart(s));
    EscapeReadsBack(Trim(s));
  }
}
