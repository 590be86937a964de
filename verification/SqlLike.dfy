/**
 Escaping a keyword for a LIKE pattern: the chained replacements, LIKE matching with a backslash as the
 escape character (section 8.5 of ISO/IEC 9075-2), and what an escaped keyword matches.
 */
module SqlLike {
  import opened Sequences

  const ESCAPE := '\\'

  /** `str.replace` for a single character: every occurrence gives way to `into`. */
  function Replace(s: string, c: char, into: string): string {
    if s == "" then "" else (if s[0] == c then into else [s[0]]) + Replace(s[1..], c, into)
  }

  /** The three replacements in the order the code makes them. */
  function EscapeLike(keyword: string): string {
    Replace(Replace(Replace(keyword, ESCAPE, [ESCAPE, ESCAPE]), '%', [ESCAPE, '%']), '_', [ESCAPE, '_'])
  }

  predicate Special(c: char) {
    c == ESCAPE || c == '%' || c == '_'
  }

  function EscapeChar(c: char): string {
    if Special(c) then [ESCAPE, c] else [c]
  }

  function EscapeEach(s: string): string {
    if s == "" then "" else EscapeChar(s[0]) + EscapeEach(s[1..])
  }

  /**
   Whether a string matches a pattern: `%` stands for any characters, `_` for one, and the escape
   character makes the special character after it stand for itself.  A pattern in which something
   else, or nothing, follows the escape character is not valid and matches nothing.
   */
  predicate Matches(s: string, pattern: string)
    decreases |s| + |pattern|
  {
    if pattern == "" then s == ""
    else if pattern[0] == '%' then
      Matches(s, pattern[1..]) || (s != "" && Matches(s[1..], pattern))
    else if pattern[0] == '_' then
      s != "" && Matches(s[1..], pattern[1..])
    else if pattern[0] == ESCAPE then
      |pattern| > 1 && Special(pattern[1]) && s != "" && s[0] == pattern[1] && Matches(s[1..], pattern[2..])
    else
      s != "" && s[0] == pattern[0] && Matches(s[1..], pattern[1..])
  }

  lemma {:induction false} ReplaceConcat(a: string, b: string, c: char, into: string)
    ensures Replace(a + b, c, into) == Replace(a, c, into) + Replace(b, c, into)
  {
    if a == "" {
      assert a + b == b;
    } else {
      var first := if a[0] == c then into else [a[0]];
      ReplaceConcat(a[1..], b, c, into);
      assert (a + b)[1..] == a[1..] + b;
      assert Replace(a + b, c, into) == first + (Replace(a[1..], c, into) + Replace(b, c, into));
    }
  }

  /** What the three replacements make of one character. */
  lemma EscapeOne(c: char)
    ensures EscapeLike([c]) == EscapeChar(c)
  {
    ReplaceOne(c, ESCAPE, [ESCAPE, ESCAPE]);
    ReplaceTwo(ESCAPE, ESCAPE, '%', [ESCAPE, '%']);
    ReplaceOne(c, '%', [ESCAPE, '%']);
    ReplaceTwo(ESCAPE, ESCAPE, '_', [ESCAPE, '_']);
    ReplaceTwo(ESCAPE, '%', '_', [ESCAPE, '_']);
    ReplaceOne(c, '_', [ESCAPE, '_']);
  }

  lemma ReplaceOne(x: char, c: char, into: string)
    ensures Replace([x], c, into) == if x == c then into else [x]
  {
    assert [x][1..] == "";
  }

  lemma ReplaceTwo(x: char, y: char, c: char, into: string)
    ensures Replace([x, y], c, into) == (if x == c then into else [x]) + (if y == c then into else [y])
  {
    assert [x, y][1..] == [y];
    ReplaceOne(y, c, into);
  }

  lemma EscapeConcat(a: string, b: string)
    ensures EscapeLike(a + b) == EscapeLike(a) + EscapeLike(b)
  {
    ReplaceConcat(a, b, ESCAPE, [ESCAPE, ESCAPE]);
    var a1, b1 := Replace(a, ESCAPE, [ESCAPE, ESCAPE]), Replace(b, ESCAPE, [ESCAPE, ESCAPE]);
    ReplaceConcat(a1, b1, '%', [ESCAPE, '%']);
    ReplaceConcat(Replace(a1, '%', [ESCAPE, '%']), Replace(b1, '%', [ESCAPE, '%']), '_', [ESCAPE, '_']);
  }

  /** Replacing three times over the whole keyword escapes each character once. */
  lemma {:induction false} EscapeIsPerCharacter(s: string)
    ensures EscapeLike(s) == EscapeEach(s)
  {
    if s == "" {
    } else {
      assert s == [s[0]] + s[1..];
      EscapeConcat([s[0]], s[1..]);
      EscapeOne(s[0]);
      EscapeIsPerCharacter(s[1..]);
    }
  }

  /** Matching an escaped prefix eats exactly that prefix. */
  lemma {:induction false} EscapedPrefix(s: string, keyword: string, rest: string)
    ensures Matches(s, EscapeEach(keyword) + rest) <==> keyword <= s && Matches(s[|keyword|..], rest)
  {
    var pattern := EscapeEach(keyword) + rest;
    if keyword == "" {
      assert pattern == rest;
    } else {
      var c, tail := keyword[0], EscapeEach(keyword[1..]) + rest;
      assert pattern == EscapeChar(c) + tail;
      assert pattern[|EscapeChar(c)|..] == tail;
      if s != "" && s[0] == c {
        EscapedPrefix(s[1..], keyword[1..], rest);
        assert keyword <= s <==> keyword[1..] <= s[1..] by {
          assert keyword == [c] + keyword[1..] && s == [c] + s[1..];
        }
        if keyword <= s { assert s[1..][|keyword[1..]|..] == s[|keyword|..]; }
      }
    }
  }

  /** An escaped keyword matches the keyword and nothing else. */
  lemma EscapedMatchesItself(s: string, keyword: string)
    ensures Matches(s, EscapeLike(keyword)) <==> s == keyword
  {
    EscapeIsPerCharacter(keyword);
    assert EscapeLike(keyword) + "" == EscapeLike(keyword);
    EscapedPrefix(s, keyword, "");
  }

  ghost predicate Contains(s: string, keyword: string) {
    exists i :: OccursAt(s, keyword, i)
  }

  lemma {:induction false} PercentMatchesAll(s: string)
    ensures Matches(s, "%")
  {
    if s == "" {
    } else {
      PercentMatchesAll(s[1..]);
    }
  }

  lemma OccursInTail(s: string, keyword: string)
    requires s != ""
    ensures Contains(s, keyword) <==> keyword <= s || Contains(s[1..], keyword)
  {
    if keyword <= s {
      assert OccursAt(s, keyword, 0);
    }
    if Contains(s[1..], keyword) {
      var i :| OccursAt(s[1..], keyword, i);
      assert OccursAt(s, keyword, i + 1);
    }
    if Contains(s, keyword) {
      var i :| OccursAt(s, keyword, i);
      if i > 0 { assert OccursAt(s[1..], keyword, i - 1); }
    }
  }

  /** Between two percent signs it matches exactly the strings that contain the keyword. */
  lemma {:induction false} EscapedMatchesContaining(s: string, keyword: string)
    ensures Matches(s, "%" + EscapeLike(keyword) + "%") <==> Contains(s, keyword)
  {
    EscapeIsPerCharacter(keyword);
    var pattern := "%" + EscapeLike(keyword) + "%";
    assert pattern[1..] == EscapeEach(keyword) + "%";
    EscapedPrefix(s, keyword, "%");
    if keyword <= s { PercentMatchesAll(s[|keyword|..]); }
    if s != "" {
      EscapedMatchesContaining(s[1..], keyword);
      OccursInTail(s, keyword);
    } else if keyword == "" {
      assert OccursAt(s, keyword, 0);
    }
  }

  /** Escaping loses nothing: different keywords have different patterns. */
  lemma EscapeIsInjective(a: string, b: string)
    requires EscapeLike(a) == EscapeLike(b)
    ensures a == b
  {
    EscapedMatchesItself(a, a);
    EscapedMatchesItself(a, b);
  }
}
