/**
 * The SQL `LIKE` comparison the job listing relies on (backend/server.js,
 * the filtered `GET /api/jobs`): `%` matches any run of characters, `_`
 * any single character, and a backslash makes the next character literal.
 * Characters are compared exactly.
 */
module SqlLike {

  /** `text LIKE pattern`. */
  predicate Like(pattern: string, text: string)
    decreases |pattern| + |text|
  {
    if pattern == [] then text == []
    else if pattern[0] == '%' then
      Like(pattern[1..], text) || (text != [] && Like(pattern, text[1..]))
    else if pattern[0] == '_' then
      text != [] && Like(pattern[1..], text[1..])
    else if pattern[0] == '\\' && |pattern| > 1 then
      text != [] && text[0] == pattern[1] && Like(pattern[2..], text[1..])
    else
      text != [] && text[0] == pattern[0] && Like(pattern[1..], text[1..])
  }

  /** A character `LIKE` treats specially. */
  predicate IsWildcard(c: char) {
    c == '%' || c == '_' || c == '\\'
  }

  /** A string with no character that `LIKE` treats specially. */
  predicate Plain(s: string) {
    forall i :: 0 <= i < |s| ==> !IsWildcard(s[i])
  }

  predicate IsPrefix(s: string, t: string) {
    |s| <= |t| && t[..|s|] == s
  }

  /** `s` occurs in `t` at some position. */
  predicate Contains(t: string, s: string) {
    exists i :: 0 <= i <= |t| && IsPrefix(s, t[i..])
  }

  /** The pattern the listing builds from a filter: `'%' + filter + '%'`. */
  function InfixPattern(filter: string): string {
    "%" + filter + "%"
  }

  lemma {:induction false} PercentMatchesAll(text: string)
    ensures Like("%", text)
    decreases |text|
  {
    assert "%"[1..] == [];
    if text != [] {
      PercentMatchesAll(text[1..]);
    }
  }

  /** For a plain `s`, `s + '%'` matches exactly the texts that start with `s`. */
  lemma {:induction false} PrefixPattern(s: string, text: string)
    requires Plain(s)
    ensures Like(s + "%", text) <==> IsPrefix(s, text)
    decreases |s|
  {
    if s == [] {
      assert s + "%" == "%";
      PercentMatchesAll(text);
    } else {
      var p := s + "%";
      assert p[0] == s[0] && !IsWildcard(s[0]);
      assert p[1..] == s[1..] + "%";
      assert Plain(s[1..]) by {
        forall i | 0 <= i < |s[1..]| ensures !IsWildcard(s[1..][i]) {
          assert s[1..][i] == s[i + 1];
        }
      }
      if text != [] {
        PrefixPattern(s[1..], text[1..]);
        if IsPrefix(s, text) {
          assert text[1..][..|s[1..]|] == text[..|s|][1..];
        }
        if IsPrefix(s[1..], text[1..]) && text[0] == s[0] {
          assert text[..|s|] == [text[0]] + text[1..][..|s[1..]|];
        }
      }
    }
  }

  /** A leading `%` lets the rest of the pattern match at any suffix of the text. */
  lemma {:induction false} LeadingPercent(q: string, text: string)
    ensures Like("%" + q, text) <==> exists i :: 0 <= i <= |text| && Like(q, text[i..])
    decreases |text|
  {
    var p := "%" + q;
    assert p[0] == '%' && p[1..] == q;
    if text == [] {
      assert text[0..] == text;
    } else {
      LeadingPercent(q, text[1..]);
      assert text[0..] == text;
      if exists i :: 0 <= i <= |text| && Like(q, text[i..]) {
        var i :| 0 <= i <= |text| && Like(q, text[i..]);
        if i > 0 {
          assert text[1..][i - 1..] == text[i..];
        }
      }
      if exists i :: 0 <= i <= |text[1..]| && Like(q, text[1..][i..]) {
        var i :| 0 <= i <= |text[1..]| && Like(q, text[1..][i..]);
        assert text[1..][i..] == text[i + 1..];
      }
    }
  }

  /** A plain filter `f` keeps exactly the texts that contain `f`. */
  lemma {:induction false} InfixPatternIsContains(f: string, text: string)
    requires Plain(f)
    ensures Like(InfixPattern(f), text) <==> Contains(text, f)
  {
    assert InfixPattern(f) == "%" + (f + "%");
    LeadingPercent(f + "%", text);
    forall i | 0 <= i <= |text| ensures Like(f + "%", text[i..]) <==> IsPrefix(f, text[i..]) {
      PrefixPattern(f, text[i..]);
    }
  }

  /** An underscore in a filter is not literal: "_" keeps every non-empty text. */
  lemma UnderscoreFilterMatchesAnyCharacter(text: string)
    requires text != []
    ensures Like(InfixPattern("_"), text)
  {
    var p := InfixPattern("_");
    assert p == "%_%";
    assert p[1..] == "_%" && p[1..][1..] == "%";
    PercentMatchesAll(text[1..]);
  }
}
