/** SQLite's `LIKE` operator with its default settings: `%` matches any run of
    characters, `_` matches exactly one, every other pattern character matches
    itself ignoring the case of ASCII letters, and there is no escape
    character. */
module Sqlite {

  /** Lower-case for ASCII letters; every other character is its own fold. */
  function FoldAscii(c: char): char {
    if 'A' <= c <= 'Z' then (c as int + 32) as char else c
  }

  /** `text LIKE pattern`. */
  predicate Like(pattern: string, text: string)
    decreases |pattern| + |text|
  {
    if pattern == [] then text == []
    else if pattern[0] == '%' then
      Like(pattern[1..], text) || (text != [] && Like(pattern, text[1..]))
    else
      text != [] && (pattern[0] == '_' || FoldAscii(pattern[0]) == FoldAscii(text[0]))
      && Like(pattern[1..], text[1..])
  }

  predicate NoWildcards(q: string) {
    '%' !in q && '_' !in q
  }

  /** `t` starts with `q`, ignoring the case of ASCII letters. */
  predicate FoldedPrefix(q: string, t: string) {
    |q| <= |t| && forall i :: 0 <= i < |q| ==> FoldAscii(q[i]) == FoldAscii(t[i])
  }

  /** `s` contains `q` somewhere, ignoring the case of ASCII letters. */
  predicate ContainsFolded(s: string, q: string) {
    exists k :: 0 <= k <= |s| && FoldedPrefix(q, s[k..])
  }

  lemma {:induction false} PercentMatchesAll(t: string)
    ensures Like("%", t)
    decreases |t|
  {
    assert "%"[1..] == [];
    if t != [] {
      PercentMatchesAll(t[1..]);
    }
  }

  lemma {:induction false} PrefixThenPercent(q: string, t: string)
    requires NoWildcards(q)
    ensures Like(q + "%", t) <==> FoldedPrefix(q, t)
    decreases |q|
  {
    if q == [] {
      assert q + "%" == "%";
      PercentMatchesAll(t);
    } else {
      var p := q + "%";
      assert p[0] == q[0] && p[1..] == q[1..] + "%";
      if t != [] {
        PrefixThenPercent(q[1..], t[1..]);
        if FoldedPrefix(q[1..], t[1..]) && FoldAscii(q[0]) == FoldAscii(t[0]) {
          assert forall i :: 0 <= i < |q| ==> FoldAscii(q[i]) == FoldAscii(t[i]) by {
            forall i | 0 <= i < |q| ensures FoldAscii(q[i]) == FoldAscii(t[i]) {
              if i > 0 { assert q[i] == q[1..][i - 1] && t[i] == t[1..][i - 1]; }
            }
          }
        }
        if FoldedPrefix(q, t) {
          assert forall i :: 0 <= i < |q| - 1 ==> FoldAscii(q[1..][i]) == FoldAscii(t[1..][i]) by {
            forall i | 0 <= i < |q| - 1 ensures FoldAscii(q[1..][i]) == FoldAscii(t[1..][i]) {
              assert q[1..][i] == q[i + 1] && t[1..][i] == t[i + 1];
            }
          }
        }
      }
    }
  }

  lemma {:induction false} PercentThen(r: string, s: string)
    ensures Like("%" + r, s) <==> exists k :: 0 <= k <= |s| && Like(r, s[k..])
    decreases |s|
  {
    var p := "%" + r;
    assert p[0] == '%' && p[1..] == r;
    assert s[0..] == s;
    if s != [] {
      PercentThen(r, s[1..]);
      if Like(p, s[1..]) {
        var k :| 0 <= k <= |s[1..]| && Like(r, s[1..][k..]);
        assert s[1..][k..] == s[k + 1..];
      }
      if exists k :: 0 <= k <= |s| && Like(r, s[k..]) {
        var k :| 0 <= k <= |s| && Like(r, s[k..]);
        if k > 0 {
          assert s[1..][k - 1..] == s[k..];
        }
      }
    }
  }

  /** The pattern `'%' + q + '%'` of a search for `q` without wildcards matches
      exactly the texts that contain `q`, ignoring ASCII case. */
  lemma SearchPatternMatches(q: string, s: string)
    requires NoWildcards(q)
    ensures Like("%" + q + "%", s) <==> ContainsFolded(s, q)
  {
    assert "%" + q + "%" == "%" + (q + "%");
    PercentThen(q + "%", s);
    forall k | 0 <= k <= |s| ensures Like(q + "%", s[k..]) <==> FoldedPrefix(q, s[k..]) {
      PrefixThenPercent(q, s[k..]);
    }
  }

  /** An unescaped `_` in a search term is a wildcard: searching for `"_"`
      matches every non-empty text, whatever its characters. */
  lemma UnderscoreSearchMatchesAnyText(s: string)
    ensures Like("%_%", s) <==> s != []
  {
    assert "%_%" == "%" + "_%";
    PercentThen("_%", s);
    if s != [] {
      assert "_%"[1..] == "%";
      PercentMatchesAll(s[1..]);
      assert Like("_%", s[0..]);
    }
  }
}
