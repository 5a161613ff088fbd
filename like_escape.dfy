/** Escaping a value for use inside an SQL `LIKE` pattern with `\` as the
    escape character: `\`, `%` and `_` each gain a leading backslash. */
module LikeEscape {

  /** `s.replace(c, rep)` for a one-character needle: every occurrence of
      `c` becomes `rep`, all other characters are kept in order. */
  function ReplaceChar(s: string, c: char, rep: string): (r: string)
    ensures c !in s ==> r == s
  {
    if s == [] then [] else (if s[0] == c then rep else [s[0]]) + ReplaceChar(s[1..], c, rep)
  }

  lemma {:induction false} ReplaceCharConcat(a: string, b: string, c: char, rep: string)
    ensures ReplaceChar(a + b, c, rep) == ReplaceChar(a, c, rep) + ReplaceChar(b, c, rep)
  {
    if a == [] {
      assert a + b == b;
    } else {
      assert (a + b)[1..] == a[1..] + b;
      ReplaceCharConcat(a[1..], b, c, rep);
    }
  }

  /** `_escape_like_pattern(value)`: backslashes first, then `%`, then `_`. */
  function EscapeLike(value: string): string {
    ReplaceChar(ReplaceChar(ReplaceChar(value, '\\', "\\\\"), '%', "\\%"), '_', "\\_")
  }

  predicate IsSpecial(c: char) {
    c == '\\' || c == '%' || c == '_'
  }

  /** What one character of the input becomes. */
  function EscapeChar(c: char): (r: string)
    ensures IsSpecial(c) ==> r == ['\\', c]
    ensures !IsSpecial(c) ==> r == [c]
  {
    if IsSpecial(c) then ['\\', c] else [c]
  }

  /** The escaping as intended, character by character. */
  function Escaped(s: string): string {
    if s == [] then [] else EscapeChar(s[0]) + Escaped(s[1..])
  }

  /** Because backslashes are escaped first, the backslashes the later
      steps introduce are not doubled again: the three replacements escape
      each character of the input on its own. */
  lemma {:induction false} EscapeLikeIsPerChar(s: string)
    ensures EscapeLike(s) == Escaped(s)
  {
    if s != [] {
      var c := s[0];
      assert s == [c] + s[1..];
      EscapeLikeIsPerChar(s[1..]);
      var r1 := ReplaceChar([c], '\\', "\\\\");
      ReplaceCharConcat([c], s[1..], '\\', "\\\\");
      var t1 := ReplaceChar(s[1..], '\\', "\\\\");
      var r2 := ReplaceChar(r1, '%', "\\%");
      ReplaceCharConcat(r1, t1, '%', "\\%");
      var t2 := ReplaceChar(t1, '%', "\\%");
      ReplaceCharConcat(r2, t2, '_', "\\_");
      assert ReplaceChar(ReplaceChar(r1, '%', "\\%"), '_', "\\_") == EscapeChar(c) by {
        if c == '\\' {
          assert r1 == "\\\\";
          assert r1 == ['\\'] + ['\\'];
          ReplaceCharConcat(['\\'], ['\\'], '%', "\\%");
        } else if c == '%' {
          assert r1 == [c];
          assert r2 == ['\\'] + ['%'];
          ReplaceCharConcat(['\\'], ['%'], '_', "\\_");
        } else if c == '_' {
          assert r1 == [c];
          assert r2 == [c];
        } else {
          assert r1 == [c];
          assert r2 == [c];
        }
      }
    }
  }

  /** Strings without `\`, `%` or `_` are returned unchanged. */
  lemma EscapeLikeIdentity(s: string)
    requires forall i :: 0 <= i < |s| ==> !IsSpecial(s[i])
    ensures EscapeLike(s) == s
  {
    assert '\\' !in s && '%' !in s && '_' !in s;
  }

  /** The number of `\`, `%` and `_` characters in `s`. */
  function SpecialCount(s: string): nat {
    if s == [] then 0 else (if IsSpecial(s[0]) then 1 else 0) + SpecialCount(s[1..])
  }

  /** Each special character gains exactly one backslash. */
  lemma {:induction false} EscapeLikeLength(s: string)
    ensures |EscapeLike(s)| == |s| + SpecialCount(s)
  {
    EscapeLikeIsPerChar(s);
    EscapedLength(s);
  }

  lemma {:induction false} EscapedLength(s: string)
    ensures |Escaped(s)| == |s| + SpecialCount(s)
  {
    if s != [] {
      EscapedLength(s[1..]);
    }
  }

  /** Reading a pattern back: a backslash takes the next character
      literally. */
  function Unescape(p: string): string
    decreases |p|
  {
    if p == [] then []
    else if p[0] == '\\' && |p| >= 2 then [p[1]] + Unescape(p[2..])
    else [p[0]] + Unescape(p[1..])
  }

  /** Escaping loses nothing: the pattern reads back as the value. */
  lemma {:induction false} UnescapeEscapeLike(s: string)
    ensures Unescape(EscapeLike(s)) == s
  {
    EscapeLikeIsPerChar(s);
    UnescapeEscaped(s);
  }

  lemma {:induction false} UnescapeEscaped(s: string)
    ensures Unescape(Escaped(s)) == s
  {
    if s != [] {
      var c := s[0];
      var rest := Escaped(s[1..]);
      UnescapeEscaped(s[1..]);
      if IsSpecial(c) {
        var p := ['\\', c] + rest;
        assert p[2..] == rest;
      } else {
        var p := [c] + rest;
        assert p[1..] == rest;
      }
      assert s == [c] + s[1..];
    }
  }
}
