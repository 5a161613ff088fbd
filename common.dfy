/** Option values and the small string vocabulary (case mapping, affixes,
    whitespace stripping, integer and decimal parsing) that the Python code
    gets from `str` and the `int()`/`float()` built-ins. */
module Common {

  datatype Option<+T> = None | Some(value: T) {
    function GetOr(default: T): T {
      match this
      case Some(v) => v
      case None => default
    }
  }

  /** The outcome of a call that may raise: `Err` carries the exception text. */
  datatype Result<+T> = Ok(value: T) | Err(error: string)

  function OptionToSeq<T>(o: Option<T>): seq<T> {
    match o
    case Some(x) => [x]
    case None => []
  }

  /** A loop that appends `f(x)` for every `x` of `xs` whose outcome is
      `Some`, in order. */
  function Collect<S, T>(f: S -> Option<T>, xs: seq<S>): (r: seq<T>)
    ensures |r| <= |xs|
  {
    if xs == [] then [] else Collect(f, xs[..|xs| - 1]) + OptionToSeq(f(xs[|xs| - 1]))
  }

  /** One more step of the loop. */
  lemma CollectSnoc<S, T>(f: S -> Option<T>, xs: seq<S>, k: nat)
    requires k < |xs|
    ensures Collect(f, xs[..k + 1]) == Collect(f, xs[..k]) + OptionToSeq(f(xs[k]))
  {
    assert xs[..k + 1][..k] == xs[..k];
  }

  /** The loop keeps exactly the `Some` outcomes of its inputs. */
  lemma {:induction false} CollectMembers<S, T>(f: S -> Option<T>, xs: seq<S>, y: T)
    ensures y in Collect(f, xs) <==> exists k :: 0 <= k < |xs| && f(xs[k]) == Some(y)
  {
    if xs != [] {
      var n := |xs| - 1;
      CollectMembers(f, xs[..n], y);
      if y in Collect(f, xs[..n]) {
        var k :| 0 <= k < n && f(xs[..n][k]) == Some(y);
        assert xs[..n][k] == xs[k];
      } else if y in OptionToSeq(f(xs[n])) {
        assert f(xs[n]) == Some(y);
      }
      if exists k :: 0 <= k < |xs| && f(xs[k]) == Some(y) {
        var k :| 0 <= k < |xs| && f(xs[k]) == Some(y);
        if k < n {
          assert xs[..n][k] == xs[k];
        }
      }
    }
  }

  /** A loop that stores `f(x)` under `key(x)` for every `x` of `xs` whose
      outcome is `Some`; a later entry for the same key replaces an earlier
      one. */
  function CollectMap<S, K, V>(key: S -> K, f: S -> Option<V>, xs: seq<S>): map<K, V> {
    if xs == [] then map[]
    else
      var m := CollectMap(key, f, xs[..|xs| - 1]);
      var x := xs[|xs| - 1];
      match f(x)
      case Some(v) => m[key(x) := v]
      case None => m
  }

  lemma CollectMapSnoc<S, K, V>(key: S -> K, f: S -> Option<V>, xs: seq<S>, i: nat)
    requires i < |xs|
    ensures CollectMap(key, f, xs[..i + 1]) ==
      match f(xs[i])
      case Some(v) => CollectMap(key, f, xs[..i])[key(xs[i]) := v]
      case None => CollectMap(key, f, xs[..i])
  {
    assert xs[..i + 1][..i] == xs[..i];
  }

  /** A key is present exactly when some input with that key had an
      outcome, and its value is an outcome of such an input. */
  lemma {:induction false} CollectMapAt<S, K, V>(key: S -> K, f: S -> Option<V>, xs: seq<S>, u: K)
    ensures u in CollectMap(key, f, xs) <==>
              exists k :: 0 <= k < |xs| && key(xs[k]) == u && f(xs[k]).Some?
    ensures u in CollectMap(key, f, xs) ==>
              exists k :: 0 <= k < |xs| && key(xs[k]) == u && f(xs[k]) == Some(CollectMap(key, f, xs)[u])
  {
    if xs != [] {
      var n := |xs| - 1;
      var init := xs[..n];
      CollectMapAt(key, f, init, u);
      var m := CollectMap(key, f, init);
      if f(xs[n]).Some? && key(xs[n]) == u {
        assert CollectMap(key, f, xs)[u] == f(xs[n]).value;
      } else if u in m {
        var k :| 0 <= k < n && key(init[k]) == u && f(init[k]) == Some(m[u]);
        assert init[k] == xs[k];
      }
      if exists k :: 0 <= k < |xs| && key(xs[k]) == u && f(xs[k]).Some? {
        var k :| 0 <= k < |xs| && key(xs[k]) == u && f(xs[k]).Some?;
        if k < n {
          assert init[k] == xs[k];
        }
      }
    }
  }

  // ---------------------------------------------------------------------
  // Queries over a table held as a sequence of rows
  // ---------------------------------------------------------------------

  /** The rows satisfying `p`, in table order (`filter_by(...).all()`). */
  function Filter<T>(p: T -> bool, xs: seq<T>): (r: seq<T>)
    ensures |r| <= |xs|
    ensures forall i :: 0 <= i < |r| ==> p(r[i])
  {
    if xs == [] then []
    else if p(xs[0]) then [xs[0]] + Filter(p, xs[1..])
    else Filter(p, xs[1..])
  }

  /** The first `i` of the first `i + 1`. */
  lemma PrefixStep<T>(s: seq<T>, i: nat)
    requires i < |s|
    ensures s[..i + 1][..i] == s[..i]
    ensures s[..i + 1] == s[..i] + [s[i]]
  {
  }

  lemma {:induction false} FilterMembers<T>(p: T -> bool, xs: seq<T>, x: T)
    ensures x in Filter(p, xs) <==> x in xs && p(x)
  {
    if xs != [] {
      FilterMembers(p, xs[1..], x);
      assert xs == [xs[0]] + xs[1..];
    }
  }

  /** Every row satisfies `p` or its negation `q`, never both: the two
      filters split the table. */
  lemma {:induction false} FilterSplit<T>(p: T -> bool, q: T -> bool, xs: seq<T>)
    requires forall x :: q(x) <==> !p(x)
    ensures |Filter(p, xs)| + |Filter(q, xs)| == |xs|
  {
    if xs != [] {
      FilterSplit(p, q, xs[1..]);
    }
  }

  /** A filter that keeps every row is the identity. */
  lemma {:induction false} FilterAll<T>(p: T -> bool, xs: seq<T>)
    requires forall i :: 0 <= i < |xs| ==> p(xs[i])
    ensures Filter(p, xs) == xs
  {
    if xs != [] {
      FilterAll(p, xs[1..]);
      assert xs == [xs[0]] + xs[1..];
    }
  }

  /** Filtering one more row. */
  lemma {:induction false} FilterSnoc<T>(p: T -> bool, xs: seq<T>, x: T)
    ensures Filter(p, xs + [x]) == Filter(p, xs) + (if p(x) then [x] else [])
  {
    if xs == [] {
      assert [x][1..] == [];
    } else {
      FilterSnoc(p, xs[1..], x);
      assert (xs + [x])[0] == xs[0];
      assert (xs + [x])[1..] == xs[1..] + [x];
    }
  }

  /** Filtering distributes over concatenation. */
  lemma {:induction false} FilterConcat<T>(p: T -> bool, xs: seq<T>, ys: seq<T>)
    ensures Filter(p, xs + ys) == Filter(p, xs) + Filter(p, ys)
  {
    if xs == [] {
      assert xs + ys == ys;
    } else {
      FilterConcat(p, xs[1..], ys);
      assert (xs + ys)[0] == xs[0];
      assert (xs + ys)[1..] == xs[1..] + ys;
    }
  }

  /** The filter is empty exactly when no row satisfies `p`. */
  lemma {:induction false} FilterEmpty<T>(p: T -> bool, xs: seq<T>)
    ensures Filter(p, xs) == [] <==> forall i :: 0 <= i < |xs| ==> !p(xs[i])
  {
    if xs != [] {
      FilterEmpty(p, xs[1..]);
      assert forall i :: 1 <= i < |xs| ==> xs[i] == xs[1..][i - 1];
    }
  }

  /** A weaker predicate keeps at least as many rows. */
  lemma {:induction false} FilterWeaker<T>(p: T -> bool, q: T -> bool, xs: seq<T>)
    requires forall i :: 0 <= i < |xs| && p(xs[i]) ==> q(xs[i])
    ensures |Filter(p, xs)| <= |Filter(q, xs)|
  {
    if xs != [] {
      FilterWeaker(p, q, xs[1..]);
    }
  }

  /** The position of the first row satisfying `p` (`filter_by(...).first()`). */
  function FirstIndex<T>(p: T -> bool, xs: seq<T>): (r: Option<nat>)
    ensures r.Some? ==> r.value < |xs| && p(xs[r.value])
    ensures r.Some? ==> forall j :: 0 <= j < r.value ==> !p(xs[j])
    ensures r.None? <==> forall j :: 0 <= j < |xs| ==> !p(xs[j])
  {
    if xs == [] then None
    else if p(xs[0]) then Some(0)
    else match FirstIndex(p, xs[1..])
      case Some(k) => Some(k + 1)
      case None => None
  }

  /** The first `n` rows (`.limit(n)`). */
  function Take<T>(xs: seq<T>, n: nat): (r: seq<T>)
    ensures |r| <= n && |r| <= |xs|
    ensures |r| == |xs| || |r| == n
    ensures r == xs[..|r|]
  {
    if n >= |xs| then xs else xs[..n]
  }

  /** The table without the row at `i`. */
  function RemoveAt<T>(xs: seq<T>, i: nat): (r: seq<T>)
    requires i < |xs|
    ensures |r| == |xs| - 1
    ensures multiset(r) == multiset(xs) - multiset{xs[i]}
  {
    assert xs == xs[..i] + [xs[i]] + xs[i + 1..];
    xs[..i] + xs[i + 1..]
  }

  /** Row keys are distinct and below the next key to hand out. */
  ghost predicate TableValid<T>(idOf: T -> nat, xs: seq<T>, nextId: nat) {
    (forall i :: 0 <= i < |xs| ==> idOf(xs[i]) < nextId)
    && (forall i, j :: 0 <= i < j < |xs| ==> idOf(xs[i]) != idOf(xs[j]))
  }

  /** Appending a row with the next key keeps the keys valid. */
  lemma AppendValid<T>(idOf: T -> nat, xs: seq<T>, nextId: nat, x: T)
    requires TableValid(idOf, xs, nextId) && idOf(x) == nextId
    ensures TableValid(idOf, xs + [x], nextId + 1)
  {
  }

  /** Replacing a row by one with the same key keeps the keys valid. */
  lemma ReplaceValid<T>(idOf: T -> nat, xs: seq<T>, nextId: nat, i: nat, x: T)
    requires TableValid(idOf, xs, nextId) && i < |xs| && idOf(x) == idOf(xs[i])
    ensures TableValid(idOf, xs[i := x], nextId)
  {
  }

  /** Removing a row keeps the keys valid, and with distinct keys it removes
      exactly the rows with that row's key. */
  lemma RemoveValid<T>(idOf: T -> nat, xs: seq<T>, nextId: nat, i: nat)
    requires TableValid(idOf, xs, nextId) && i < |xs|
    ensures TableValid(idOf, RemoveAt(xs, i), nextId)
    ensures forall x :: x in RemoveAt(xs, i) <==> x in xs && idOf(x) != idOf(xs[i])
  {
    var r := RemoveAt(xs, i);
    assert forall k :: 0 <= k < |r| ==> r[k] == if k < i then xs[k] else xs[k + 1];
    forall x ensures x in r <==> x in xs && idOf(x) != idOf(xs[i]) {
      if x in xs && idOf(x) != idOf(xs[i]) {
        var k :| 0 <= k < |xs| && xs[k] == x;
        assert x == if k < i then r[k] else r[k - 1];
      }
    }
  }

  /** Keeping some of the rows keeps the keys valid. */
  lemma {:induction false} FilterValid<T>(idOf: T -> nat, p: T -> bool, xs: seq<T>, nextId: nat)
    requires TableValid(idOf, xs, nextId)
    ensures TableValid(idOf, Filter(p, xs), nextId)
  {
    if xs != [] {
      var tail := xs[1..];
      assert TableValid(idOf, tail, nextId) by {
        assert forall k :: 0 <= k < |tail| ==> tail[k] == xs[k + 1];
      }
      FilterValid(idOf, p, tail, nextId);
      var rest := Filter(p, tail);
      if p(xs[0]) {
        forall k | 0 <= k < |rest| ensures idOf(rest[k]) != idOf(xs[0]) {
          FilterMembers(p, tail, rest[k]);
          var m :| 0 <= m < |tail| && tail[m] == rest[k];
          assert xs[m + 1] == rest[k];
        }
        var r := [xs[0]] + rest;
        assert forall k :: 0 < k < |r| ==> r[k] == rest[k - 1];
      }
    }
  }

  /** No element occurs twice. */
  predicate Distinct<T(==)>(s: seq<T>) {
    forall i, j :: 0 <= i < j < |s| ==> s[i] != s[j]
  }

  // ---------------------------------------------------------------------
  // Case mapping (ASCII letters; other characters are left alone)
  // ---------------------------------------------------------------------

  function UpperChar(c: char): char {
    if 'a' <= c <= 'z' then (c as int - 32) as char else c
  }

  function LowerChar(c: char): char {
    if 'A' <= c <= 'Z' then (c as int + 32) as char else c
  }

  /** `str.upper()` */
  function Upper(s: string): (r: string)
    ensures |r| == |s|
    ensures forall i :: 0 <= i < |s| ==> r[i] == UpperChar(s[i])
  {
    if s == [] then [] else [UpperChar(s[0])] + Upper(s[1..])
  }

  /** `str.lower()` */
  function Lower(s: string): (r: string)
    ensures |r| == |s|
    ensures forall i :: 0 <= i < |s| ==> r[i] == LowerChar(s[i])
  {
    if s == [] then [] else [LowerChar(s[0])] + Lower(s[1..])
  }

  lemma UpperIdempotent(s: string)
    ensures Upper(Upper(s)) == Upper(s)
  {
  }

  lemma UpperOfLower(s: string)
    ensures Upper(Lower(s)) == Upper(s)
  {
  }

  lemma UpperConcat(a: string, b: string)
    ensures Upper(a + b) == Upper(a) + Upper(b)
  {
  }

  // ---------------------------------------------------------------------
  // Affixes and containment
  // ---------------------------------------------------------------------

  predicate StartsWith(s: string, prefix: string) {
    |prefix| <= |s| && s[..|prefix|] == prefix
  }

  predicate EndsWith(s: string, suffix: string) {
    |suffix| <= |s| && s[|s| - |suffix|..] == suffix
  }

  predicate OccursAt(s: string, needle: string, i: int) {
    0 <= i <= |s| - |needle| && s[i..i + |needle|] == needle
  }

  /** `needle in s` for strings */
  predicate Contains(s: string, needle: string) {
    exists i :: 0 <= i <= |s| - |needle| && OccursAt(s, needle, i)
  }

  /** A string containing a needle contains the needle's first character. */
  lemma ContainsHead(s: string, needle: string)
    requires needle != [] && Contains(s, needle)
    ensures needle[0] in s
  {
    var i :| 0 <= i <= |s| - |needle| && OccursAt(s, needle, i);
    assert s[i..i + |needle|][0] == s[i];
  }

  // ---------------------------------------------------------------------
  // Whitespace stripping (`str.strip()`, ASCII whitespace)
  // ---------------------------------------------------------------------

  predicate IsSpace(c: char) {
    c == ' ' || c == '\t' || c == '\n' || c == '\r' || c == 11 as char || c == 12 as char
  }

  function StripLeft(s: string): (r: string)
    ensures |r| <= |s|
  {
    if s != [] && IsSpace(s[0]) then StripLeft(s[1..]) else s
  }

  function StripRight(s: string): (r: string)
    ensures |r| <= |s|
  {
    if s != [] && IsSpace(s[|s| - 1]) then StripRight(s[..|s| - 1]) else s
  }

  function Strip(s: string): (r: string)
    ensures |r| <= |s|
  {
    StripRight(StripLeft(s))
  }

  /** `s.replace(c, "")` for a one-character needle */
  function RemoveChar(s: string, c: char): (r: string)
    ensures c !in r
    ensures |r| <= |s|
  {
    if s == [] then [] else (if s[0] == c then [] else [s[0]]) + RemoveChar(s[1..], c)
  }

  /** `s.replace(c, "")` keeps every other character. */
  lemma {:induction false} RemoveCharKeeps(s: string, c: char, d: char)
    requires d != c
    ensures d in s <==> d in RemoveChar(s, c)
  {
    if s != [] {
      RemoveCharKeeps(s[1..], c, d);
      assert s == [s[0]] + s[1..];
    }
  }

  /** Removing an absent character changes nothing. */
  lemma {:induction false} RemoveCharAbsent(s: string, c: char)
    requires c !in s
    ensures RemoveChar(s, c) == s
  {
    if s != [] {
      RemoveCharAbsent(s[1..], c);
      assert s == [s[0]] + s[1..];
    }
  }

  // ---------------------------------------------------------------------
  // Splitting and joining on a separator
  // ---------------------------------------------------------------------

  /** `s.split(c)`: the pieces between the separators, at least one. */
  function Split(s: string, c: char): (r: seq<string>)
    ensures |r| >= 1
    ensures forall i :: 0 <= i < |r| ==> c !in r[i]
    decreases |s|
  {
    var k := IndexOf(s, c);
    if k == |s| then [s] else [s[..k]] + Split(s[k + 1..], c)
  }

  /** `c.join(xs)` */
  function Join(xs: seq<string>, c: char): string {
    if xs == [] then "" else if |xs| == 1 then xs[0] else xs[0] + [c] + Join(xs[1..], c)
  }

  /** Joining the pieces gives back the string. */
  lemma {:induction false} JoinSplit(s: string, c: char)
    ensures Join(Split(s, c), c) == s
    decreases |s|
  {
    var k := IndexOf(s, c);
    if k < |s| {
      JoinSplit(s[k + 1..], c);
      assert s == s[..k] + [c] + s[k + 1..];
    }
  }

  // ---------------------------------------------------------------------
  // Integers in decimal
  // ---------------------------------------------------------------------

  predicate IsDigit(c: char) {
    '0' <= c <= '9'
  }

  function DigitValue(c: char): nat
    requires IsDigit(c)
  {
    c as int - '0' as int
  }

  function DigitChar(d: nat): (c: char)
    requires d < 10
    ensures IsDigit(c) && DigitValue(c) == d
  {
    ('0' as int + d) as char
  }

  predicate AllDigits(s: string) {
    forall i :: 0 <= i < |s| ==> IsDigit(s[i])
  }

  /** The value of a non-empty run of decimal digits. */
  function DigitsValue(s: string): nat
    requires AllDigits(s)
  {
    if s == [] then 0 else DigitsValue(s[..|s| - 1]) * 10 + DigitValue(s[|s| - 1])
  }

  /** Decimal digits of a natural number, most significant first. */
  function NatToString(n: nat): (r: string)
    ensures r != [] && AllDigits(r)
    decreases n
  {
    if n < 10 then [DigitChar(n)] else NatToString(n / 10) + [DigitChar(n % 10)]
  }

  /** `str(n)` for an int */
  function IntToString(n: int): (r: string)
    ensures r != []
  {
    if n < 0 then "-" + NatToString(-n) else NatToString(n)
  }

  /** `int(s)` on ASCII input: surrounding whitespace, an optional sign, then
      one or more digits; anything else is a ValueError (None here). */
  function ParseInt(s: string): (r: Option<int>)
    ensures r.Some? ==> Strip(s) != []
  {
    var t := Strip(s);
    if t == [] then None
    else if t[0] == '-' || t[0] == '+' then
      var body := t[1..];
      if body != [] && AllDigits(body) then
        var v: int := DigitsValue(body);
        Some(if t[0] == '-' then -v else v)
      else None
    else if AllDigits(t) then Some(DigitsValue(t))
    else None
  }

  lemma {:induction false} NatToStringValue(n: nat)
    ensures DigitsValue(NatToString(n)) == n
    decreases n
  {
    if n >= 10 {
      NatToStringValue(n / 10);
      var s := NatToString(n / 10) + [DigitChar(n % 10)];
      assert s[..|s| - 1] == NatToString(n / 10);
    }
  }

  lemma StripOfDigitsOrSign(s: string)
    requires s != [] && !IsSpace(s[0]) && !IsSpace(s[|s| - 1])
    ensures Strip(s) == s
  {
  }

  /** `int(str(n)) == n` */
  lemma IntRoundTrip(n: int)
    ensures ParseInt(IntToString(n)) == Some(n)
  {
    var s := IntToString(n);
    StripOfDigitsOrSign(s);
    if n < 0 {
      NatToStringValue(-n);
      assert s[1..] == NatToString(-n);
    } else {
      NatToStringValue(n);
    }
  }

  // ---------------------------------------------------------------------
  // Decimal numbers (`float(s)` on plain decimal notation)
  // ---------------------------------------------------------------------

  function Pow10(k: nat): (r: nat)
    ensures r >= 1
  {
    if k == 0 then 1 else 10 * Pow10(k - 1)
  }

  /** Index of the first occurrence of `c` in `s`, or |s|. */
  function IndexOf(s: string, c: char): (i: nat)
    ensures i <= |s|
    ensures forall j :: 0 <= j < i ==> s[j] != c
    ensures i < |s| ==> s[i] == c
  {
    if s == [] then 0 else if s[0] == c then 0 else 1 + IndexOf(s[1..], c)
  }

  /** Unsigned decimal: digits, optionally a point and more digits, at least
      one digit in all. */
  function ParseUnsignedDecimal(t: string): Option<real> {
    var p := IndexOf(t, '.');
    var whole := t[..p];
    var frac := if p < |t| then t[p + 1..] else [];
    if whole == [] && frac == [] then None
    else if !AllDigits(whole) || !AllDigits(frac) then None
    else Some(DigitsValue(whole) as real + DigitsValue(frac) as real / Pow10(|frac|) as real)
  }

  /** `float(s)` for decimal notation with an optional sign and surrounding
      whitespace; other spellings give None (ValueError). */
  function ParseDecimal(s: string): (r: Option<real>)
    ensures r.Some? ==> Strip(s) != []
  {
    var t := Strip(s);
    if t == [] then None
    else if t[0] == '-' || t[0] == '+' then
      match ParseUnsignedDecimal(t[1..])
      case Some(v) => Some(if t[0] == '-' then -v else v)
      case None => None
    else ParseUnsignedDecimal(t)
  }

  /** The characters a decimal literal may contain. */
  predicate DecimalChar(c: char) {
    IsDigit(c) || c == '.' || c == '-' || c == '+' || IsSpace(c)
  }

  lemma {:induction false} StripLeftSplit(s: string) returns (k: nat)
    ensures k <= |s| && StripLeft(s) == s[k..]
    ensures forall j :: 0 <= j < k ==> IsSpace(s[j])
  {
    if s != [] && IsSpace(s[0]) {
      var k' := StripLeftSplit(s[1..]);
      k := k' + 1;
      assert s[1..][k'..] == s[k..];
    } else {
      k := 0;
    }
  }

  lemma {:induction false} StripRightSplit(s: string) returns (m: nat)
    ensures m <= |s| && StripRight(s) == s[..m]
    ensures forall j :: m <= j < |s| ==> IsSpace(s[j])
  {
    if s != [] && IsSpace(s[|s| - 1]) {
      m := StripRightSplit(s[..|s| - 1]);
      assert s[..|s| - 1][..m] == s[..m];
    } else {
      m := |s|;
    }
  }

  /** `Strip(s)` is `s` with some whitespace cut from either end. */
  lemma StripSplit(s: string) returns (k: nat, m: nat)
    ensures k <= m <= |s| && Strip(s) == s[k..m]
    ensures forall j :: 0 <= j < |s| && !(k <= j < m) ==> IsSpace(s[j])
  {
    k := StripLeftSplit(s);
    var m' := StripRightSplit(s[k..]);
    m := k + m';
    assert s[k..][..m'] == s[k..m];
    forall j | m <= j < |s| ensures IsSpace(s[j]) {
      assert s[k..][j - k] == s[j];
    }
  }

  lemma UnsignedDecimalChars(u: string)
    requires ParseUnsignedDecimal(u).Some?
    ensures forall i :: 0 <= i < |u| ==> IsDigit(u[i]) || u[i] == '.'
  {
    var p := IndexOf(u, '.');
    forall i | 0 <= i < |u| ensures IsDigit(u[i]) || u[i] == '.' {
      if i < p {
        assert u[..p][i] == u[i];
      } else if i > p {
        assert u[p + 1..][i - p - 1] == u[i];
      }
    }
  }

  /** Whatever `float()` accepts here is made of digits, signs, points and
      whitespace only. */
  lemma ParsedDecimalChars(s: string)
    requires ParseDecimal(s).Some?
    ensures forall i :: 0 <= i < |s| ==> DecimalChar(s[i])
  {
    var k, m := StripSplit(s);
    var t := s[k..m];
    assert Strip(s) == t;
    var u := if t[0] == '-' || t[0] == '+' then t[1..] else t;
    UnsignedDecimalChars(u);
    forall i | 0 <= i < |s| ensures DecimalChar(s[i]) {
      if k <= i < m {
        if t[0] == '-' || t[0] == '+' {
          if i > k {
            assert u[i - k - 1] == s[i];
          }
        } else {
          assert u[i - k] == s[i];
        }
      }
    }
  }

  // ---------------------------------------------------------------------
  // Fixed-point rendering (`f"{x:.Nf}"`)
  // ---------------------------------------------------------------------

  function Abs(x: real): real {
    if x < 0.0 then -x else x
  }

  /** |x| scaled by 10^d and rounded to the nearest integer, halves up. */
  function ScaledRound(x: real, d: nat): (q: nat)
  {
    var y := Abs(x) * Pow10(d) as real + 0.5;
    assert y >= 0.0;
    y.Floor
  }

  /** `s` padded on the left with zeros to at least `d` characters. */
  function ZeroPad(s: string, d: nat): (r: string)
    ensures |r| == if |s| < d then d else |s|
    ensures AllDigits(s) ==> AllDigits(r)
  {
    if |s| < d then seq(d - |s|, _ => '0') + s else s
  }

  lemma DivNonNeg(q: nat, p: nat)
    requires p > 0
    ensures q / p >= 0 && 0 <= q % p < p
  {
  }

  /** `f"{x:.{d}f}"`: sign, whole part, and `d` fraction digits. */
  function FormatFixed(x: real, d: nat): (r: string)
  {
    var q := ScaledRound(x, d);
    var p := Pow10(d);
    DivNonNeg(q, p);
    var whole: nat := q / p;
    var frac: nat := q % p;
    var sign := if x < 0.0 && q > 0 then "-" else "";
    var digits := NatToString(whole);
    sign + digits + (if d == 0 then "" else "." + ZeroPad(NatToString(frac), d))
  }
}
