/**
 * The few pieces of Python's `str` behaviour that the agent relies on:
 * substring search, `rstrip`, `strip`, `split('\n')`, `split()`, `lower()`
 * and `int()`, over strings as sequences of characters.
 */
module Text {
  import opened Wrappers

  /** `pat` occurs in `s` starting at index `i`. */
  predicate OccursAt(s: string, pat: string, i: nat)
  {
    i + |pat| <= |s| && s[i..i + |pat|] == pat
  }

  /** Python's `pat in s` for strings. */
  predicate Contains(s: string, pat: string)
  {
    exists i: nat | i <= |s| :: OccursAt(s, pat, i)
  }

  /** The first occurrence of `pat` in `s` at or after `from`. */
  function FindFrom(s: string, pat: string, from: nat): (r: Option<nat>)
    requires from <= |s|
    ensures r.Some? ==> from <= r.value <= |s| && OccursAt(s, pat, r.value)
    ensures r.Some? ==> forall j: nat :: from <= j < r.value ==> !OccursAt(s, pat, j)
    ensures r.None? ==> forall j: nat :: from <= j <= |s| ==> !OccursAt(s, pat, j)
    decreases |s| - from
  {
    if OccursAt(s, pat, from) then Some(from)
    else if from == |s| then None
    else FindFrom(s, pat, from + 1)
  }

  /** The index of the first occurrence of `pat` in `s`, if there is one. */
  function IndexOf(s: string, pat: string): (r: Option<nat>)
    ensures r.Some? <==> Contains(s, pat)
    ensures r.Some? ==> OccursAt(s, pat, r.value)
    ensures r.Some? ==> forall j: nat :: j < r.value ==> !OccursAt(s, pat, j)
  {
    FindFrom(s, pat, 0)
  }

  /** An occurrence inside a prefix of `s` is an occurrence in `s`. */
  lemma OccursInPrefix(s: string, pat: string, n: nat, j: nat)
    requires n <= |s|
    requires OccursAt(s[..n], pat, j)
    ensures OccursAt(s, pat, j)
  {
    assert s[..n][j..j + |pat|] == s[j..j + |pat|];
  }

  /** Python's `s.rstrip(c)` for a single character `c`. */
  function RStrip(s: string, c: char): (r: string)
    ensures r <= s
    ensures forall k :: |r| <= k < |s| ==> s[k] == c
    ensures r == [] || r[|r| - 1] != c
  {
    if |s| > 0 && s[|s| - 1] == c then RStrip(s[..|s| - 1], c) else s
  }

  /** The characters Python's `str.isspace()` accepts, which `split()` and `strip()` use. */
  predicate IsSpace(c: char)
  {
    || ('\t' <= c <= '\r')
    || ('\U{1C}' <= c <= '\U{1F}')
    || c == ' ' || c == '\U{85}' || c == '\U{A0}' || c == '\U{1680}'
    || ('\U{2000}' <= c <= '\U{200A}')
    || c == '\U{2028}' || c == '\U{2029}' || c == '\U{202F}' || c == '\U{205F}' || c == '\U{3000}'
  }

  /** The end of the run of whitespace that starts at `i`: where `lstrip()` cuts. */
  function SpaceEnd(s: string, i: nat): (n: nat)
    requires i <= |s|
    ensures i <= n <= |s|
    ensures forall k :: i <= k < n ==> IsSpace(s[k])
    ensures n < |s| ==> !IsSpace(s[n])
    decreases |s| - i
  {
    if i == |s| || !IsSpace(s[i]) then i else SpaceEnd(s, i + 1)
  }

  /** The start of the run of whitespace that ends at `j`: where `rstrip()` cuts. */
  function SpaceStart(s: string, j: nat): (n: nat)
    requires j <= |s|
    ensures n <= j
    ensures forall k :: n <= k < j ==> IsSpace(s[k])
    ensures n > 0 ==> !IsSpace(s[n - 1])
  {
    if j == 0 || !IsSpace(s[j - 1]) then j else SpaceStart(s, j - 1)
  }

  /** `r` sits in `s` at index `i`, and everything of `s` outside it is whitespace. */
  predicate SpaceAround(s: string, r: string, i: nat)
  {
    && i + |r| <= |s| && r == s[i..i + |r|]
    && (forall k :: 0 <= k < i ==> IsSpace(s[k]))
    && (forall k :: i + |r| <= k < |s| ==> IsSpace(s[k]))
  }

  /** Python's `s.strip()` with no argument. */
  function Strip(s: string): (r: string)
    // a slice of `s` with only whitespace around it, and no whitespace at either end
    ensures exists i :: 0 <= i <= |s| - |r| && SpaceAround(s, r, i)
    ensures r == [] || (!IsSpace(r[0]) && !IsSpace(r[|r| - 1]))
  {
    var i, j := SpaceEnd(s, 0), SpaceStart(s, |s|);
    if j <= i then
      assert SpaceAround(s, [], |s|);
      []
    else
      assert SpaceAround(s, s[i..j], i);
      s[i..j]
  }

  /** `strip()` leaves something exactly when `s` has a non-space character. */
  lemma StripEmpty(s: string)
    ensures Strip(s) == [] <==> forall k :: 0 <= k < |s| ==> IsSpace(s[k])
  {
    var i, j := SpaceEnd(s, 0), SpaceStart(s, |s|);
    if i < j {
      assert Strip(s)[0] == s[i];
    }
  }

  /** Index of the first `sep` in `s`, or `|s|` when there is none. */
  function CharIndex(s: string, sep: char): (i: nat)
    ensures i <= |s|
    ensures i < |s| ==> s[i] == sep
    ensures forall k :: 0 <= k < i ==> s[k] != sep
  {
    if |s| == 0 || s[0] == sep then 0 else 1 + CharIndex(s[1..], sep)
  }

  /** Python's `s.split(sep)` for a one-character separator. */
  function Split(s: string, sep: char): (parts: seq<string>)
    ensures |parts| >= 1
    ensures forall k :: 0 <= k < |parts| ==> sep !in parts[k]
    decreases |s|
  {
    var i := CharIndex(s, sep);
    if i == |s| then [s] else [s[..i]] + Split(s[i + 1..], sep)
  }

  /** Python's `sep.join(parts)`, the inverse of `Split`. */
  function Join(parts: seq<string>, sep: char): string
  {
    if |parts| == 0 then []
    else if |parts| == 1 then parts[0]
    else parts[0] + [sep] + Join(parts[1..], sep)
  }

  /** Splitting and joining again gives back the original text. */
  lemma {:induction false} JoinSplit(s: string, sep: char)
    ensures Join(Split(s, sep), sep) == s
    decreases |s|
  {
    var i := CharIndex(s, sep);
    if i < |s| {
      var head, rest := s[..i], s[i + 1..];
      var tail := Split(rest, sep);
      JoinSplit(rest, sep);
      assert Split(s, sep) == [head] + tail;
      JoinCons(head, tail, sep);
      assert s == head + [sep] + rest;
    }
  }

  /** Joining a piece in front of at least one more piece puts a separator between them. */
  lemma JoinCons(head: string, tail: seq<string>, sep: char)
    requires |tail| >= 1
    ensures Join([head] + tail, sep) == head + [sep] + Join(tail, sep)
  {
    var parts := [head] + tail;
    assert parts[0] == head;
    assert parts[1..] == tail;
  }

  /** The length of the run of non-space characters that starts at `i`. */
  function TokenEnd(s: string, i: nat): (n: nat)
    requires i <= |s|
    ensures i <= n <= |s|
    ensures forall k :: i <= k < n ==> !IsSpace(s[k])
    ensures n < |s| ==> IsSpace(s[n])
    decreases |s| - i
  {
    if i == |s| || IsSpace(s[i]) then i else TokenEnd(s, i + 1)
  }

  /** Python's `s.split()` with no argument: the maximal runs of non-space characters. */
  function Fields(s: string): (r: seq<string>)
    ensures forall k :: 0 <= k < |r| ==> r[k] != [] && forall c :: c in r[k] ==> !IsSpace(c)
    decreases |s|
  {
    if |s| == 0 then []
    else if IsSpace(s[0]) then Fields(s[1..])
    else
      var n := TokenEnd(s, 1);
      [s[..n]] + Fields(s[n..])
  }

  /** The whitespace runs around and between the fields of `s`: one more than there are fields. */
  function FieldGaps(s: string): (gaps: seq<string>)
    ensures |gaps| == |Fields(s)| + 1
    ensures forall k :: 0 <= k < |gaps| ==> forall c :: c in gaps[k] ==> IsSpace(c)
    ensures |s| > 0 && IsSpace(s[0]) ==> gaps[0] != []
    decreases |s|
  {
    if |s| == 0 then [[]]
    else if IsSpace(s[0]) then
      var g := FieldGaps(s[1..]);
      [[s[0]] + g[0]] + g[1..]
    else
      [[]] + FieldGaps(s[TokenEnd(s, 1)..])
  }

  /** The gaps and fields laid out in turn: `gaps[0] + fields[0] + gaps[1] + ...`. */
  function Weave(gaps: seq<string>, fields: seq<string>): string
    requires |gaps| == |fields| + 1
  {
    if |fields| == 0 then gaps[0] else gaps[0] + fields[0] + Weave(gaps[1..], fields[1..])
  }

  /**
   * `split()` loses only whitespace: `s` is its fields interleaved with
   * all-whitespace gaps, the gaps between two fields being non-empty.
   */
  lemma {:induction false} FieldsWeave(s: string)
    ensures s == Weave(FieldGaps(s), Fields(s))
    ensures forall k :: 0 < k < |Fields(s)| ==> FieldGaps(s)[k] != []
    decreases |s|
  {
    if |s| == 0 {
    } else if IsSpace(s[0]) {
      FieldsWeave(s[1..]);
      WeaveSpace(s);
    } else {
      var n := TokenEnd(s, 1);
      FieldsWeave(s[n..]);
      FieldGapsLeading(s[n..]);
      WeaveToken(s, n);
    }
  }

  /** The step of `FieldsWeave` for a leading whitespace character. */
  lemma WeaveSpace(s: string)
    requires |s| > 0 && IsSpace(s[0])
    requires s[1..] == Weave(FieldGaps(s[1..]), Fields(s[1..]))
    requires forall k :: 0 < k < |Fields(s[1..])| ==> FieldGaps(s[1..])[k] != []
    ensures s == Weave(FieldGaps(s), Fields(s))
    ensures forall k :: 0 < k < |Fields(s)| ==> FieldGaps(s)[k] != []
  {
    var g, f := FieldGaps(s[1..]), Fields(s[1..]);
    assert Fields(s) == f;
    assert FieldGaps(s) == [[s[0]] + g[0]] + g[1..];
    WeaveGrow(s[0], g, f);
    assert s == [s[0]] + s[1..];
  }

  /** Growing the first gap by one character grows the woven string by that character. */
  lemma WeaveGrow(c: char, gaps: seq<string>, fields: seq<string>)
    requires |gaps| == |fields| + 1
    ensures Weave([[c] + gaps[0]] + gaps[1..], fields) == [c] + Weave(gaps, fields)
  {
    var gs := [[c] + gaps[0]] + gaps[1..];
    assert gs[0] == [c] + gaps[0];
    if |fields| > 0 {
      assert gs[1..] == gaps[1..];
      var w := Weave(gaps[1..], fields[1..]);
      calc {
        Weave(gs, fields);
        gs[0] + fields[0] + w;
        { Associate([c], gaps[0], fields[0], w); }
        [c] + (gaps[0] + fields[0] + w);
      }
    }
  }

  lemma Associate(a: string, b: string, c: string, d: string)
    ensures (a + b) + c + d == a + (b + c + d)
  {
  }

  /** The step of `FieldsWeave` for a leading field `s[..n]`. */
  lemma WeaveToken(s: string, n: nat)
    requires |s| > 0 && !IsSpace(s[0]) && n == TokenEnd(s, 1)
    requires s[n..] == Weave(FieldGaps(s[n..]), Fields(s[n..]))
    requires forall k :: 0 < k < |Fields(s[n..])| ==> FieldGaps(s[n..])[k] != []
    requires |Fields(s[n..])| > 0 ==> FieldGaps(s[n..])[0] != []
    ensures s == Weave(FieldGaps(s), Fields(s))
    ensures forall k :: 0 < k < |Fields(s)| ==> FieldGaps(s)[k] != []
  {
    var g, f := FieldGaps(s[n..]), Fields(s[n..]);
    assert Fields(s) == [s[..n]] + f;
    assert FieldGaps(s) == [[]] + g;
    WeaveCons([], s[..n], g, f);
    SplitAt(s, n);
  }

  /** Weaving one more gap and field in front. */
  lemma WeaveCons(g0: string, f0: string, gaps: seq<string>, fields: seq<string>)
    requires |gaps| == |fields| + 1
    ensures Weave([g0] + gaps, [f0] + fields) == g0 + f0 + Weave(gaps, fields)
  {
    assert ([g0] + gaps)[1..] == gaps;
    assert ([f0] + fields)[1..] == fields;
  }

  /** A string is its prefix followed by its suffix. */
  lemma SplitAt(s: string, n: nat)
    requires n <= |s|
    ensures s == [] + s[..n] + s[n..]
  {
  }

  /** After a field, the next field is preceded by whitespace. */
  lemma FieldGapsLeading(s: string)
    requires s == [] || IsSpace(s[0])
    ensures |Fields(s)| > 0 ==> FieldGaps(s)[0] != []
  {
  }

  /** Python's `c.lower()` for one character; only the ASCII letters change. */
  function LowerChar(c: char): char
  {
    if 'A' <= c <= 'Z' then (c as int + 32) as char else c
  }

  /** Python's `s.lower()`, ASCII letters only. */
  function Lower(s: string): (r: string)
    ensures |r| == |s|
    // no upper-case ASCII letter survives, each becomes its lower-case letter, and nothing else changes
    ensures forall i :: 0 <= i < |r| ==> !('A' <= r[i] <= 'Z')
    ensures forall i :: 0 <= i < |s| && 'A' <= s[i] <= 'Z' ==> r[i] as int == s[i] as int + 32
    ensures forall i :: 0 <= i < |s| && !('A' <= s[i] <= 'Z') ==> r[i] == s[i]
  {
    seq(|s|, i requires 0 <= i < |s| => LowerChar(s[i]))
  }

  predicate IsDigit(c: char)
  {
    '0' <= c <= '9'
  }

  /** The value of a string of decimal digits. */
  function DigitsValue(s: string): nat
    requires forall k :: 0 <= k < |s| ==> IsDigit(s[k])
  {
    if |s| == 0 then 0
    else
      assert IsDigit(s[|s| - 1]);
      10 * DigitsValue(s[..|s| - 1]) + (s[|s| - 1] as int - '0' as int)
  }

  /** Every character of `s` from index `from` on is a decimal digit. */
  predicate AllDigitsFrom(s: string, from: nat)
  {
    forall k :: from <= k < |s| ==> IsDigit(s[k])
  }

  /** Python's `int(s)` for a string without whitespace: an optional sign and decimal digits. */
  function ParseInt(s: string): (r: Option<int>)
    // it reads exactly the texts made of an optional sign followed by at least one digit
    ensures r.Some? <==>
      (|s| >= 1 && AllDigitsFrom(s, 0)) || (|s| >= 2 && (s[0] == '+' || s[0] == '-') && AllDigitsFrom(s, 1))
    // only a leading `-` makes the value negative
    ensures r.Some? && s[0] != '-' ==> r.value >= 0
    ensures r.Some? && s[0] == '-' ==> r.value <= 0
  {
    if |s| >= 2 && (s[0] == '+' || s[0] == '-') && forall k :: 1 <= k < |s| ==> IsDigit(s[k]) then
      var v: int := DigitsValue(s[1..]);
      Some(if s[0] == '-' then -v else v)
    else if |s| >= 1 && forall k :: 0 <= k < |s| ==> IsDigit(s[k]) then
      Some(DigitsValue(s))
    else
      None
  }

  /** The character of a decimal digit. */
  function DigitChar(d: nat): char
    requires d < 10
  {
    ('0' as int + d) as char
  }

  /** Python's `str(n)` for a natural number: its decimal digits, without leading zeros. */
  function Decimal(n: nat): (r: string)
    ensures |r| >= 1 && forall k :: 0 <= k < |r| ==> IsDigit(r[k])
  {
    if n < 10 then [DigitChar(n)] else Decimal(n / 10) + [DigitChar(n % 10)]
  }

  lemma {:induction false} DigitsValueDecimal(n: nat)
    ensures DigitsValue(Decimal(n)) == n
  {
    if n >= 10 {
      DigitsValueDecimal(n / 10);
      var d := Decimal(n);
      assert d[..|d| - 1] == Decimal(n / 10);
    }
  }

  /** `int(str(n))`, `int('+' + str(n))` and `int('-' + str(n))` give back `n`, `n` and `-n`. */
  lemma ParseIntDecimal(n: nat)
    ensures ParseInt(Decimal(n)) == Some(n)
    ensures ParseInt("+" + Decimal(n)) == Some(n)
    ensures ParseInt("-" + Decimal(n)) == Some(-(n as int))
  {
    DigitsValueDecimal(n);
    var d := Decimal(n);
    assert ("+" + d)[1..] == d;
    assert ("-" + d)[1..] == d;
  }

  /** Python's `s[:n]`. */
  function Truncate(s: string, n: nat): (r: string)
    ensures r <= s && |r| <= n
    ensures |r| == if |s| <= n then |s| else n
    ensures |s| <= n ==> r == s
  {
    if |s| <= n then s else s[..n]
  }
}
