/** The JavaScript string and number built-ins the script relies on, modelled on `string`
    (a sequence of `char`) and unbounded `int`. */
module JsText {
  import opened Wrappers

  // ---------------------------------------------------------------------------
  // String.prototype.trim
  // ---------------------------------------------------------------------------

  /** The WhiteSpace and LineTerminator code points that `trim` strips. */
  predicate IsWhitespace(c: char)
  {
    c == '\t' || c == '\n' || c == '\U{000B}' || c == '\U{000C}' || c == '\r' || c == ' '
    || c == '\U{00A0}' || c == '\U{1680}' || ('\U{2000}' <= c <= '\U{200A}')
    || c == '\U{2028}' || c == '\U{2029}' || c == '\U{202F}' || c == '\U{205F}'
    || c == '\U{3000}' || c == '\U{FEFF}'
  }

  predicate AllWhitespace(s: string)
  {
    forall i :: 0 <= i < |s| ==> IsWhitespace(s[i])
  }

  /** No whitespace at either end: what `trim` leaves behind. */
  predicate Trimmed(s: string)
  {
    s == [] || (!IsWhitespace(s[0]) && !IsWhitespace(s[|s| - 1]))
  }

  /** Drops leading whitespace: the result is the suffix of `s` after a run of whitespace. */
  function TrimStart(s: string): (r: string)
    ensures |r| <= |s| && r == s[|s| - |r|..]
    ensures AllWhitespace(s[..|s| - |r|])
    ensures r == [] || !IsWhitespace(r[0])
  {
    if s != [] && IsWhitespace(s[0]) then TrimStart(s[1..]) else s
  }

  /** Drops trailing whitespace: the result is the prefix of `s` before a run of whitespace. */
  function TrimEnd(s: string): (r: string)
    ensures |r| <= |s| && r == s[..|r|]
    ensures AllWhitespace(s[|r|..])
    ensures r == [] || !IsWhitespace(r[|r| - 1])
  {
    if s != [] && IsWhitespace(s[|s| - 1]) then TrimEnd(s[..|s| - 1]) else s
  }

  /** `s.trim()`: removes whitespace at both ends and keeps the middle untouched. */
  function Trim(s: string): (r: string)
    ensures Trimmed(r)
    ensures |r| <= |s|
  {
    TrimEnd(TrimStart(s))
  }

  /** Trimming only removes characters: a character absent from `s` is absent from `Trim(s)`. */
  lemma TrimKeepsOut(s: string, c: char)
    requires c !in s
    ensures c !in Trim(s)
  {
  }

  /** Trimming something already trimmed changes nothing. */
  lemma TrimOfTrimmed(s: string)
    requires Trimmed(s)
    ensures Trim(s) == s
  {
  }

  /** A string of whitespace trims to nothing. */
  lemma TrimBlank(s: string)
    requires AllWhitespace(s)
    ensures Trim(s) == []
  {
    assert TrimStart(s) == [];
  }

  /** Whitespace in front of a non-empty trimmed string is exactly what `trim` removes. */
  lemma {:induction false} TrimPadded(pad: string, x: string)
    requires AllWhitespace(pad) && Trimmed(x) && x != []
    ensures Trim(pad + x) == x
  {
    if pad == [] {
      assert pad + x == x;
      TrimOfTrimmed(x);
    } else {
      assert (pad + x)[1..] == pad[1..] + x;
      assert TrimStart(pad + x) == TrimStart(pad[1..] + x);
      TrimPadded(pad[1..], x);
    }
  }

  // ---------------------------------------------------------------------------
  // String.prototype.split with a one-character separator, Array.prototype.join
  // ---------------------------------------------------------------------------

  /** `s.split(sep)`: always at least one piece (`"".split(",")` is `[""]`), no piece holds `sep`. */
  function Split(s: string, sep: char): (r: seq<string>)
    ensures |r| >= 1
    ensures forall i :: 0 <= i < |r| ==> sep !in r[i]
  {
    if s == [] then [[]]
    else
      var rest := Split(s[1..], sep);
      if s[0] == sep then [[]] + rest
      else [[s[0]] + rest[0]] + rest[1..]
  }

  /** `xs.join(sep)`: the empty array joins to the empty string. */
  function Join(xs: seq<string>, sep: string): string
  {
    if |xs| == 0 then [] else if |xs| == 1 then xs[0] else xs[0] + sep + Join(xs[1..], sep)
  }

  /** A string without the separator is one piece. */
  lemma {:induction false} SplitNoSep(a: string, sep: char)
    requires sep !in a
    ensures Split(a, sep) == [a]
  {
    if a != [] {
      SplitNoSep(a[1..], sep);
      assert [a[0]] + a[1..] == a;
    }
  }

  /** The first separator ends the first piece. */
  lemma {:induction false} SplitAtSep(a: string, sep: char, b: string)
    requires sep !in a
    ensures Split(a + [sep] + b, sep) == [a] + Split(b, sep)
  {
    if a == [] {
      assert a + [sep] + b == [sep] + b;
      assert ([sep] + b)[1..] == b;
    } else {
      assert (a + [sep] + b)[1..] == a[1..] + [sep] + b;
      SplitAtSep(a[1..], sep, b);
      assert [a[0]] + a[1..] == a;
    }
  }

  /** `Split` on a string with a known first character. */
  lemma SplitCons(c: char, s: string, sep: char)
    ensures Split([c] + s, sep) ==
      if c == sep then [[]] + Split(s, sep) else [[c] + Split(s, sep)[0]] + Split(s, sep)[1..]
  {
    assert ([c] + s)[1..] == s;
  }

  /** Prepending to the first piece commutes with appending more pieces. */
  lemma PrependFirstPiece(c: char, left: seq<string>, right: seq<string>)
    requires left != []
    ensures [[c] + (left + right)[0]] + (left + right)[1..] == ([[c] + left[0]] + left[1..]) + right
  {
    assert (left + right)[1..] == left[1..] + right;
  }

  /** A separator splits the string into the pieces of each side. */
  lemma {:induction false} SplitConcat(a: string, sep: char, b: string)
    ensures Split(a + [sep] + b, sep) == Split(a, sep) + Split(b, sep)
    decreases |a|
  {
    if a == [] {
      assert a + [sep] + b == [sep] + b;
      SplitCons(sep, b, sep);
    } else {
      var tail := a[1..] + [sep] + b;
      assert a + [sep] + b == [a[0]] + tail;
      assert a == [a[0]] + a[1..];
      SplitCons(a[0], tail, sep);
      SplitCons(a[0], a[1..], sep);
      SplitConcat(a[1..], sep, b);
      if a[0] != sep {
        PrependFirstPiece(a[0], Split(a[1..], sep), Split(b, sep));
      }
    }
  }

  /** Splitting loses nothing: joining the pieces with the separator gives `s` back. */
  lemma {:induction false} JoinSplit(s: string, sep: char)
    ensures Join(Split(s, sep), [sep]) == s
  {
    if s != [] {
      JoinSplit(s[1..], sep);
      var rest := Split(s[1..], sep);
      if s[0] == sep {
        assert ([[]] + rest)[1..] == rest;
        assert s == [sep] + s[1..];
      } else {
        var r := [[s[0]] + rest[0]] + rest[1..];
        assert r[1..] == rest[1..];
        if |rest| == 1 {
          assert s == [s[0]] + rest[0];
        } else {
          assert Join(rest, [sep]) == rest[0] + [sep] + Join(rest[1..], [sep]);
          assert s == [s[0]] + s[1..];
        }
      }
    }
  }

  /** Joining pieces free of the separator and splitting again gives the pieces back. */
  lemma {:induction false} SplitJoin(xs: seq<string>, sep: char)
    requires |xs| >= 1
    requires forall i :: 0 <= i < |xs| ==> sep !in xs[i]
    ensures Split(Join(xs, [sep]), sep) == xs
  {
    if |xs| == 1 {
      SplitNoSep(xs[0], sep);
    } else {
      SplitJoin(xs[1..], sep);
      SplitAtSep(xs[0], sep, Join(xs[1..], [sep]));
      assert [xs[0]] + xs[1..] == xs;
    }
  }

  // ---------------------------------------------------------------------------
  // toUpperCase / toLowerCase (ASCII letters only)
  // ---------------------------------------------------------------------------

  predicate IsAsciiUpper(c: char) { 'A' <= c <= 'Z' }

  predicate IsAsciiLower(c: char) { 'a' <= c <= 'z' }

  function UpperChar(c: char): char
  {
    if IsAsciiLower(c) then (c as int - 32) as char else c
  }

  function LowerChar(c: char): char
  {
    if IsAsciiUpper(c) then (c as int + 32) as char else c
  }

  function ToUpperCase(s: string): string
  {
    seq(|s|, i requires 0 <= i < |s| => UpperChar(s[i]))
  }

  function ToLowerCase(s: string): string
  {
    seq(|s|, i requires 0 <= i < |s| => LowerChar(s[i]))
  }

  // ---------------------------------------------------------------------------
  // String(n) for an integer, and parseInt(s) with no radix
  // ---------------------------------------------------------------------------

  /** The decimal digit character for `d`. */
  function DigitChar(d: nat): (c: char)
    requires d < 10
    ensures '0' <= c <= '9' && DigitValue(c) == d
    ensures c == '0' <==> d == 0
  {
    ('0' as int + d) as char
  }

  /** Decimal digits of `n`, most significant first, with no leading zero. */
  function NatToDigits(n: nat): (r: string)
    ensures r != []
    decreases n
  {
    if n < 10 then [DigitChar(n)] else NatToDigits(n / 10) + [DigitChar(n % 10)]
  }

  /** `String(n)` for an integral number. */
  function IntToString(n: int): string
  {
    if n < 0 then "-" + NatToDigits(-n) else NatToDigits(n)
  }

  predicate IsDigitIn(c: char, radix: nat)
  {
    ('0' <= c <= '9') || (radix == 16 && (('a' <= c <= 'f') || ('A' <= c <= 'F')))
  }

  function DigitValue(c: char): nat
  {
    if '0' <= c <= '9' then c as int - '0' as int
    else if 'a' <= c <= 'f' then c as int - 'a' as int + 10
    else if 'A' <= c <= 'F' then c as int - 'A' as int + 10
    else 0
  }

  /** The longest prefix of `s` made of digits of the radix. */
  function LeadingDigits(s: string, radix: nat): (z: string)
    ensures |z| <= |s| && z == s[..|z|]
    ensures forall i :: 0 <= i < |z| ==> IsDigitIn(z[i], radix)
    ensures |z| < |s| ==> !IsDigitIn(s[|z|], radix)
  {
    if s != [] && IsDigitIn(s[0], radix) then [s[0]] + LeadingDigits(s[1..], radix) else []
  }

  /** The number the digit string `z` denotes in the radix. */
  function DigitsValue(z: string, radix: nat): nat
  {
    if z == [] then 0 else DigitsValue(z[..|z| - 1], radix) * radix + DigitValue(z[|z| - 1])
  }

  /** The digits after the sign: a `0x`/`0X` prefix selects base 16, then the longest run of
      digits of the base counts; `None` when that run is empty. */
  function ParseMagnitude(u: string): Option<nat>
  {
    var hex := |u| >= 2 && u[0] == '0' && (u[1] == 'x' || u[1] == 'X');
    var radix := if hex then 16 else 10;
    var z := LeadingDigits(if hex then u[2..] else u, radix);
    if z == [] then None else Some(DigitsValue(z, radix))
  }

  /** `parseInt(s)` with no radix: leading whitespace is skipped, an optional sign read, then the
      magnitude; `None` stands for NaN. */
  function ParseInt(s: string): Option<int>
  {
    var t := TrimStart(s);
    var negative := t != [] && t[0] == '-';
    var u := if t != [] && (t[0] == '+' || t[0] == '-') then t[1..] else t;
    match ParseMagnitude(u)
    case None => None
    case Some(m) => var v: int := m; Some(if negative then -v else v)
  }

  lemma {:induction false} NatToDigitsShape(n: nat)
    ensures forall i :: 0 <= i < |NatToDigits(n)| ==> '0' <= NatToDigits(n)[i] <= '9'
    ensures NatToDigits(n)[0] == '0' ==> n == 0 && |NatToDigits(n)| == 1
    ensures DigitsValue(NatToDigits(n), 10) == n
    decreases n
  {
    if n >= 10 {
      NatToDigitsShape(n / 10);
      var front := NatToDigits(n / 10);
      var z := front + [DigitChar(n % 10)];
      assert z[..|z| - 1] == front;
      assert DigitsValue(z, 10) == DigitsValue(front, 10) * 10 + n % 10;
      assert z[0] == front[0];
    }
  }

  lemma {:induction false} LeadingDigitsAll(s: string, radix: nat)
    requires forall i :: 0 <= i < |s| ==> IsDigitIn(s[i], radix)
    ensures LeadingDigits(s, radix) == s
  {
    if s != [] {
      LeadingDigitsAll(s[1..], radix);
      assert [s[0]] + s[1..] == s;
    }
  }

  /** Decimal digits with no leading zero parse back to their value. */
  lemma MagnitudeOfDigits(m: nat)
    ensures ParseMagnitude(NatToDigits(m)) == Some(m)
  {
    var d := NatToDigits(m);
    NatToDigitsShape(m);
    LeadingDigitsAll(d, 10);
    assert !(|d| >= 2 && d[0] == '0');
  }

  lemma TrimStartNoLead(s: string)
    requires s != [] && !IsWhitespace(s[0])
    ensures TrimStart(s) == s
  {
  }

  /** A string starting with neither whitespace nor a sign parses as its magnitude. */
  lemma ParseIntUnsigned(t: string, m: nat)
    requires t != [] && !IsWhitespace(t[0]) && t[0] != '-' && t[0] != '+'
    requires ParseMagnitude(t) == Some(m)
    ensures ParseInt(t) == Some(m as int)
  {
    TrimStartNoLead(t);
  }

  /** A string of a minus sign then the magnitude parses as its negation. */
  lemma ParseIntMinus(t: string, m: nat)
    requires ParseMagnitude(t) == Some(m)
    ensures ParseInt("-" + t) == Some(-(m as int))
  {
    var s := "-" + t;
    TrimStartNoLead(s);
    assert s[1..] == t;
  }

  lemma ParseIntOfDigits(m: nat)
    ensures ParseInt(NatToDigits(m)) == Some(m as int)
  {
    var d := NatToDigits(m);
    NatToDigitsShape(m);
    var c := d[0];
    assert '0' <= c <= '9';
    MagnitudeOfDigits(m);
    ParseIntUnsigned(d, m);
  }

  lemma ParseIntOfNegative(m: nat)
    ensures ParseInt("-" + NatToDigits(m)) == Some(-(m as int))
  {
    MagnitudeOfDigits(m);
    ParseIntMinus(NatToDigits(m), m);
  }

  /** `parseInt(String(n)) == n`: what renders a number into a form field reads back as that number. */
  lemma ParseIntRoundTrip(n: int)
    ensures ParseInt(IntToString(n)) == Some(n)
  {
    if n < 0 {
      var m: nat := -n;
      assert IntToString(n) == "-" + NatToDigits(m);
      ParseIntOfNegative(m);
    } else {
      var m: nat := n;
      assert IntToString(n) == NatToDigits(m);
      ParseIntOfDigits(m);
    }
  }

  /** A field holding only whitespace (or nothing) does not parse. */
  lemma ParseIntBlank(s: string)
    requires AllWhitespace(s)
    ensures ParseInt(s) == None
  {
    assert TrimStart(s) == [];
  }

  // ---------------------------------------------------------------------------
  // Array.prototype.sort with no comparator on strings
  // ---------------------------------------------------------------------------

  /** The default sort's order on strings: lexicographic by character, a prefix first. */
  predicate StrLe(a: string, b: string)
  {
    a == [] || (b != [] && (a[0] < b[0] || (a[0] == b[0] && StrLe(a[1..], b[1..]))))
  }

  lemma {:induction false} StrLeTotal(a: string, b: string)
    ensures StrLe(a, b) || StrLe(b, a)
  {
    if a != [] && b != [] && a[0] == b[0] {
      StrLeTotal(a[1..], b[1..]);
    }
  }

  lemma {:induction false} StrLeTrans(a: string, b: string, c: string)
    requires StrLe(a, b) && StrLe(b, c)
    ensures StrLe(a, c)
  {
    if a != [] && a[0] == b[0] && b[0] == c[0] {
      StrLeTrans(a[1..], b[1..], c[1..]);
    }
  }

  lemma {:induction false} StrLeAntisym(a: string, b: string)
    requires StrLe(a, b) && StrLe(b, a)
    ensures a == b
  {
    if a != [] {
      StrLeAntisym(a[1..], b[1..]);
      assert a == [a[0]] + a[1..] && b == [b[0]] + b[1..];
    }
  }

  predicate Distinct(s: seq<string>)
  {
    forall i, j :: 0 <= i < j < |s| ==> s[i] != s[j]
  }

  /** Ascending with no repeats. */
  predicate StrictlySorted(s: seq<string>)
  {
    forall i, j :: 0 <= i < j < |s| ==> StrLe(s[i], s[j]) && s[i] != s[j]
  }

  function Insert(x: string, s: seq<string>): (r: seq<string>)
    ensures multiset(r) == multiset(s) + multiset{x}
  {
    if s == [] then [x]
    else if StrLe(x, s[0]) then [x] + s
    else
      assert s == [s[0]] + s[1..];
      [s[0]] + Insert(x, s[1..])
  }

  /** The sorted rearrangement of `xs`: an insertion sort, whose result is the one any correct
      sort gives on distinct strings. */
  function SortStrings(xs: seq<string>): (r: seq<string>)
    ensures multiset(r) == multiset(xs)
  {
    if xs == [] then []
    else
      assert xs == [xs[0]] + xs[1..];
      Insert(xs[0], SortStrings(xs[1..]))
  }

  lemma StrictlySortedTail(s: seq<string>)
    requires StrictlySorted(s) && s != []
    ensures StrictlySorted(s[1..])
  {
    forall i, j | 0 <= i < j < |s| - 1 ensures StrLe(s[1..][i], s[1..][j]) && s[1..][i] != s[1..][j] {
      assert s[1..][i] == s[i + 1] && s[1..][j] == s[j + 1];
    }
  }

  /** A value below every element of a strictly sorted list can go in front of it. */
  lemma PrependStrictlySorted(y: string, t: seq<string>)
    requires StrictlySorted(t)
    requires forall k :: 0 <= k < |t| ==> StrLe(y, t[k]) && y != t[k]
    ensures StrictlySorted([y] + t)
  {
    var r := [y] + t;
    forall i, j | 0 <= i < j < |r| ensures StrLe(r[i], r[j]) && r[i] != r[j] {
      assert r[j] == t[j - 1];
      if i > 0 { assert r[i] == t[i - 1]; }
    }
  }

  /** The head of a strictly sorted list stays below everything inserted after it. */
  lemma HeadBelowInserted(x: string, s: seq<string>, y: string)
    requires StrictlySorted(s) && s != []
    requires StrLe(s[0], x) && s[0] != x
    requires y in multiset(Insert(x, s[1..]))
    ensures StrLe(s[0], y) && s[0] != y
  {
    if y != x {
      assert y in multiset(s[1..]);
      var m :| 0 <= m < |s[1..]| && s[1..][m] == y;
      assert s[m + 1] == y;
    }
  }

  lemma {:induction false} InsertStrictlySorted(x: string, s: seq<string>)
    requires StrictlySorted(s) && x !in s
    ensures StrictlySorted(Insert(x, s))
  {
    if s != [] {
      if StrLe(x, s[0]) {
        forall j | 0 <= j < |s| ensures StrLe(x, s[j]) && x != s[j] {
          if j > 0 { StrLeTrans(x, s[0], s[j]); }
        }
        PrependStrictlySorted(x, s);
      } else {
        StrLeTotal(x, s[0]);
        StrictlySortedTail(s);
        assert x !in s[1..];
        InsertStrictlySorted(x, s[1..]);
        var t := Insert(x, s[1..]);
        forall k | 0 <= k < |t| ensures StrLe(s[0], t[k]) && s[0] != t[k] {
          assert t[k] in multiset(t);
          HeadBelowInserted(x, s, t[k]);
        }
        PrependStrictlySorted(s[0], t);
      }
    }
  }

  /** Sorting distinct strings gives a strictly ascending sequence of the same strings. */
  lemma {:induction false} SortStrictlySorted(xs: seq<string>)
    requires Distinct(xs)
    ensures StrictlySorted(SortStrings(xs))
  {
    if xs != [] {
      SortStrictlySorted(xs[1..]);
      var s := SortStrings(xs[1..]);
      assert xs[0] !in xs[1..];
      assert xs[0] !in multiset(xs[1..]);
      InsertStrictlySorted(xs[0], s);
    }
  }
}
