/**
 The few operations of Go's `strings` and `fmt` packages that the data sources
 rely on: cutting a string at the first separator (`strings.Cut`,
 `strings.SplitN(s, sep, 2)`), splitting it at every separator
 (`strings.Split`) and joining it back (`strings.Join`), and rendering an
 integer with the `%d` verb.
 */
module Strings {

  /** Index of the first `c` in `s`, or -1 when there is none (`strings.IndexByte`). */
  function IndexByte(s: string, c: char): (i: int)
    ensures -1 <= i < |s|
    ensures i == -1 <==> c !in s
    ensures 0 <= i ==> s[i] == c && c !in s[..i]
  {
    if |s| == 0 then -1
    else if s[0] == c then 0
    else
      var j := IndexByte(s[1..], c);
      if j == -1 then -1
      else
        assert s[..j + 1] == [s[0]] + s[1..][..j];
        j + 1
  }

  /** The three results of `strings.Cut(s, sep)`. */
  datatype Halves = Halves(before: string, after: string, found: bool)

  /**
   `strings.Cut`: the text before the first `sep` and the text after it; when
   `sep` does not occur, all of `s` and "".
   */
  function Cut(s: string, sep: char): (h: Halves)
    ensures h.found <==> sep in s
    ensures h.found ==> s == h.before + [sep] + h.after && sep !in h.before
    ensures !h.found ==> h.before == s && h.after == ""
  {
    var i := IndexByte(s, sep);
    if i < 0 then Halves(s, "", false)
    else
      assert s == s[..i] + [sep] + s[i + 1..];
      Halves(s[..i], s[i + 1..], true)
  }

  /** A string splits at most one way around a first separator. */
  lemma CutUnique(s: string, sep: char, a: string, b: string)
    requires s == a + [sep] + b && sep !in a
    ensures Cut(s, sep) == Halves(a, b, true)
  {
    var h := Cut(s, sep);
    assert s[|a|] == sep;
    assert |h.before| == |a|;
    assert h.before == s[..|a|] == a;
    assert h.after == s[|a| + 1..] == b;
  }

  /** `strings.Join(parts, sep)`: the pieces in order, one separator between neighbours. */
  function Join(parts: seq<string>, sep: char): (s: string)
    ensures |parts| >= 1 ==> parts[0] <= s
    ensures |parts| >= 2 ==> |s| > |parts[0]| && s[|parts[0]|] == sep
  {
    if |parts| == 0 then ""
    else if |parts| == 1 then parts[0]
    else parts[0] + [sep] + Join(parts[1..], sep)
  }

  /** Joining separator-free pieces puts exactly one separator between neighbours. */
  lemma {:induction false} JoinCount(parts: seq<string>, sep: char)
    requires |parts| >= 1
    requires forall i :: 0 <= i < |parts| ==> sep !in parts[i]
    ensures multiset(Join(parts, sep))[sep] == |parts| - 1
  {
    assert multiset(parts[0])[sep] == 0;
    if |parts| > 1 {
      var rest := parts[1..];
      assert forall i :: 0 <= i < |rest| ==> rest[i] == parts[i + 1];
      JoinCount(rest, sep);
      assert multiset(parts[0] + [sep] + Join(rest, sep)) == multiset(parts[0]) + multiset{sep} + multiset(Join(rest, sep));
    }
  }

  /** `strings.Split(s, sep)`: the pieces between the separators, never none. */
  function Split(s: string, sep: char): (parts: seq<string>)
    ensures |parts| >= 1
    ensures forall i :: 0 <= i < |parts| ==> sep !in parts[i]
    ensures Join(parts, sep) == s
    decreases |s|
  {
    var h := Cut(s, sep);
    if !h.found then [s]
    else
      var rest := Split(h.after, sep);
      assert ([h.before] + rest)[1..] == rest;
      [h.before] + rest
  }

  /** Splitting what was joined gives the pieces back. */
  lemma {:induction false} SplitJoin(parts: seq<string>, sep: char)
    requires |parts| >= 1
    requires forall i :: 0 <= i < |parts| ==> sep !in parts[i]
    ensures Split(Join(parts, sep), sep) == parts
  {
    if |parts| > 1 {
      var rest := parts[1..];
      assert Join(parts, sep) == parts[0] + [sep] + Join(rest, sep);
      CutUnique(Join(parts, sep), sep, parts[0], Join(rest, sep));
      assert forall i :: 0 <= i < |rest| ==> rest[i] == parts[i + 1];
      SplitJoin(rest, sep);
      assert parts == [parts[0]] + rest;
    }
  }

  /** `strings.Split` yields one more piece than there are separators. */
  lemma {:induction false} SplitCount(s: string, sep: char)
    ensures |Split(s, sep)| == multiset(s)[sep] + 1
    decreases |s|
  {
    var h := Cut(s, sep);
    if h.found {
      SplitCount(h.after, sep);
      assert multiset(s) == multiset(h.before) + multiset{sep} + multiset(h.after);
    } else {
      assert multiset(s)[sep] == 0;
    }
  }

  /**
   The first piece of `strings.Split` is the text before the first separator,
   and the remaining pieces joined again are the text after it.
   */
  lemma SplitHead(s: string, sep: char)
    ensures Split(s, sep)[0] == Cut(s, sep).before
    ensures |Split(s, sep)| >= 2 <==> sep in s
    ensures |Split(s, sep)| >= 2 ==> Join(Split(s, sep)[1..], sep) == Cut(s, sep).after
  {
    var h := Cut(s, sep);
    if h.found {
      assert Split(s, sep) == [h.before] + Split(h.after, sep);
    }
  }

  // ---- the `%d` verb ----

  predicate IsDigit(c: char) {
    '0' <= c <= '9'
  }

  function DigitChar(d: int): (c: char)
    requires 0 <= d < 10
    ensures IsDigit(c) && c as int - '0' as int == d
  {
    ('0' as int + d) as char
  }

  /** Decimal digits of `n`, most significant first, with no leading zero. */
  function FormatNat(n: nat): (s: string)
    ensures |s| >= 1 && forall i :: 0 <= i < |s| ==> IsDigit(s[i])
    ensures s[0] == '0' ==> n == 0
    ensures |s| > 1 ==> s[0] != '0'
  {
    if n < 10 then [DigitChar(n)] else FormatNat(n / 10) + [DigitChar(n % 10)]
  }

  /** `%d` writes exactly three digits for 100-999, the first being the hundreds digit. */
  lemma ThreeDigits(n: nat)
    ensures |FormatNat(n)| == 3 <==> 100 <= n < 1000
    ensures 100 <= n < 1000 ==> FormatNat(n)[0] == DigitChar(n / 100)
  {
    if n >= 1000 {
      assert |FormatNat(n / 100)| >= 2 by {
        assert n / 100 >= 10;
        assert FormatNat(n / 100) == FormatNat(n / 100 / 10) + [DigitChar(n / 100 % 10)];
      }
      assert FormatNat(n / 10) == FormatNat(n / 10 / 10) + [DigitChar(n / 10 % 10)];
      assert n / 10 / 10 == n / 100;
    } else if n >= 100 {
      assert FormatNat(n / 10) == FormatNat(n / 10 / 10) + [DigitChar(n / 10 % 10)];
      assert n / 10 / 10 == n / 100;
    }
  }

  /** `fmt.Sprintf("%d", n)`: a leading '-' for negative numbers, then the digits. */
  function FormatInt(n: int): (s: string)
    ensures |s| >= 1
    ensures n < 0 <==> s[0] == '-'
    ensures n < 0 ==> |s| >= 2 && forall i :: 1 <= i < |s| ==> IsDigit(s[i])
    ensures n < 0 ==> s[1] != '0'
    ensures n >= 0 && |s| > 1 ==> s[0] != '0'
    ensures n >= 0 ==> forall i :: 0 <= i < |s| ==> IsDigit(s[i])
  {
    if n < 0 then "-" + FormatNat(-n) else FormatNat(n)
  }

  /** Value of a string of decimal digits; the reference reading of `FormatNat`. */
  function ParseNat(s: string): nat
    requires forall i :: 0 <= i < |s| ==> IsDigit(s[i])
  {
    if |s| == 0 then 0
    else
      assert IsDigit(s[|s| - 1]);
      ParseNat(s[..|s| - 1]) * 10 + (s[|s| - 1] as int - '0' as int)
  }

  function ParseInt(s: string): int
    requires |s| >= 1
    requires s[0] == '-' ==> forall i :: 1 <= i < |s| ==> IsDigit(s[i])
    requires s[0] != '-' ==> forall i :: 0 <= i < |s| ==> IsDigit(s[i])
  {
    if s[0] == '-' then 0 - ParseNat(s[1..]) else ParseNat(s)
  }

  lemma {:induction false} ParseFormatNat(n: nat)
    ensures ParseNat(FormatNat(n)) == n
  {
    if n >= 10 {
      var s := FormatNat(n);
      assert s[..|s| - 1] == FormatNat(n / 10);
      ParseFormatNat(n / 10);
    }
  }

  /** `%d` loses nothing: the number can be read back from its text. */
  lemma ParseFormatInt(n: int)
    ensures ParseInt(FormatInt(n)) == n
  {
    if n < 0 {
      assert FormatInt(n)[1..] == FormatNat(-n);
      ParseFormatNat(-n);
    } else {
      ParseFormatNat(n);
    }
  }
}
