/**
 * String operations the client relies on: joining a property list with commas
 * (the StringBuilder loops), decimal rendering of integers (`append(int)`,
 * `SimpleDateFormat` fields), `lastIndexOf`/`substring`, and
 * `equalsIgnoreCase`. Each producer comes with the inverse it is checked
 * against: `Split` for `Join`, `ParseInt` for `IntToString`, `ParseNat` for
 * `PadDigits`.
 */
module Text {
  import opened Wrappers

  // ---------------------------------------------------------------------------
  // Joining and splitting

  /** Items separated by `sep`, with no separator before the first or after the last. */
  function Join(items: seq<string>, sep: char): string
  {
    if |items| == 0 then ""
    else if |items| == 1 then items[0]
    else items[0] + [sep] + Join(items[1..], sep)
  }

  /** Position of the first occurrence of `c` in `s`. */
  function IndexOf(s: string, c: char): (i: nat)
    requires c in s
    ensures i < |s| && s[i] == c && c !in s[..i]
  {
    if s[0] == c then 0
    else
      assert c in s[1..] by { var k :| 0 <= k < |s| && s[k] == c; assert s[1..][k - 1] == c; }
      var j := IndexOf(s[1..], c);
      assert s[..j + 1] == [s[0]] + s[1..][..j];
      j + 1
  }

  /** The reference splitter: the pieces of `s` between occurrences of `c` (empty pieces kept). */
  function Split(s: string, c: char): (parts: seq<string>)
    ensures |parts| > 0
    ensures forall k :: 0 <= k < |parts| ==> c !in parts[k]
    decreases |s|
  {
    if c !in s then [s]
    else
      var i := IndexOf(s, c);
      [s[..i]] + Split(s[i + 1..], c)
  }

  /** Splits at the first `c` only: the text before it and, if `c` occurs, the text after it. */
  function SplitFirst(s: string, c: char): (r: (string, Option<string>))
    ensures c !in r.0
    ensures r.1.None? <==> c !in s
    ensures r.1.Some? ==> s == r.0 + [c] + r.1.value
  {
    if c !in s then (s, None)
    else
      var i := IndexOf(s, c);
      assert s == s[..i] + [c] + s[i + 1..];
      (s[..i], Some(s[i + 1..]))
  }

  /** The first `c` in `a + [c] + b` is the one after `a` when `a` has none. */
  lemma IndexOfAfterPrefix(a: string, c: char, b: string)
    requires c !in a
    ensures c in a + [c] + b && IndexOf(a + [c] + b, c) == |a|
  {
    var s := a + [c] + b;
    assert s[|a|] == c;
    var i := IndexOf(s, c);
  }

  lemma SplitCons(a: string, c: char, b: string)
    requires c !in a
    ensures Split(a + [c] + b, c) == [a] + Split(b, c)
  {
    var s := a + [c] + b;
    IndexOfAfterPrefix(a, c, b);
    assert s[..|a|] == a;
    assert s[|a| + 1..] == b;
  }

  lemma SplitFirstCons(a: string, c: char, b: string)
    requires c !in a
    ensures SplitFirst(a + [c] + b, c) == (a, Some(b))
  {
    var s := a + [c] + b;
    IndexOfAfterPrefix(a, c, b);
    assert s[..|a|] == a;
    assert s[|a| + 1..] == b;
  }

  /** Appending one more item to a non-empty join adds exactly one separator. */
  lemma {:induction false} JoinSnoc(items: seq<string>, x: string, sep: char)
    requires |items| > 0
    ensures Join(items + [x], sep) == Join(items, sep) + [sep] + x
  {
    if |items| == 1 {
      assert (items + [x])[1..] == [x];
    } else {
      assert (items + [x])[1..] == items[1..] + [x];
      JoinSnoc(items[1..], x, sep);
    }
  }

  /** A character that is neither the separator nor in any item is not in the join. */
  lemma {:induction false} JoinExcludes(items: seq<string>, sep: char, ch: char)
    requires ch != sep
    requires forall k :: 0 <= k < |items| ==> ch !in items[k]
    ensures ch !in Join(items, sep)
  {
    if |items| > 1 {
      JoinExcludes(items[1..], sep, ch);
    }
  }

  /**
   * Splitting a join recovers the list, provided the list is non-empty and no
   * item contains the separator.
   */
  lemma {:induction false} SplitJoin(items: seq<string>, sep: char)
    requires |items| > 0
    requires forall k :: 0 <= k < |items| ==> sep !in items[k]
    ensures Split(Join(items, sep), sep) == items
  {
    if |items| > 1 {
      SplitCons(items[0], sep, Join(items[1..], sep));
      SplitJoin(items[1..], sep);
    }
  }

  /** Joining the pieces of a split with the same character gives back the string. */
  lemma {:induction false} JoinSplit(s: string, c: char)
    ensures Join(Split(s, c), c) == s
    decreases |s|
  {
    if c in s {
      var i := IndexOf(s, c);
      var rest := Split(s[i + 1..], c);
      JoinSplit(s[i + 1..], c);
      assert Split(s, c) == [s[..i]] + rest;
      assert ([s[..i]] + rest)[1..] == rest;
      assert s == s[..i] + [c] + s[i + 1..];
    }
  }

  /** The join begins with the first item and ends with the last one: no leading or trailing separator. */
  lemma {:induction false} JoinEnds(items: seq<string>, sep: char)
    requires |items| > 0
    ensures |Join(items, sep)| >= |items[0]| && |Join(items, sep)| >= |items[|items| - 1]|
    ensures Join(items, sep)[..|items[0]|] == items[0]
    ensures Join(items, sep)[|Join(items, sep)| - |items[|items| - 1]|..] == items[|items| - 1]
  {
    if |items| > 1 {
      JoinEnds(items[1..], sep);
      assert items[1..][|items[1..]| - 1] == items[|items| - 1];
    }
  }

  lemma ConcatAssoc(a: string, b: string, c: string)
    ensures a + b + c == a + (b + c)
  {
  }

  /** Three items joined: both separators in place. */
  lemma JoinThree(a: string, b: string, c: string, sep: char)
    ensures Join([a, b, c], sep) == a + [sep] + (b + [sep] + c)
  {
    assert [b, c][1..] == [c];
    assert Join([b, c], sep) == b + [sep] + c;
    assert [a, b, c][1..] == [b, c];
  }

  /** `s.startsWith(p)`. */
  predicate StartsWith(s: string, p: string)
  {
    |p| <= |s| && s[..|p|] == p
  }

  lemma StartsWithConcat(p: string, rest: string)
    ensures StartsWith(p + rest, p) && (p + rest)[|p|..] == rest
  {
    assert (p + rest)[..|p|] == p;
  }

  // ---------------------------------------------------------------------------
  // Decimal digits

  predicate IsDigit(ch: char) { '0' <= ch <= '9' }

  predicate AllDigits(s: string) { forall k :: 0 <= k < |s| ==> IsDigit(s[k]) }

  function DigitChar(d: nat): (ch: char)
    requires d < 10
    ensures IsDigit(ch)
  {
    (('0' as int) + d) as char
  }

  function DigitValue(ch: char): (d: nat)
    requires IsDigit(ch)
    ensures d < 10
  {
    (ch as int) - ('0' as int)
  }

  function Pow10(n: nat): (p: nat)
    ensures p >= 1
  {
    if n == 0 then 1 else 10 * Pow10(n - 1)
  }

  /** The value of a string of decimal digits (0 for the empty string). */
  function ParseNat(s: string): nat
    requires AllDigits(s)
  {
    if s == [] then 0 else ParseNat(s[..|s| - 1]) * 10 + DigitValue(s[|s| - 1])
  }

  /** Shortest decimal rendering of `n`, as Java prints a non-negative int or long. */
  function NatToString(n: nat): (s: string)
    ensures |s| > 0 && AllDigits(s)
  {
    if n < 10 then [DigitChar(n)] else NatToString(n / 10) + [DigitChar(n % 10)]
  }

  lemma {:induction false} ParseNatToString(n: nat)
    ensures ParseNat(NatToString(n)) == n
  {
    if n >= 10 {
      var s := NatToString(n);
      assert s[..|s| - 1] == NatToString(n / 10);
      ParseNatToString(n / 10);
    }
  }

  /** Java's `Integer.toString`/`StringBuilder.append(int)`: a minus sign, then the digits of the magnitude. */
  function IntToString(i: int): (s: string)
    ensures |s| > 0
    ensures i < 0 <==> s[0] == '-'
  {
    if i < 0 then "-" + NatToString(-i) else NatToString(i)
  }

  /** Reads back an optionally signed decimal integer; None for anything else. */
  function ParseInt(s: string): Option<int>
  {
    if |s| > 1 && s[0] == '-' && AllDigits(s[1..]) then
      var magnitude: int := ParseNat(s[1..]);
      Some(-magnitude)
    else if |s| > 0 && AllDigits(s) then Some(ParseNat(s))
    else None
  }

  lemma IntToStringRoundTrip(i: int)
    ensures ParseInt(IntToString(i)) == Some(i)
  {
    var s := IntToString(i);
    if i < 0 {
      assert s[1..] == NatToString(-i);
      ParseNatToString(-i);
    } else {
      ParseNatToString(i);
    }
  }

  /** The rendered integer contains no character other than digits and a leading minus. */
  lemma IntToStringChars(i: int, ch: char)
    requires ch != '-' && !IsDigit(ch)
    ensures ch !in IntToString(i)
  {
    var s := IntToString(i);
    if i < 0 {
      assert s == ['-'] + NatToString(-i);
    }
  }

  /** `v` in exactly `width` digits, zero-padded on the left (the `yyyy`, `MM`, `SSS` fields). */
  function PadDigits(v: nat, width: nat): (s: string)
    ensures |s| == width && AllDigits(s)
  {
    if width == 0 then "" else PadDigits(v / 10, width - 1) + [DigitChar(v % 10)]
  }

  lemma {:induction false} PadDigitsRoundTrip(v: nat, width: nat)
    requires v < Pow10(width)
    ensures ParseNat(PadDigits(v, width)) == v
  {
    if width > 0 {
      var s := PadDigits(v, width);
      assert s[..|s| - 1] == PadDigits(v / 10, width - 1);
      PadDigitsRoundTrip(v / 10, width - 1);
    }
  }

  lemma DigitCharValue(ch: char)
    requires IsDigit(ch)
    ensures DigitChar(DigitValue(ch)) == ch
  {
  }

  /** A string of digits is the zero-padded rendering of its own value at its own width. */
  lemma {:induction false} PadDigitsOfParse(p: string)
    requires AllDigits(p)
    ensures PadDigits(ParseNat(p), |p|) == p
  {
    if |p| > 0 {
      var init := p[..|p| - 1];
      var v := ParseNat(p);
      assert v / 10 == ParseNat(init) && v % 10 == DigitValue(p[|p| - 1]);
      PadDigitsOfParse(init);
      DigitCharValue(p[|p| - 1]);
      assert p == init + [p[|p| - 1]];
    }
  }

  lemma Pow10Values()
    ensures Pow10(2) == 100 && Pow10(3) == 1000 && Pow10(4) == 10000
  {
    assert Pow10(1) == 10;
  }

  /** A string of digits holds none of the other characters. */
  lemma DigitsExclude(s: string, ch: char)
    requires AllDigits(s) && !IsDigit(ch)
    ensures ch !in s
  {
  }

  // ---------------------------------------------------------------------------
  // lastIndexOf / substring

  /** Java's `lastIndexOf(c)`: the last position of `c`, or -1. */
  function LastIndexOf(s: string, c: char): (i: int)
    ensures -1 <= i < |s|
    ensures i >= 0 ==> s[i] == c
    ensures forall k :: i < k < |s| ==> s[k] != c
  {
    if |s| == 0 then -1
    else if s[|s| - 1] == c then |s| - 1
    else LastIndexOf(s[..|s| - 1], c)
  }

  /** `s.substring(s.lastIndexOf(c) + 1)`: everything after the last `c`, or all of `s`. */
  function AfterLast(s: string, c: char): (r: string)
    ensures c !in r
  {
    s[LastIndexOf(s, c) + 1..]
  }

  /** When `prefix` ends in `c` and `name` has no `c`, what follows the last `c` is `name`. */
  lemma AfterLastOfSuffix(prefix: string, name: string, c: char)
    requires |prefix| > 0 && prefix[|prefix| - 1] == c
    requires c !in name
    ensures AfterLast(prefix + name, c) == name
  {
    var s := prefix + name;
    var i := LastIndexOf(s, c);
    assert s[|prefix| - 1] == c;
    assert s[|prefix|..] == name;
  }

  // ---------------------------------------------------------------------------
  // equalsIgnoreCase

  /** ASCII case folding: upper-case letters to lower case, everything else unchanged. */
  function Fold(ch: char): char
  {
    if 'A' <= ch <= 'Z' then ((ch as int) + 32) as char else ch
  }

  /** `a.equalsIgnoreCase(b)` over ASCII letters. */
  predicate EqualsIgnoreCase(a: string, b: string)
  {
    |a| == |b| && forall k :: 0 <= k < |a| ==> Fold(a[k]) == Fold(b[k])
  }
}
