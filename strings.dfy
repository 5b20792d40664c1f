/**
 * Strings as Java's String treats them in this program: the natural order used by
 * Map.Entry.comparingByKey(), sorting a key set in that order, and decimal rendering
 * of non-negative numbers (what String.format's %s does for an int or a long).
 */
module Strings {

  // ---------------------------------------------------------------------------
  // String.compareTo: lexicographic by character, a proper prefix first.
  // ---------------------------------------------------------------------------

  predicate Less(a: string, b: string)
    decreases |a|
  {
    if a == [] then b != []
    else b != [] && (a[0] < b[0] || (a[0] == b[0] && Less(a[1..], b[1..])))
  }

  lemma {:induction false} LessIrreflexive(a: string)
    ensures !Less(a, a)
    decreases |a|
  {
    if a != [] {
      LessIrreflexive(a[1..]);
    }
  }

  lemma {:induction false} LessTransitive(a: string, b: string, c: string)
    requires Less(a, b) && Less(b, c)
    ensures Less(a, c)
    decreases |a|
  {
    if a != [] && a[0] == b[0] && b[0] == c[0] {
      LessTransitive(a[1..], b[1..], c[1..]);
    }
  }

  lemma {:induction false} LessTotal(a: string, b: string)
    requires a != b
    ensures Less(a, b) || Less(b, a)
    decreases |a|
  {
    if a != [] && b != [] && a[0] == b[0] {
      assert a == [a[0]] + a[1..] && b == [b[0]] + b[1..];
      LessTotal(a[1..], b[1..]);
    }
  }

  // ---------------------------------------------------------------------------
  // Sorting a key set ascending (the `.sorted(Map.Entry.comparingByKey())` step).
  // ---------------------------------------------------------------------------

  predicate IsMinimum(m: string, keys: set<string>)
  {
    m in keys && forall k :: k in keys ==> k == m || Less(m, k)
  }

  ghost predicate StrictlySorted(ks: seq<string>)
  {
    forall i, j :: 0 <= i < j < |ks| ==> Less(ks[i], ks[j])
  }

  lemma {:induction false} MinimumExists(keys: set<string>)
    requires keys != {}
    ensures exists m :: IsMinimum(m, keys)
    decreases |keys|
  {
    var y :| y in keys;
    if keys != {y} {
      var rest := keys - {y};
      MinimumExists(rest);
      var m :| IsMinimum(m, rest);
      if Less(m, y) {
        assert IsMinimum(m, keys);
      } else {
        LessTotal(m, y);
        forall k | k in keys && k != y
          ensures Less(y, k)
        {
          if k != m {
            LessTransitive(y, m, k);
          }
        }
        assert IsMinimum(y, keys);
      }
    } else {
      assert IsMinimum(y, keys);
    }
  }

  lemma MinimumUnique(m1: string, m2: string, keys: set<string>)
    requires IsMinimum(m1, keys) && IsMinimum(m2, keys)
    ensures m1 == m2
  {
    if m1 != m2 {
      LessTransitive(m1, m2, m1);
      LessIrreflexive(m1);
    }
  }

  /** The keys in ascending order, each once. */
  ghost function SortedKeys(keys: set<string>): (ks: seq<string>)
    decreases |keys|
  {
    if keys == {} then []
    else
      MinimumExists(keys);
      var m :| IsMinimum(m, keys);
      [m] + SortedKeys(keys - {m})
  }

  /** SortedKeys lists every key once and nothing else. */
  lemma {:induction false} SortedKeysMembers(keys: set<string>)
    ensures |SortedKeys(keys)| == |keys| && forall k :: k in SortedKeys(keys) <==> k in keys
    decreases |keys|
  {
    if keys != {} {
      MinimumExists(keys);
      var m :| IsMinimum(m, keys) && SortedKeys(keys) == [m] + SortedKeys(keys - {m});
      SortedKeysMembers(keys - {m});
    }
  }

  /** SortedKeys lists every key once, nothing else, in strictly ascending order. */
  lemma {:induction false} SortedKeysSorted(keys: set<string>)
    ensures var ks := SortedKeys(keys);
      |ks| == |keys| && (forall k :: k in ks <==> k in keys) && StrictlySorted(ks)
    decreases |keys|
  {
    SortedKeysMembers(keys);
    if keys != {} {
      MinimumExists(keys);
      var m :| IsMinimum(m, keys) && SortedKeys(keys) == [m] + SortedKeys(keys - {m});
      var rest := SortedKeys(keys - {m});
      SortedKeysSorted(keys - {m});
      MinimumThenSorted(m, rest, keys);
    }
  }

  /** A minimum followed by an ascending list of the other keys is ascending. */
  lemma MinimumThenSorted(m: string, rest: seq<string>, keys: set<string>)
    requires IsMinimum(m, keys) && StrictlySorted(rest)
    requires forall k :: k in rest ==> k in keys && k != m
    ensures StrictlySorted([m] + rest)
  {
    var ks := [m] + rest;
    forall i, j | 0 <= i < j < |ks|
      ensures Less(ks[i], ks[j])
    {
      assert ks[j] == rest[j - 1];
      if i > 0 {
        assert ks[i] == rest[i - 1];
      }
    }
  }

  lemma SortedKeysStartsWithMinimum(keys: set<string>, m: string)
    requires IsMinimum(m, keys)
    ensures SortedKeys(keys) == [m] + SortedKeys(keys - {m})
  {
    var ks := SortedKeys(keys);
    MinimumExists(keys);
    var m' :| IsMinimum(m', keys) && ks == [m'] + SortedKeys(keys - {m'});
    MinimumUnique(m, m', keys);
  }

  /** Produces the keys in ascending order by repeatedly taking the least remaining key. */
  method SortKeys(keys: set<string>) returns (ks: seq<string>)
    ensures ks == SortedKeys(keys)
  {
    var rest := keys;
    ks := [];
    while rest != {}
      invariant ks + SortedKeys(rest) == SortedKeys(keys)
      decreases rest
    {
      MinimumExists(rest);
      var m :| IsMinimum(m, rest);
      SortedKeysStartsWithMinimum(rest, m);
      ghost var tail := SortedKeys(rest - {m});
      assert ks + SortedKeys(rest) == (ks + [m]) + tail;
      ks := ks + [m];
      rest := rest - {m};
    }
  }

  // ---------------------------------------------------------------------------
  // Decimal rendering of non-negative numbers, and reading it back.
  // ---------------------------------------------------------------------------

  predicate IsDigit(c: char)
  {
    '0' <= c <= '9'
  }

  predicate AllDigits(s: string)
  {
    forall i :: 0 <= i < |s| ==> IsDigit(s[i])
  }

  function DigitChar(d: nat): (c: char)
    requires d < 10
    ensures IsDigit(c)
  {
    ('0' as int + d) as char
  }

  function DigitValue(c: char): (d: nat)
    requires IsDigit(c)
    ensures d < 10
  {
    c as int - '0' as int
  }

  /** The shortest decimal numeral for n, without sign or leading zeros. */
  function DecimalString(n: nat): (s: string)
    ensures s != [] && AllDigits(s)
    ensures |s| > 1 ==> s[0] != '0'
    decreases n
  {
    if n < 10 then [DigitChar(n)] else DecimalString(n / 10) + [DigitChar(n % 10)]
  }

  /** The value of a numeral. */
  function DecimalValue(s: string): nat
    requires AllDigits(s)
    decreases |s|
  {
    if s == [] then 0 else 10 * DecimalValue(s[..|s| - 1]) + DigitValue(s[|s| - 1])
  }

  lemma {:induction false} DecimalRoundTrip(n: nat)
    ensures DecimalValue(DecimalString(n)) == n
    decreases n
  {
    if n >= 10 {
      DecimalRoundTrip(n / 10);
      var s := DecimalString(n);
      assert s[..|s| - 1] == DecimalString(n / 10);
    }
  }

  /** A numeral as `%s` prints one: non-empty, all digits, and no leading zero unless it is "0". */
  predicate Canonical(s: string)
  {
    s != [] && AllDigits(s) && (|s| > 1 ==> s[0] != '0')
  }

  lemma {:induction false} LeadingDigitPositive(s: string)
    requires s != [] && AllDigits(s) && s[0] != '0'
    ensures DecimalValue(s) >= 1
    decreases |s|
  {
    if |s| > 1 {
      LeadingDigitPositive(s[..|s| - 1]);
    }
  }

  /** A canonical numeral is the one DecimalString prints for its value. */
  lemma {:induction false} CanonicalNumeral(s: string)
    requires Canonical(s)
    ensures DecimalString(DecimalValue(s)) == s
    decreases |s|
  {
    if |s| > 1 {
      var prefix := s[..|s| - 1];
      LeadingDigitPositive(prefix);
      CanonicalNumeral(prefix);
      var v := DecimalValue(s);
      assert v / 10 == DecimalValue(prefix) && v % 10 == DigitValue(s[|s| - 1]);
      assert s == prefix + [s[|s| - 1]];
    }
  }

  /** The length of the longest prefix of s made of digits. */
  function DigitSpan(s: string): (k: nat)
    ensures k <= |s| && AllDigits(s[..k])
    ensures k < |s| ==> !IsDigit(s[k])
    decreases |s|
  {
    if s == [] || !IsDigit(s[0]) then 0 else 1 + DigitSpan(s[1..])
  }

  lemma {:induction false} DigitSpanOfNumeral(digits: string, rest: string)
    requires AllDigits(digits)
    requires rest != [] && !IsDigit(rest[0])
    ensures DigitSpan(digits + rest) == |digits|
    decreases |digits|
  {
    var s := digits + rest;
    if digits == [] {
      assert s == rest;
    } else {
      assert s[0] == digits[0] && IsDigit(s[0]);
      assert DigitSpan(s) == 1 + DigitSpan(s[1..]);
      assert s[1..] == digits[1..] + rest;
      DigitSpanOfNumeral(digits[1..], rest);
    }
  }
}
