/**
 * The string operations the task list relies on: prefix test, whitespace
 * trimming, splitting on commas, joining, and the decimal rendering of a
 * number (as template literals print `Date.now()` or an array index).
 */
module Strings {

  /** `s.startsWith(prefix)`. */
  predicate StartsWith(s: string, prefix: string) {
    |prefix| <= |s| && s[..|prefix|] == prefix
  }

  lemma StartsWithAppend(prefix: string, rest: string)
    ensures StartsWith(prefix + rest, prefix)
  {
    assert (prefix + rest)[..|prefix|] == prefix;
  }

  lemma StartsWithLonger(s: string, prefix: string, longer: string)
    requires StartsWith(longer, prefix)
    ensures StartsWith(longer + s, prefix)
  {
    assert (longer + s)[..|prefix|] == longer[..|prefix|];
  }

  /**
   * The characters `String.prototype.trim` removes, restricted to the
   * ASCII whitespace, the line and paragraph separators, the no-break
   * space and the byte-order mark.
   */
  predicate IsWhitespace(c: char) {
    c == ' ' || c == '\t' || c == '\n' || c == '\r' || c == '\U{000B}' || c == '\U{000C}'
    || c == '\U{00A0}' || c == '\U{2028}' || c == '\U{2029}' || c == '\U{FEFF}'
  }

  /** Neither end of `s` is whitespace. */
  predicate IsTrimmed(s: string) {
    s == [] || (!IsWhitespace(s[0]) && !IsWhitespace(s[|s| - 1]))
  }

  /** `s` without its leading whitespace (`TrimStartSuffix` and `TrimStartDrops` state what it keeps and drops). */
  function TrimStart(s: string): (r: string)
    ensures |r| <= |s|
  {
    if s != [] && IsWhitespace(s[0]) then TrimStart(s[1..]) else s
  }

  /** What `TrimStart` keeps is a suffix of `s` that does not start with whitespace. */
  lemma {:induction false} TrimStartSuffix(s: string)
    ensures |TrimStart(s)| <= |s| && TrimStart(s) == s[|s| - |TrimStart(s)|..]
    ensures TrimStart(s) == [] || !IsWhitespace(TrimStart(s)[0])
  {
    if s != [] && IsWhitespace(s[0]) {
      TrimStartSuffix(s[1..]);
    }
  }

  /** `s` without its trailing whitespace (`TrimEndPrefix` and `TrimEndDrops` state what it keeps and drops). */
  function TrimEnd(s: string): (r: string)
    ensures |r| <= |s|
  {
    if s != [] && IsWhitespace(s[|s| - 1]) then TrimEnd(s[..|s| - 1]) else s
  }

  /** What `TrimEnd` keeps is a prefix of `s` that does not end with whitespace. */
  lemma {:induction false} TrimEndPrefix(s: string)
    ensures |TrimEnd(s)| <= |s| && TrimEnd(s) == s[..|TrimEnd(s)|]
    ensures TrimEnd(s) == [] || !IsWhitespace(TrimEnd(s)[|TrimEnd(s)| - 1])
  {
    if s != [] && IsWhitespace(s[|s| - 1]) {
      TrimEndPrefix(s[..|s| - 1]);
    }
  }

  /** Every character of `s` is whitespace. */
  predicate AllWhitespace(s: string) {
    forall i :: 0 <= i < |s| ==> IsWhitespace(s[i])
  }

  /** All `TrimStart` drops is whitespace. */
  lemma {:induction false} TrimStartDrops(s: string)
    ensures AllWhitespace(s[..|s| - |TrimStart(s)|])
  {
    if s != [] && IsWhitespace(s[0]) {
      TrimStartDrops(s[1..]);
      TrimStartSuffix(s[1..]);
      var n := |s| - |TrimStart(s)|;
      forall i | 0 <= i < n ensures IsWhitespace(s[..n][i]) {
        if i > 0 {
          assert s[..n][i] == s[1..][..n - 1][i - 1];
        }
      }
    }
  }

  /** All `TrimEnd` drops is whitespace. */
  lemma {:induction false} TrimEndDrops(s: string)
    ensures AllWhitespace(s[|TrimEnd(s)|..])
  {
    if s != [] && IsWhitespace(s[|s| - 1]) {
      var init := s[..|s| - 1];
      TrimEndDrops(init);
      TrimEndPrefix(init);
      var n := |TrimEnd(s)|;
      forall i | 0 <= i < |s| - n ensures IsWhitespace(s[n..][i]) {
        if n + i < |s| - 1 {
          assert s[n..][i] == init[n..][i];
        }
      }
    }
  }

  /** `s` is whitespace, then `r` starting at offset `pre`, then whitespace. */
  predicate PaddedAt(s: string, r: string, pre: nat) {
    pre + |r| <= |s| && r == s[pre..pre + |r|]
    && AllWhitespace(s[..pre]) && AllWhitespace(s[pre + |r|..])
  }

  /** `s.trim()`: trimmed at both ends (what it removes is stated by `TrimPadded`). */
  function Trim(s: string): (r: string)
    ensures IsTrimmed(r)
  {
    var front := TrimStart(s);
    var r := TrimEnd(front);
    TrimStartSuffix(s);
    TrimEndPrefix(front);
    assert r == front[..|r|];
    r
  }

  /** `s` is its trimmed form padded with whitespace on both sides. */
  lemma TrimPadded(s: string)
    ensures exists pre: nat :: PaddedAt(s, Trim(s), pre)
  {
    var front := TrimStart(s);
    var r := TrimEnd(front);
    assert Trim(s) == r;
    TrimStartSuffix(s);
    TrimEndPrefix(front);
    TrimStartDrops(s);
    TrimEndDrops(front);
    var pre := |s| - |front|;
    assert s[pre + |r|..] == front[|r|..];
    assert PaddedAt(s, r, pre);
  }

  lemma {:induction false} TrimStartOfTrimmed(s: string)
    requires s == [] || !IsWhitespace(s[0])
    ensures TrimStart(s) == s
  {
  }

  lemma {:induction false} TrimEndOfTrimmed(s: string)
    requires s == [] || !IsWhitespace(s[|s| - 1])
    ensures TrimEnd(s) == s
  {
  }

  /** Trimming a string that is already trimmed changes nothing. */
  lemma TrimOfTrimmed(s: string)
    requires IsTrimmed(s)
    ensures Trim(s) == s
  {
    TrimStartOfTrimmed(s);
    TrimEndOfTrimmed(s);
  }

  /** Trimming is idempotent. */
  lemma TrimIdempotent(s: string)
    ensures Trim(Trim(s)) == Trim(s)
  {
    TrimOfTrimmed(Trim(s));
  }

  /** A leading space makes no difference to the trimmed result. */
  lemma TrimLeadingSpace(s: string)
    ensures Trim(" " + s) == Trim(s)
  {
    assert (" " + s)[1..] == s;
  }

  /** No character of `s` is a comma. */
  predicate CommaFree(s: string)
  {
    forall i :: 0 <= i < |s| ==> s[i] != ','
  }

  /** Trimming takes nothing but whitespace away, so it adds no comma. */
  lemma TrimCommaFree(s: string)
    requires CommaFree(s)
    ensures CommaFree(Trim(s))
  {
    var front := TrimStart(s);
    var r := TrimEnd(front);
    assert Trim(s) == r;
    TrimStartSuffix(s);
    TrimEndPrefix(front);
    forall k | 0 <= k < |r| ensures r[k] != ',' {
      assert r[k] == front[k] == s[|s| - |front| + k];
    }
  }

  /** `s.split(',')`: never empty, and no piece contains a comma. */
  function Split(s: string): (r: seq<string>)
    ensures |r| >= 1
    ensures forall i :: 0 <= i < |r| ==> CommaFree(r[i])
  {
    if s == [] then [""]
    else if s[0] == ',' then [""] + Split(s[1..])
    else
      var rest := Split(s[1..]);
      [[s[0]] + rest[0]] + rest[1..]
  }

  /** `xs.join(sep)`. */
  function Join(xs: seq<string>, sep: string): string {
    if |xs| == 0 then ""
    else if |xs| == 1 then xs[0]
    else xs[0] + sep + Join(xs[1..], sep)
  }

  /** A string without commas splits into itself alone. */
  lemma {:induction false} SplitCommaFree(s: string)
    requires CommaFree(s)
    ensures Split(s) == [s]
  {
    if s != [] {
      SplitCommaFree(s[1..]);
      assert [s[0]] + s[1..] == s;
    }
  }

  /** Splitting at a comma splits each side on its own. */
  lemma {:induction false} SplitConcat(a: string, b: string)
    ensures Split(a + "," + b) == Split(a) + Split(b)
  {
    if a == [] {
      assert a + "," + b == [','] + b;
      assert ([','] + b)[1..] == b;
    } else {
      var tail := a[1..] + "," + b;
      assert a + "," + b == [a[0]] + tail;
      assert ([a[0]] + tail)[1..] == tail;
      SplitConcat(a[1..], b);
    }
  }

  /** A comma-free prefix is glued to the first piece. */
  lemma {:induction false} SplitPrepend(a: string, s: string)
    requires CommaFree(a)
    ensures Split(a + s) == [a + Split(s)[0]] + Split(s)[1..]
  {
    if a != [] {
      var tail := a[1..] + s;
      assert a[0] != ',';
      assert a + s == [a[0]] + tail;
      assert ([a[0]] + tail)[1..] == tail;
      assert CommaFree(a[1..]) by {
        forall i | 0 <= i < |a[1..]| ensures a[1..][i] != ',' {
          assert a[1..][i] == a[i + 1];
        }
      }
      SplitPrepend(a[1..], s);
      assert [a[0]] + (a[1..] + Split(s)[0]) == a + Split(s)[0];
    } else {
      assert a + s == s;
      assert a + Split(s)[0] == Split(s)[0];
      assert Split(s) == [Split(s)[0]] + Split(s)[1..];
    }
  }

  /** Joining the pieces with a comma gives back the original string. */
  lemma {:induction false} JoinSplit(s: string)
    ensures Join(Split(s), ",") == s
  {
    if s == [] {
    } else if s[0] == ',' {
      JoinSplit(s[1..]);
      var rest := Split(s[1..]);
      assert ([""] + rest)[1..] == rest;
      assert s == [','] + s[1..];
    } else {
      JoinSplit(s[1..]);
      var rest := Split(s[1..]);
      var r := [[s[0]] + rest[0]] + rest[1..];
      assert r[1..] == rest[1..];
      if |rest| == 1 {
        assert s == [s[0]] + s[1..];
      } else {
        assert rest[1..][1..] == rest[2..];
        assert Join(rest, ",") == rest[0] + "," + Join(rest[1..], ",");
        assert s == [s[0]] + s[1..];
      }
    }
  }

  /** Splitting a comma join of comma-free pieces gives back the pieces. */
  lemma {:induction false} SplitJoin(xs: seq<string>)
    requires |xs| >= 1
    requires forall i :: 0 <= i < |xs| ==> CommaFree(xs[i])
    ensures Split(Join(xs, ",")) == xs
  {
    if |xs| == 1 {
      SplitCommaFree(xs[0]);
    } else {
      SplitJoin(xs[1..]);
      SplitConcat(xs[0], Join(xs[1..], ","));
      SplitCommaFree(xs[0]);
      assert [xs[0]] + xs[1..] == xs;
    }
  }

  /** The decimal digit for `d`. */
  function DigitChar(d: nat): (c: char)
    requires d < 10
    ensures '0' <= c <= '9'
  {
    (48 + d) as char
  }

  /** The decimal rendering of `n`, without leading zeros. */
  function Decimal(n: nat): (r: string)
    ensures |r| >= 1
    ensures forall i :: 0 <= i < |r| ==> '0' <= r[i] <= '9'
    ensures n < 10 <==> |r| == 1
  {
    if n < 10 then [DigitChar(n)] else Decimal(n / 10) + [DigitChar(n % 10)]
  }

  /** Different numbers render differently. */
  lemma {:induction false} DecimalInjective(a: nat, b: nat)
    requires Decimal(a) == Decimal(b)
    ensures a == b
  {
    if a >= 10 && b >= 10 {
      var da, db := Decimal(a), Decimal(b);
      assert da[|da| - 1] == DigitChar(a % 10);
      assert db[|db| - 1] == DigitChar(b % 10);
      assert da[..|da| - 1] == Decimal(a / 10);
      assert db[..|db| - 1] == Decimal(b / 10);
      DecimalInjective(a / 10, b / 10);
    }
  }
}
