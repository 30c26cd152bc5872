/** String helpers shared by the model: JavaScript's `String(n)` for
    integers, `Number.parseInt`, `String.prototype.split` and
    `Array.prototype.join`, and `' '.repeat(n)`. */
module Text {
  import opened Wrappers

  predicate IsDigit(c: char) {
    '0' <= c <= '9'
  }

  function DigitChar(d: nat): (c: char)
    requires d < 10
    ensures IsDigit(c) && c as int - '0' as int == d
  {
    (d + '0' as int) as char
  }

  function DigitValue(c: char): nat
    requires IsDigit(c)
  {
    c as int - '0' as int
  }

  /** Decimal rendering of a natural number, as `String(n)` does. */
  function NatToString(n: nat): (s: string)
    ensures |s| >= 1
    ensures forall i :: 0 <= i < |s| ==> IsDigit(s[i])
    decreases n
  {
    if n < 10 then [DigitChar(n)] else NatToString(n / 10) + [DigitChar(n % 10)]
  }

  /** `String(n)` for an integer. */
  function IntToString(n: int): string {
    if n < 0 then "-" + NatToString(-n) else NatToString(n)
  }

  /** Value of a string of decimal digits, most significant first. */
  function DigitsValue(ds: string): nat
    requires forall i :: 0 <= i < |ds| ==> IsDigit(ds[i])
  {
    if ds == [] then 0 else DigitsValue(ds[..|ds| - 1]) * 10 + DigitValue(ds[|ds| - 1])
  }

  /** Length of the longest prefix of `s` made of decimal digits. */
  function DigitRun(s: string): (k: nat)
    ensures k <= |s|
    ensures forall i :: 0 <= i < k ==> IsDigit(s[i])
    ensures k < |s| ==> !IsDigit(s[k])
  {
    if s == [] || !IsDigit(s[0]) then 0 else 1 + DigitRun(s[1..])
  }

  /** `Number.parseInt(s)` in base 10: an optional sign, then the longest
      digit prefix; no digits at all gives NaN, here None. */
  function ParseInt(s: string): Option<int> {
    var negative := |s| > 0 && s[0] == '-';
    var rest := if |s| > 0 && (s[0] == '-' || s[0] == '+') then s[1..] else s;
    var k := DigitRun(rest);
    var v: int := if k == 0 then 0 else DigitsValue(rest[..k]);
    if k == 0 then None else if negative then Some(-v) else Some(v)
  }

  lemma {:induction false} DigitsValueOfNat(n: nat)
    ensures DigitsValue(NatToString(n)) == n
    decreases n
  {
    var s := NatToString(n);
    if n >= 10 {
      DigitsValueOfNat(n / 10);
      assert s[..|s| - 1] == NatToString(n / 10);
    }
  }

  lemma {:induction false} DigitRunStopsAtNonDigit(ds: string, rest: string)
    requires forall i :: 0 <= i < |ds| ==> IsDigit(ds[i])
    requires rest == [] || !IsDigit(rest[0])
    ensures DigitRun(ds + rest) == |ds|
    decreases |ds|
  {
    if ds != [] {
      assert (ds + rest)[1..] == ds[1..] + rest;
      DigitRunStopsAtNonDigit(ds[1..], rest);
    }
  }

  /** Unsigned case of ParseIntReadsDecimalPrefix. */
  lemma ParseUnsignedPrefix(m: nat, rest: string, t: string)
    requires rest == [] || !IsDigit(rest[0])
    requires t == NatToString(m) + rest
    ensures DigitRun(t) >= 1 && DigitsValue(t[..DigitRun(t)]) == m
  {
    var ds := NatToString(m);
    DigitRunStopsAtNonDigit(ds, rest);
    DigitsValueOfNat(m);
    assert t[..|ds|] == ds;
  }

  /** `parseInt` reads back the number that `String(n)` wrote, even when
      the text goes on with something that is not a digit. */
  lemma ParseIntReadsDecimalPrefix(n: int, rest: string)
    requires rest == [] || !IsDigit(rest[0])
    ensures ParseInt(IntToString(n) + rest) == Some(n)
  {
    if n < 0 {
      ParseNegativePrefix(-n, rest);
    } else {
      ParseNonNegativePrefix(n, rest);
    }
  }

  lemma ParseNonNegativePrefix(n: nat, rest: string)
    requires rest == [] || !IsDigit(rest[0])
    ensures ParseInt(NatToString(n) + rest) == Some(n)
  {
    var s := NatToString(n) + rest;
    assert IsDigit(s[0]);
    ParseUnsignedPrefix(n, rest, s);
    var k := DigitRun(s);
    assert DigitsValue(s[..k]) == n;
  }

  lemma ParseNegativePrefix(m: nat, rest: string)
    requires rest == [] || !IsDigit(rest[0])
    requires m > 0
    ensures ParseInt("-" + NatToString(m) + rest) == Some(-(m as int))
  {
    var t := NatToString(m) + rest;
    var s := "-" + NatToString(m) + rest;
    assert s == "-" + t;
    assert s[0] == '-' && s[1..] == t;
    ParseUnsignedPrefix(m, rest, t);
    var k := DigitRun(t);
    assert DigitsValue(t[..k]) == m;
  }

  /** `' '.repeat(n)`; a negative count is not possible in the callers. */
  function Spaces(n: nat): (s: string)
    ensures |s| == n && forall i :: 0 <= i < n ==> s[i] == ' '
  {
    seq(n, _ => ' ')
  }

  /** `c.repeat(n)` for a single character. */
  function Repeat(c: char, n: nat): (s: string)
    ensures |s| == n && forall i :: 0 <= i < n ==> s[i] == c
  {
    seq(n, _ => c)
  }

  /** `parts.join(sep)`. */
  function Join(parts: seq<string>, sep: string): string {
    if parts == [] then "" else if |parts| == 1 then parts[0] else parts[0] + sep + Join(parts[1..], sep)
  }

  /** `s.split(sep)` for a non-empty separator: the pieces between the
      leftmost non-overlapping occurrences of `sep`. */
  function Split(s: string, sep: string): (r: seq<string>)
    requires sep != []
    ensures |r| >= 1
    decreases |s|
  {
    if |s| < |sep| then [s]
    else if s[..|sep|] == sep then [""] + Split(s[|sep|..], sep)
    else
      var tail := Split(s[1..], sep);
      [[s[0]] + tail[0]] + tail[1..]
  }

  /** Joining the pieces of a split with the same separator gives back the
      original text. */
  lemma {:induction false} JoinSplit(s: string, sep: string)
    requires sep != []
    ensures Join(Split(s, sep), sep) == s
    decreases |s|, 1
  {
    if |s| < |sep| {
    } else if s[..|sep|] == sep {
      JoinSplitAtSeparator(s, sep);
    } else {
      JoinSplitPastChar(s, sep);
    }
  }

  lemma {:induction false} JoinSplitAtSeparator(s: string, sep: string)
    requires sep != [] && |s| >= |sep| && s[..|sep|] == sep
    ensures Join(Split(s, sep), sep) == s
    decreases |s|, 0
  {
    var rest := s[|sep|..];
    assert Split(s, sep) == [""] + Split(rest, sep);
    JoinSplit(rest, sep);
    JoinCons("", Split(rest, sep), sep);
    assert s == sep + rest;
  }

  lemma {:induction false} JoinSplitPastChar(s: string, sep: string)
    requires sep != [] && |s| >= |sep| && s[..|sep|] != sep
    ensures Join(Split(s, sep), sep) == s
    decreases |s|, 0
  {
    var tail := Split(s[1..], sep);
    assert Split(s, sep) == [[s[0]] + tail[0]] + tail[1..];
    JoinSplit(s[1..], sep);
    JoinExtendFirst(s[0], tail, sep);
    assert s == [s[0]] + s[1..];
  }

  lemma JoinCons(p: string, rest: seq<string>, sep: string)
    requires |rest| >= 1
    ensures Join([p] + rest, sep) == p + sep + Join(rest, sep)
  {
    assert ([p] + rest)[1..] == rest;
  }

  /** Putting a character in front of the first piece puts it in front of
      the join. */
  lemma JoinExtendFirst(c: char, parts: seq<string>, sep: string)
    requires |parts| >= 1
    ensures Join([[c] + parts[0]] + parts[1..], sep) == [c] + Join(parts, sep)
  {
    if |parts| > 1 {
      JoinCons([c] + parts[0], parts[1..], sep);
      JoinCons(parts[0], parts[1..], sep);
      assert parts == [parts[0]] + parts[1..];
    }
  }

  /** A character found in neither the pieces nor the separator is not in
      their join. */
  lemma {:induction false} JoinAvoids(parts: seq<string>, sep: string, c: char)
    requires c !in sep && forall i :: 0 <= i < |parts| ==> c !in parts[i]
    ensures c !in Join(parts, sep)
    decreases |parts|
  {
    if |parts| > 1 {
      JoinAvoids(parts[1..], sep, c);
    }
  }

  /** A piece that does not contain the separator's first character splits
      into itself. */
  lemma {:induction false} SplitWithoutSeparator(p: string, sep: string)
    requires sep != [] && sep[0] !in p
    ensures Split(p, sep) == [p]
    decreases |p|
  {
    if |p| >= |sep| {
      assert p[0] in p && p[..|sep|][0] == p[0];
      assert sep[0] !in p[1..] by {
        forall i | 0 <= i < |p[1..]| ensures p[1..][i] != sep[0] {
          assert p[1..][i] == p[i + 1] && p[i + 1] in p;
        }
      }
      SplitWithoutSeparator(p[1..], sep);
      assert [p[0]] + p[1..] == p;
    }
  }

  /** Splitting cuts at the first occurrence of the separator when the text
      before it does not contain the separator's first character. */
  lemma {:induction false} SplitAtFirst(p: string, sep: string, t: string)
    requires sep != [] && sep[0] !in p
    ensures Split(p + sep + t, sep) == [p] + Split(t, sep)
    decreases |p|
  {
    var s := p + sep + t;
    if p == [] {
      assert s[..|sep|] == sep && s[|sep|..] == t;
    } else {
      assert p[0] in p && s[..|sep|][0] == p[0];
      assert sep[0] !in p[1..] by {
        forall i | 0 <= i < |p[1..]| ensures p[1..][i] != sep[0] {
          assert p[1..][i] == p[i + 1] && p[i + 1] in p;
        }
      }
      assert s[1..] == p[1..] + sep + t;
      SplitAtFirst(p[1..], sep, t);
      assert [p[0]] + p[1..] == p;
    }
  }

  /** Splitting a join at its separator gives back the pieces, when none of
      them contains the separator's first character. */
  lemma {:induction false} SplitJoin(parts: seq<string>, sep: string)
    requires sep != [] && |parts| >= 1
    requires forall i :: 0 <= i < |parts| ==> sep[0] !in parts[i]
    ensures Split(Join(parts, sep), sep) == parts
    decreases |parts|
  {
    if |parts| == 1 {
      SplitWithoutSeparator(parts[0], sep);
    } else {
      SplitJoin(parts[1..], sep);
      SplitAtFirst(parts[0], sep, Join(parts[1..], sep));
      assert parts == [parts[0]] + parts[1..];
    }
  }

  /** `pieces.filter(Boolean)` on strings: drop the empty pieces. */
  function NonEmpty(pieces: seq<string>): (r: seq<string>)
    ensures forall i :: 0 <= i < |r| ==> r[i] != ""
    ensures forall x :: x in r <==> x in pieces && x != ""
  {
    if pieces == [] then []
    else if pieces[0] == "" then NonEmpty(pieces[1..])
    else [pieces[0]] + NonEmpty(pieces[1..])
  }
}
