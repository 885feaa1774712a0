/** Sequence and string helpers shared by the models of utils.py:
    substring occurrence, Python's `sep.join(parts)`, plain concatenation
    of a list of strings, and decimal formatting of integers as done by
    Python's f-strings (`f"{i}"`). */
module Strings {

  /** `pat` occurs in `s` starting at index `i`. */
  predicate OccursAt(s: string, pat: string, i: nat) {
    i + |pat| <= |s| && s[i..i + |pat|] == pat
  }

  /** `pat` occurs nowhere in `s`. */
  predicate Free(s: string, pat: string) {
    forall i: nat :: i <= |s| ==> !OccursAt(s, pat, i)
  }

  /** Python's `sep.join(parts)`. */
  function Join(sep: string, parts: seq<string>): (r: string)
    ensures |parts| == 0 ==> r == ""
    ensures |parts| == 1 ==> r == parts[0]
  {
    if |parts| == 0 then ""
    else if |parts| == 1 then parts[0]
    else parts[0] + sep + Join(sep, parts[1..])
  }

  /** The concatenation of `parts`, in order (Python's `s += part` in a loop). */
  function Concat(parts: seq<string>): string
  {
    if |parts| == 0 then "" else parts[0] + Concat(parts[1..])
  }

  /** Appending `sep` to every part. */
  function Terminate(parts: seq<string>, sep: string): (r: seq<string>)
    ensures |r| == |parts|
    ensures forall i :: 0 <= i < |parts| ==> r[i] == parts[i] + sep
  {
    seq(|parts|, i requires 0 <= i < |parts| => parts[i] + sep)
  }

  lemma {:induction false} ConcatAppend(a: seq<string>, b: seq<string>)
    ensures Concat(a + b) == Concat(a) + Concat(b)
  {
    if |a| == 0 {
      assert a + b == b;
    } else {
      assert (a + b)[1..] == a[1..] + b;
      ConcatAppend(a[1..], b);
    }
  }

  /** Joining two non-empty lists puts exactly one separator between them. */
  lemma {:induction false} JoinAppend(sep: string, a: seq<string>, b: seq<string>)
    requires |a| > 0 && |b| > 0
    ensures Join(sep, a + b) == Join(sep, a) + sep + Join(sep, b)
  {
    if |a| == 1 {
      assert (a + b)[1..] == b;
    } else {
      assert (a + b)[1..] == a[1..] + b;
      JoinAppend(sep, a[1..], b);
    }
  }

  /** Each part of a join sits between the join of the parts before it and
      the join of the parts after it, separated by exactly one `sep`. */
  lemma {:induction false} JoinSplitAt(sep: string, parts: seq<string>, k: nat)
    requires k < |parts|
    ensures Join(sep, parts) ==
      (if k == 0 then "" else Join(sep, parts[..k]) + sep)
      + parts[k]
      + (if k == |parts| - 1 then "" else sep + Join(sep, parts[k + 1..]))
  {
    var front, tail := parts[..k], parts[k + 1..];
    if k > 0 {
      assert parts == front + parts[k..];
      JoinAppend(sep, front, parts[k..]);
    }
    if k < |parts| - 1 {
      assert parts[k..] == [parts[k]] + tail;
      JoinAppend(sep, [parts[k]], tail);
    } else {
      assert parts[k..] == [parts[k]];
    }
  }

  /** Terminating every part by `sep` and concatenating is joining by `sep`
      followed by one trailing `sep`. */
  lemma {:induction false} ConcatTerminated(parts: seq<string>, sep: string)
    requires |parts| > 0
    ensures Concat(Terminate(parts, sep)) == Join(sep, parts) + sep
  {
    var t := Terminate(parts, sep);
    if |parts| == 1 {
      assert t[1..] == [];
    } else {
      assert t[1..] == Terminate(parts[1..], sep);
      ConcatTerminated(parts[1..], sep);
    }
  }

  /** The three parts of a framed text `p + x + q`. */
  lemma Framed(p: string, x: string, q: string)
    ensures var t := p + x + q;
      |t| == |p| + |x| + |q| && t[..|p|] == p && t[|p|..|p| + |x|] == x && t[|p| + |x|..] == q
  {
  }

  /** The decimal digit character for `d`. */
  function DigitChar(d: nat): (c: char)
    requires d < 10
    ensures '0' <= c <= '9'
  {
    ('0' as int + d) as char
  }

  predicate IsDigit(c: char) {
    '0' <= c <= '9'
  }

  /** Decimal representation of a natural number, without leading zeros. */
  function NatToString(n: nat): (r: string)
    ensures |r| > 0
    ensures forall i :: 0 <= i < |r| ==> IsDigit(r[i])
    ensures r[0] == '0' ==> n == 0
    decreases n
  {
    if n < 10 then [DigitChar(n)] else NatToString(n / 10) + [DigitChar(n % 10)]
  }

  /** Python's `str(i)` for an `int`: a minus sign for negative values. */
  function IntToString(i: int): (r: string)
    ensures |r| > 0
    ensures r[0] == '-' <==> i < 0
    ensures forall k :: 0 <= k < |r| ==> IsDigit(r[k]) || (k == 0 && r[k] == '-')
  {
    if i < 0 then "-" + NatToString(-i) else NatToString(i)
  }

  /** Reads back a string of decimal digits. */
  function ParseNat(s: string): nat
  {
    if |s| == 0 then 0
    else
      var d := s[|s| - 1] as int - '0' as int;
      ParseNat(s[..|s| - 1]) * 10 + (if 0 <= d < 10 then d else 0)
  }

  /** Reads back an optionally negative decimal integer. */
  function ParseInt(s: string): int
  {
    if |s| > 0 && s[0] == '-' then -(ParseNat(s[1..]) as int) else ParseNat(s)
  }

  lemma {:induction false} ParseNatToString(n: nat)
    ensures ParseNat(NatToString(n)) == n
    decreases n
  {
    if n >= 10 {
      var s := NatToString(n);
      assert s[..|s| - 1] == NatToString(n / 10);
      ParseNatToString(n / 10);
    }
  }

  /** Decimal formatting loses nothing: the printed integer reads back as itself. */
  lemma IntToStringRoundTrip(i: int)
    ensures ParseInt(IntToString(i)) == i
  {
    if i < 0 {
      assert IntToString(i)[1..] == NatToString(-i);
      ParseNatToString(-i);
    } else {
      ParseNatToString(i);
    }
  }

  /** Decimal formatting is injective. */
  lemma IntToStringInjective(i: int, j: int)
    requires IntToString(i) == IntToString(j)
    ensures i == j
  {
    IntToStringRoundTrip(i);
    IntToStringRoundTrip(j);
  }
}
