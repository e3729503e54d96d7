/** String helpers the service relies on: Python's `sep.join(parts)` and `str(n)` for a natural number. */
module Strings {

  /** `sep.join(parts)`. */
  function Join(sep: string, parts: seq<string>): string
  {
    if |parts| == 0 then ""
    else if |parts| == 1 then parts[0]
    else parts[0] + sep + Join(sep, parts[1..])
  }

  /** Where `parts[i]` starts inside `Join(sep, parts)`: every earlier part followed by one separator. */
  function Offset(sep: string, parts: seq<string>, i: nat): nat
    requires i <= |parts|
  {
    if i == 0 then 0 else |parts[0]| + |sep| + Offset(sep, parts[1..], i - 1)
  }

  /** Total length of the parts. */
  function TotalLength(parts: seq<string>): nat
  {
    if parts == [] then 0 else |parts[0]| + TotalLength(parts[1..])
  }

  /** The joined string has the parts' length plus one separator between each two neighbours. */
  lemma {:induction false} JoinLength(sep: string, parts: seq<string>)
    ensures |parts| > 0 ==> |Join(sep, parts)| == TotalLength(parts) + (|parts| - 1) * |sep|
    ensures |parts| == 0 ==> Join(sep, parts) == ""
  {
    if |parts| > 1 {
      JoinLength(sep, parts[1..]);
    }
  }

  /** Part `i` sits, unchanged, at `Offset(sep, parts, i)`: the join keeps every part and their order. */
  lemma {:induction false} JoinPartAt(sep: string, parts: seq<string>, i: nat)
    requires i < |parts|
    ensures Offset(sep, parts, i) + |parts[i]| <= |Join(sep, parts)|
    ensures Join(sep, parts)[Offset(sep, parts, i)..Offset(sep, parts, i) + |parts[i]|] == parts[i]
  {
    if i == 0 {
      if |parts| > 1 {
        assert Join(sep, parts) == parts[0] + (sep + Join(sep, parts[1..]));
      }
    } else {
      var rest := parts[1..];
      JoinPartAt(sep, rest, i - 1);
      var head := parts[0] + sep;
      var o := Offset(sep, rest, i - 1);
      assert Join(sep, parts) == head + Join(sep, rest);
      assert Offset(sep, parts, i) == |head| + o;
      assert (head + Join(sep, rest))[|head| + o..|head| + o + |parts[i]|]
          == Join(sep, rest)[o..o + |parts[i]|];
    }
  }

  /** Between part `i` and part `i + 1` there is exactly one separator. */
  lemma {:induction false} JoinSeparatorAfter(sep: string, parts: seq<string>, i: nat)
    requires i + 1 < |parts|
    ensures Offset(sep, parts, i) + |parts[i]| + |sep| == Offset(sep, parts, i + 1)
    ensures Offset(sep, parts, i + 1) <= |Join(sep, parts)|
    ensures Join(sep, parts)[Offset(sep, parts, i) + |parts[i]|..Offset(sep, parts, i + 1)] == sep
  {
    var rest := parts[1..];
    var head := parts[0] + sep;
    assert Join(sep, parts) == head + Join(sep, rest);
    if i == 0 {
      JoinPartAt(sep, rest, 0);
      assert Offset(sep, rest, 0) == 0;
      assert Join(sep, parts)[|parts[0]|..|head|] == sep;
    } else {
      JoinSeparatorAfter(sep, rest, i - 1);
      var a := Offset(sep, rest, i - 1) + |rest[i - 1]|;
      var b := Offset(sep, rest, i);
      assert (head + Join(sep, rest))[|head| + a..|head| + b] == Join(sep, rest)[a..b];
    }
  }

  function DigitChar(d: nat): (c: char)
    requires d < 10
  {
    "0123456789"[d]
  }

  function DigitValue(c: char): int
  {
    (c as int) - ('0' as int)
  }

  /** Python's `str(n)` for a natural number (decimal, no leading zeros). */
  function NatToString(n: nat): string
  {
    if n < 10 then [DigitChar(n)] else NatToString(n / 10) + [DigitChar(n % 10)]
  }

  /** Reads a string of decimal digits back into its value. */
  function DecimalValue(s: string): int
  {
    if s == [] then 0 else 10 * DecimalValue(s[..|s| - 1]) + DigitValue(s[|s| - 1])
  }

  /** `str(n)` is a non-empty run of digits with no leading zero that reads back as `n`. */
  lemma {:induction false} NatToStringRoundTrip(n: nat)
    ensures |NatToString(n)| >= 1
    ensures forall k :: 0 <= k < |NatToString(n)| ==> '0' <= NatToString(n)[k] <= '9'
    ensures |NatToString(n)| > 1 ==> NatToString(n)[0] != '0'
    ensures DecimalValue(NatToString(n)) == n
  {
    if n >= 10 {
      NatToStringRoundTrip(n / 10);
      var s := NatToString(n);
      assert s[..|s| - 1] == NatToString(n / 10);
    }
  }
}
