/**
 * The text `JSON.stringify` gives for an array of integer ids (`[1,2,3]`), which the
 * bulk-delete handlers append to their request URL, and a decoder for that text that
 * serves as the serialiser's inverse.
 */
module Json {
  import opened Common

  predicate IsDigit(c: char) { '0' <= c <= '9' }

  predicate AllDigits(s: string) { forall k :: 0 <= k < |s| ==> IsDigit(s[k]) }

  function DigitChar(d: nat): (c: char)
    requires d < 10
    ensures IsDigit(c)
  {
    ('0' as int + d) as char
  }

  function DigitValue(c: char): nat
    requires IsDigit(c)
  {
    c as int - '0' as int
  }

  /**
   * Decimal text of a natural number, most significant digit first, without leading
   * zeros: only 0 itself is written with a leading `0`.
   */
  function NatText(n: nat): (s: string)
    ensures |s| >= 1 && AllDigits(s)
    ensures s[0] == '0' <==> n == 0
    ensures s[0] == '0' ==> |s| == 1
    decreases n
  {
    if n < 10 then [DigitChar(n)] else NatText(n / 10) + [DigitChar(n % 10)]
  }

  /** Decimal text of an integer id, with a leading `-` for a negative one. */
  function IntText(i: int): (s: string)
    ensures |s| >= 1 && ',' !in s && ']' !in s
  {
    if i < 0 then "-" + NatText(-i) else NatText(i)
  }

  /** The ids joined with `,`, as the array serialiser writes them. */
  function JoinIds(ids: seq<int>): (s: string)
    ensures s == [] <==> ids == []
  {
    if ids == [] then ""
    else if |ids| == 1 then IntText(ids[0])
    else IntText(ids[0]) + "," + JoinIds(ids[1..])
  }

  /** `JSON.stringify(ids)` for a list of integers. */
  function IdArrayText(ids: seq<int>): string
  {
    "[" + JoinIds(ids) + "]"
  }

  // ---------------------------------------------------------------------------
  // The decoder: the reading a server gives the `checkedList` parameter.

  /** The value of a string of decimal digits. */
  function NatValue(s: string): nat
    requires AllDigits(s)
  {
    if s == [] then 0 else NatValue(s[..|s| - 1]) * 10 + DigitValue(s[|s| - 1])
  }

  /** A JSON integer's digits: non-empty, and no leading zero unless it is `0` itself. */
  predicate CanonicalDigits(s: string)
  {
    |s| > 0 && AllDigits(s) && (s[0] == '0' ==> |s| == 1)
  }

  /** A JSON integer: canonical digits, or `-` and canonical digits of a non-zero magnitude. */
  function ParseInt(t: string): Option<int>
  {
    if CanonicalDigits(t) then Some(NatValue(t))
    else if |t| > 1 && t[0] == '-' && CanonicalDigits(t[1..]) && t[1] != '0' then
      var magnitude: int := NatValue(t[1..]);
      Some(-magnitude)
    else None
  }

  /** The index of the first comma, or the length when there is none. */
  function CommaIndex(s: string): (i: nat)
    ensures i <= |s|
    ensures i < |s| ==> s[i] == ','
    ensures forall k :: 0 <= k < i ==> s[k] != ','
  {
    if s == [] || s[0] == ',' then 0 else 1 + CommaIndex(s[1..])
  }

  function DecodeItems(s: string): Option<seq<int>>
    decreases |s|
  {
    var i := CommaIndex(s);
    var head := ParseInt(s[..i]);
    if head.None? then None
    else if i == |s| then Some([head.value])
    else
      match DecodeItems(s[i + 1..])
      case None => None
      case Some(rest) => Some([head.value] + rest)
  }

  function DecodeIdArray(s: string): Option<seq<int>>
  {
    if |s| >= 2 && s[0] == '[' && s[|s| - 1] == ']' then
      var body := s[1..|s| - 1];
      if body == [] then Some([]) else DecodeItems(body)
    else None
  }

  // ---------------------------------------------------------------------------
  // Round trip.

  lemma {:induction false} NatTextRoundTrip(n: nat)
    ensures NatValue(NatText(n)) == n
    decreases n
  {
    var s := NatText(n);
    if n < 10 {
      assert s[..|s| - 1] == [];
    } else {
      assert s[..|s| - 1] == NatText(n / 10);
      NatTextRoundTrip(n / 10);
    }
  }

  lemma IntTextRoundTrip(i: int)
    ensures ParseInt(IntText(i)) == Some(i)
  {
    var t := IntText(i);
    if i < 0 {
      assert t[1..] == NatText(-i);
      assert t[0] == '-';
      assert t[1] == NatText(-i)[0];
      assert !AllDigits(t) by { assert !IsDigit(t[0]); }
      NatTextRoundTrip(-i);
    } else {
      assert t == NatText(i);
      NatTextRoundTrip(i);
    }
  }

  /** `DigitChar` and `DigitValue` are inverse. */
  lemma DigitRoundTrip(c: char)
    requires IsDigit(c)
    ensures DigitChar(DigitValue(c)) == c
  {
  }

  /** Canonical digits are exactly the text `NatText` writes for their value. */
  lemma {:induction false} CanonicalDigitsAreNatText(s: string)
    requires CanonicalDigits(s)
    ensures NatText(NatValue(s)) == s
    decreases |s|
  {
    var d := DigitValue(s[|s| - 1]);
    DigitRoundTrip(s[|s| - 1]);
    if |s| == 1 {
      assert s[..|s| - 1] == [];
      assert s == [s[0]];
    } else {
      var p := s[..|s| - 1];
      assert p[0] == s[0];
      assert CanonicalDigits(p) by {
        forall k | 0 <= k < |p| ensures IsDigit(p[k]) {
          assert p[k] == s[k];
        }
      }
      CanonicalDigitsAreNatText(p);
      assert NatValue(p) != 0;
      var n := NatValue(s);
      assert n == NatValue(p) * 10 + d;
      assert n / 10 == NatValue(p) && n % 10 == d;
      assert NatText(n) == NatText(NatValue(p)) + [DigitChar(d)];
      assert s == p + [s[|s| - 1]];
    }
  }

  /**
   * The decoder accepts only the serialiser's own text: whatever `ParseInt` reads as a
   * number is exactly how that number is written, so `007` and `-0` are refused.
   */
  lemma ParseIntOnlyCanonical(t: string)
    requires ParseInt(t).Some?
    ensures IntText(ParseInt(t).value) == t
  {
    if CanonicalDigits(t) {
      CanonicalDigitsAreNatText(t);
    } else {
      var m := t[1..];
      CanonicalDigitsAreNatText(m);
      assert NatValue(m) != 0;
      assert t == "-" + m;
    }
  }

  lemma {:induction false} DecodeJoined(ids: seq<int>)
    requires ids != []
    ensures DecodeItems(JoinIds(ids)) == Some(ids)
  {
    var s := JoinIds(ids);
    var head := IntText(ids[0]);
    IntTextRoundTrip(ids[0]);
    if |ids| == 1 {
      assert CommaIndex(s) == |s|;
      assert s[..|s|] == head;
      assert ids == [ids[0]];
    } else {
      var tail := JoinIds(ids[1..]);
      assert s == head + "," + tail;
      assert s[|head|] == ',';
      assert forall k :: 0 <= k < |head| ==> s[k] == head[k];
      assert CommaIndex(s) == |head|;
      assert s[..|head|] == head;
      assert s[|head| + 1..] == tail;
      DecodeJoined(ids[1..]);
      assert [ids[0]] + ids[1..] == ids;
    }
  }

  /** Decoding the serialised id list gives back exactly the ids, in order. */
  lemma IdArrayRoundTrip(ids: seq<int>)
    ensures DecodeIdArray(IdArrayText(ids)) == Some(ids)
  {
    var s := IdArrayText(ids);
    assert s[1..|s| - 1] == JoinIds(ids);
    if ids != [] {
      DecodeJoined(ids);
    }
  }

  /** Two different selections never produce the same text. */
  lemma IdArrayInjective(a: seq<int>, b: seq<int>)
    requires IdArrayText(a) == IdArrayText(b)
    ensures a == b
  {
    IdArrayRoundTrip(a);
    IdArrayRoundTrip(b);
  }
}
