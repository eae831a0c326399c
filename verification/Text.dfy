// Text handling: splitting at a delimiter, decimal counts printed and read back.

module Text {
  import opened Chess

  // ---------- split ----------

  function Find(s: string, d: char): (i: nat)
    ensures i <= |s| && (i < |s| ==> s[i] == d)
    ensures forall k :: 0 <= k < i ==> s[k] != d
  {
    if s == "" then 0 else if s[0] == d then 0 else 1 + Find(s[1..], d)
  }

  // The pieces of a string that is not empty; splitting the empty one gives none.
  function Pieces(s: string, d: char): (r: seq<string>)
    ensures |r| >= 1
  {
    var i := Find(s, d);
    if i == |s| then [s] else [s[..i]] + Pieces(s[i + 1..], d)
  }

  function SplitAt(s: string, d: char): seq<string> {
    if s == "" then [] else Pieces(s, d)
  }

  method Split(s: string, d: char) returns (res: seq<string>)
    ensures res == SplitAt(s, d)
  {
    hide Pieces;
    res := [];
    if s == "" {
      return;
    }
    var begin := 0;
    assert s[0..] == s;
    while true
      invariant 0 <= begin <= |s|
      invariant res + Pieces(s[begin..], d) == Pieces(s, d)
      decreases |s| - begin
    {
      var end := begin + Find(s[begin..], d);
      PiecesStep(s, begin, end, d);
      if end == |s| {
        break;
      }
      res := res + [s[begin..end]];
      begin := end + 1;
    }
    res := res + [s[begin..]];
  }

  lemma PiecesIs(t: string, d: char)
    ensures var f := Find(t, d);
            Pieces(t, d) == if f == |t| then [t] else [t[..f]] + Pieces(t[f + 1..], d)
  {
    hide Find;
  }

  lemma PiecesStep(s: string, begin: nat, end: nat, d: char)
    requires begin <= |s| && end == begin + Find(s[begin..], d)
    ensures end <= |s|
    ensures Pieces(s[begin..], d) == if end == |s| then [s[begin..]] else [s[begin..end]] + Pieces(s[end + 1..], d)
  {
    var t := s[begin..];
    PiecesIs(t, d);
    hide *;
    if end < |s| {
      assert t[..end - begin] == s[begin..end];
      assert t[end - begin + 1..] == s[end + 1..];
    }
  }

  function Join(parts: seq<string>, d: char): string
    requires |parts| >= 1
  {
    if |parts| == 1 then parts[0] else parts[0] + [d] + Join(parts[1..], d)
  }

  predicate Free(s: string, d: char) { forall i :: 0 <= i < |s| ==> s[i] != d }

  lemma {:induction false} FindFirst(a: string, d: char, rest: string)
    requires Free(a, d)
    ensures Find(a + [d] + rest, d) == |a|
    ensures Find(a, d) == |a|
  {
    if a != "" {
      FindFirst(a[1..], d, rest);
      assert (a + [d] + rest)[1..] == a[1..] + [d] + rest;
    }
  }

  // Splitting what was joined gives the parts back, when no part holds the
  // delimiter.
  lemma {:induction false} SplitJoin(parts: seq<string>, d: char)
    requires |parts| >= 1 && forall i :: 0 <= i < |parts| ==> Free(parts[i], d)
    ensures Pieces(Join(parts, d), d) == parts
  {
    if |parts| == 1 {
      FindFirst(parts[0], d, "");
    } else {
      var a, rest := parts[0], Join(parts[1..], d);
      FindFirst(a, d, rest);
      assert (a + [d] + rest)[..|a|] == a && (a + [d] + rest)[|a| + 1..] == rest;
      SplitJoin(parts[1..], d);
    }
  }

  // ---------- decimal counts ----------

  predicate IsDigit(c: char) { '0' <= c <= '9' }

  predicate IsSpace(c: char) { c == ' ' || c == '\t' || c == '\n' || c == '\r' || c == '\U{0B}' || c == '\U{0C}' }

  function DigitOf(n: nat): char
    requires n < 10
  {
    '0' + n as char
  }

  function Decimal(n: nat): (s: string)
    ensures |s| >= 1
  {
    if n < 10 then [DigitOf(n)] else Decimal(n / 10) + [DigitOf(n % 10)]
  }

  predicate AllDigits(s: string) { forall i :: 0 <= i < |s| ==> IsDigit(s[i]) }

  predicate AllSpace(s: string) { forall i :: 0 <= i < |s| ==> IsSpace(s[i]) }

  function DigitsValue(s: string): nat
    requires AllDigits(s)
  {
    if s == "" then 0 else 10 * DigitsValue(s[..|s| - 1]) + (s[|s| - 1] as int - '0' as int)
  }

  function SpaceRun(s: string): (i: nat)
    ensures i <= |s| && AllSpace(s[..i]) && (i < |s| ==> !IsSpace(s[i]))
  {
    if s == "" || !IsSpace(s[0]) then 0
    else
      var i := 1 + SpaceRun(s[1..]);
      assert s[..i] == [s[0]] + s[1..][..i - 1];
      i
  }

  function DigitRun(s: string): (i: nat)
    ensures i <= |s| && AllDigits(s[..i]) && (i < |s| ==> !IsDigit(s[i]))
  {
    if s == "" || !IsDigit(s[0]) then 0
    else
      var i := 1 + DigitRun(s[1..]);
      assert s[..i] == [s[0]] + s[1..][..i - 1];
      i
  }

  const U64 := 0x1_0000_0000_0000_0000

  // str_to_size_t over strtoull: blanks, a sign, digits, then blanks only. With no
  // digits at all nothing is consumed and the value is zero.
  function StrToSize(s: string): Option<nat> {
    if s == "" || s[0] == '-' then None
    else
      var t := s[SpaceRun(s)..];
      var negative := t != "" && t[0] == '-';
      var u := if t != "" && (t[0] == '-' || t[0] == '+') then t[1..] else t;
      var k := DigitRun(u);
      if k == 0 then (if AllSpace(s) then Some(0) else None)
      else
        var v := DigitsValue(u[..k]);
        if v >= U64 || !AllSpace(u[k..]) then None else Some(if negative then (U64 - v) % U64 else v)
  }

  lemma {:induction false} DecimalDigits(n: nat)
    ensures AllDigits(Decimal(n)) && DigitsValue(Decimal(n)) == n
  {
    if n >= 10 {
      DecimalDigits(n / 10);
      var t, c := Decimal(n / 10), DigitOf(n % 10);
      assert (t + [c])[..|t|] == t;
    } else {
      assert [DigitOf(n)][..0] == "";
    }
  }

  lemma {:induction false} DigitRunAll(s: string)
    requires AllDigits(s)
    ensures DigitRun(s) == |s|
  {
    if s != "" { DigitRunAll(s[1..]); }
  }

  // A printed count is read back.
  lemma CountRoundTrip(n: nat)
    requires n < U64
    ensures StrToSize(Decimal(n)) == Some(n)
  {
    var s := Decimal(n);
    DecimalDigits(n);
    DigitRunAll(s);
    assert IsDigit(s[0]);
    assert SpaceRun(s) == 0 && s[0..] == s && s[..|s|] == s && s[|s|..] == "";
  }

  lemma {:induction false} SpaceRunIs(blanks: string, rest: string)
    requires AllSpace(blanks) && (rest != "" ==> !IsSpace(rest[0]))
    ensures SpaceRun(blanks + rest) == |blanks|
  {
    if blanks == "" {
      assert blanks + rest == rest;
    } else {
      SpaceRunIs(blanks[1..], rest);
      assert (blanks + rest)[1..] == blanks[1..] + rest;
    }
  }

  // A minus sign is refused only as the very first character: behind a blank the
  // wrapped value comes out instead.
  lemma NegativeRefusedIff(blanks: string, v: nat)
    requires AllSpace(blanks) && 0 < v < U64
    ensures StrToSize(blanks + "-" + Decimal(v)) == None <==> blanks == ""
    ensures blanks != "" ==> StrToSize(blanks + "-" + Decimal(v)) == Some(U64 - v)
  {
    var d := Decimal(v);
    var s, t := blanks + "-" + d, "-" + d;
    hide Decimal;
    DecimalDigits(v);
    DigitRunAll(d);
    assert s == blanks + t;
    SpaceRunIs(blanks, t);
    assert s[|blanks|..] == t && t[1..] == d && d[..|d|] == d && d[|d|..] == "";
    if blanks != "" { assert IsSpace(blanks[0]); }
  }

  // A component of blanks only reads as processor zero.
  lemma BlankIsZero(s: string)
    requires s != "" && AllSpace(s)
    ensures StrToSize(s) == Some(0)
  {
    assert s + "" == s;
    SpaceRunIs(s, "");
    assert IsSpace(s[0]) && s[|s|..] == "";
  }

  lemma {:induction false} DigitRunIs(digits: string, rest: string)
    requires AllDigits(digits) && (rest != "" ==> !IsDigit(rest[0]))
    ensures DigitRun(digits + rest) == |digits|
  {
    if digits == "" {
      assert digits + rest == rest;
    } else {
      DigitRunIs(digits[1..], rest);
      assert (digits + rest)[1..] == digits[1..] + rest;
    }
  }

  // A number with what may stand around it: the value comes out exactly if the minus
  // sign is not the very first character, it fits and only blanks follow.
  lemma NumberRead(blanks: string, sign: string, digits: string, tail: string)
    requires AllSpace(blanks) && (sign == "" || sign == "-" || sign == "+")
    requires AllDigits(digits) && digits != "" && (tail != "" ==> !IsDigit(tail[0]))
    ensures var v := DigitsValue(digits);
            StrToSize(blanks + sign + digits + tail)
            == if (blanks == "" && sign == "-") || v >= U64 || !AllSpace(tail) then None
               else Some(if sign == "-" then (U64 - v) % U64 else v)
  {
    var s, t, u := blanks + sign + digits + tail, sign + digits + tail, digits + tail;
    Heads(blanks, sign, digits);
    FourParts(blanks, sign, digits, tail);
    hide *;
    SpaceRunIs(blanks, t);
    DigitRunIs(digits, tail);
    SizeParts(s, t, u, |digits|);
  }

  lemma Heads(blanks: string, sign: string, digits: string)
    requires AllSpace(blanks) && (sign == "" || sign == "-" || sign == "+") && AllDigits(digits) && digits != ""
    ensures digits[0] != '-' && digits[0] != '+' && !IsSpace(digits[0]) && (blanks != "" ==> blanks[0] != '-')
    ensures sign != "" ==> |sign| == 1 && !IsSpace(sign[0]) && (sign[0] == '-' || sign[0] == '+')
    ensures sign == "-" <==> sign != "" && sign[0] == '-'
  {
    assert IsDigit(digits[0]) && (blanks != "" ==> IsSpace(blanks[0]));
  }

  lemma FourParts(a: string, b: string, c: string, d: string)
    requires |b| <= 1 && c != ""
    ensures var s, t, u := a + b + c + d, b + c + d, c + d;
            && s == a + t && s != "" && t != "" && s[|a|..] == t && u[..|c|] == c && u[|c|..] == d
            && s[0] == (if a == "" then t[0] else a[0]) && t[0] == (if b == "" then c[0] else b[0])
            && (b == "" ==> t == u) && (b != "" ==> t[1..] == u)
  {
  }

  lemma SizeParts(s: string, t: string, u: string, k: nat)
    requires s != "" && t == s[SpaceRun(s)..] && t != "" && k == DigitRun(u) > 0
    requires u == if t[0] == '-' || t[0] == '+' then t[1..] else t
    ensures var v := DigitsValue(u[..k]);
            StrToSize(s) == if s[0] == '-' || v >= U64 || !AllSpace(u[k..]) then None
                            else Some(if t[0] == '-' then (U64 - v) % U64 else v)
  {
    hide DigitsValue, SpaceRun, DigitRun, AllSpace, AllDigits;
  }

  // Whatever is read, blanks apart, is such a number.
  lemma OnlyNumbers(s: string) returns (blanks: string, sign: string, digits: string, tail: string)
    requires StrToSize(s).Some? && !AllSpace(s)
    ensures s == blanks + sign + digits + tail && AllSpace(blanks) && (sign == "" || sign == "-" || sign == "+")
    ensures AllDigits(digits) && digits != "" && (tail != "" ==> !IsDigit(tail[0]))
  {
    hide SpaceRun, DigitRun, AllSpace, AllDigits, DigitsValue, IsSpace;
    var i := SpaceRun(s);
    var t := s[i..];
    blanks, sign := s[..i], if t != "" && (t[0] == '-' || t[0] == '+') then t[..1] else "";
    var u := t[|sign|..];
    digits, tail := u[..DigitRun(u)], u[DigitRun(u)..];
  }

  lemma DigitsFree(s: string, c: char)
    requires AllDigits(s) && !IsDigit(c)
    ensures Free(s, c)
  {
  }
}
