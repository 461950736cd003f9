/** The token that routes a request: strEncode and strDecode of grpc.go (base64 as in section 4 of RFC 4648)
    and the reading of the decoded token in options.go. */
module Token {
  import opened Wrappers
  import opened Text

  predicate IsBytes(s: string) {
    forall i :: 0 <= i < |s| ==> s[i] as int < 256
  }

  // The alphabet.

  function Digit(n: nat): char
    requires n < 64
  {
    if n < 26 then ('A' as int + n) as char
    else if n < 52 then ('a' as int + n - 26) as char
    else if n < 62 then ('0' as int + n - 52) as char
    else if n == 62 then '+' else '/'
  }

  function Undigit(c: char): (r: Option<nat>)
    ensures r.Some? ==> r.value < 64
  {
    if 'A' <= c <= 'Z' then Some(c as int - 'A' as int)
    else if 'a' <= c <= 'z' then Some(c as int - 'a' as int + 26)
    else if '0' <= c <= '9' then Some(c as int - '0' as int + 52)
    else if c == '+' then Some(62) else if c == '/' then Some(63) else None
  }

  lemma DigitUndigit(n: nat)
    requires n < 64
    ensures Undigit(Digit(n)) == Some(n) && Digit(n) !in ['=', '\r', '\n']
  {}

  /** The alphabet: capitals, small letters, digits, plus and slash, each row in its order. */
  lemma Alphabet(n: nat)
    requires n < 64
    ensures Digit(0) == 'A' && Digit(25) == 'Z' && Digit(26) == 'a' && Digit(51) == 'z'
    ensures Digit(52) == '0' && Digit(61) == '9' && Digit(62) == '+' && Digit(63) == '/'
    ensures n !in [25, 51, 61, 62, 63] ==> Digit(n + 1) as int == Digit(n) as int + 1
  {}

  lemma UndigitDigit(c: char)
    requires Undigit(c).Some?
    ensures Digit(Undigit(c).value) == c
  {}

  // strEncode

  function Encode(s: string): string
    requires IsBytes(s)
  {
    if s == "" then ""
    else
      var a := s[0] as int;
      if |s| == 1 then [Digit(a / 4), Digit(a % 4 * 16), '=', '=']
      else
        var b := s[1] as int;
        if |s| == 2 then [Digit(a / 4), Digit(a % 4 * 16 + b / 16), Digit(b % 16 * 4), '=']
        else
          var c := s[2] as int;
          [Digit(a / 4), Digit(a % 4 * 16 + b / 16), Digit(b % 16 * 4 + c / 64), Digit(c % 64)] + Encode(s[3..])
  }

  // strDecode

  /** The decoder passes over line ends. */
  function Strip(s: string): (r: string)
    ensures forall i :: 0 <= i < |r| ==> r[i] != '\r' && r[i] != '\n'
  {
    if s == "" then "" else if s[0] == '\r' || s[0] == '\n' then Strip(s[1..]) else [s[0]] + Strip(s[1..])
  }

  function First(d0: nat, d1: nat): char
    requires d0 < 64 && d1 < 64
  {
    (d0 * 4 + d1 / 16) as char
  }

  function Second(d1: nat, d2: nat): char
    requires d1 < 64 && d2 < 64
  {
    (d1 % 16 * 16 + d2 / 4) as char
  }

  function Third(d2: nat, d3: nat): char
    requires d2 < 64 && d3 < 64
  {
    (d2 % 4 * 64 + d3) as char
  }

  /** Groups of four, the last one padded if need be. Bits that are left over are not looked at. */
  function DecodeGroups(s: string): Option<string> {
    if s == "" then Some("")
    else if |s| < 4 || Undigit(s[0]).None? || Undigit(s[1]).None? then None
    else
      var d0, d1, d2, d3 := Undigit(s[0]).value, Undigit(s[1]).value, Undigit(s[2]), Undigit(s[3]);
      if s[2..] == "==" then Some([First(d0, d1)])
      else if d2.None? then None
      else if s[3..] == "=" then Some([First(d0, d1), Second(d1, d2.value)])
      else if d3.None? then None
      else
        var rest := DecodeGroups(s[4..]);
        if rest.None? then None
        else Some([First(d0, d1), Second(d1, d2.value), Third(d2.value, d3.value)] + rest.value)
  }

  /** The bits that a padded group leaves over are zero. */
  predicate Canonical(s: string) {
    if |s| < 4 then true
    else if s[2..] == "==" then Undigit(s[1]).Some? && Undigit(s[1]).value % 16 == 0
    else if s[3..] == "=" then Undigit(s[2]).Some? && Undigit(s[2]).value % 4 == 0
    else Canonical(s[4..])
  }

  /** None stands for a decoding error. */
  function Decode(s: string): Option<string> {
    DecodeGroups(Strip(s))
  }

  lemma {:induction false} StripPlain(s: string)
    requires forall i :: 0 <= i < |s| ==> s[i] != '\r' && s[i] != '\n'
    ensures Strip(s) == s
  {
    if s != "" { StripPlain(s[1..]); }
  }

  lemma PlainDigit(n: nat)
    requires n < 64
    ensures Digit(n) != '\r' && Digit(n) != '\n'
  {}

  lemma {:induction false} EncodePlain(s: string)
    requires IsBytes(s)
    ensures forall i :: 0 <= i < |Encode(s)| ==> Encode(s)[i] != '\r' && Encode(s)[i] != '\n'
  {
    forall n | 0 <= n < 64 ensures Digit(n) != '\r' && Digit(n) != '\n' { PlainDigit(n); }
    if |s| > 2 { EncodePlain(s[3..]); }
  }

  lemma GroupOfThree(a: char, b: char, c: char)
    requires a as int < 256 && b as int < 256 && c as int < 256
    ensures var d1, d2 := a as int % 4 * 16 + b as int / 16, b as int % 16 * 4 + c as int / 64;
            && d1 < 64 && d2 < 64
            && First(a as int / 4, d1) == a && Second(d1, d2) == b && Third(d2, c as int % 64) == c
  {}

  lemma GroupOfTwo(a: char, b: char)
    requires a as int < 256 && b as int < 256
    ensures var d1, d2 := a as int % 4 * 16 + b as int / 16, b as int % 16 * 4;
            && d1 < 64 && d2 < 64 && d2 % 4 == 0
            && First(a as int / 4, d1) == a && Second(d1, d2) == b
  {}

  lemma OneByte(e: string, d0: nat, d1: nat)
    requires d0 < 64 && d1 < 64 && e == [Digit(d0), Digit(d1), '=', '=']
    ensures DecodeGroups(e) == Some([First(d0, d1)]) && (Canonical(e) <==> d1 % 16 == 0)
  {
    DigitUndigit(d0);
    DigitUndigit(d1);
    assert e[2..] == "==";
  }

  lemma TwoBytes(e: string, d0: nat, d1: nat, d2: nat)
    requires d0 < 64 && d1 < 64 && d2 < 64 && e == [Digit(d0), Digit(d1), Digit(d2), '=']
    ensures DecodeGroups(e) == Some([First(d0, d1), Second(d1, d2)]) && (Canonical(e) <==> d2 % 4 == 0)
  {
    DigitUndigit(d0);
    DigitUndigit(d1);
    DigitUndigit(d2);
    assert e[2..][0] != '=';
    assert e[3..] == "=";
  }

  lemma ThreeBytes(e: string, d0: nat, d1: nat, d2: nat, d3: nat, rest: string)
    requires d0 < 64 && d1 < 64 && d2 < 64 && d3 < 64 && DecodeGroups(rest).Some?
    requires e == [Digit(d0), Digit(d1), Digit(d2), Digit(d3)] + rest
    ensures DecodeGroups(e) == Some([First(d0, d1), Second(d1, d2), Third(d2, d3)] + DecodeGroups(rest).value)
    ensures Canonical(e) <==> Canonical(rest)
  {
    DigitUndigit(d0);
    DigitUndigit(d1);
    DigitUndigit(d2);
    DigitUndigit(d3);
    assert e[2..][0] != '=' && e[3..][0] != '=' && e[4..] == rest;
  }

  lemma DecodeOne(s: string)
    requires IsBytes(s) && |s| == 1
    ensures DecodeGroups(Encode(s)) == Some(s) && Canonical(Encode(s))
  {
    GroupOfThree(s[0], 0 as char, 0 as char);
    OneByte(Encode(s), s[0] as int / 4, s[0] as int % 4 * 16);
    assert s == [s[0]];
  }

  lemma DecodeTwo(s: string)
    requires IsBytes(s) && |s| == 2
    ensures DecodeGroups(Encode(s)) == Some(s) && Canonical(Encode(s))
  {
    var a, b := s[0] as int, s[1] as int;
    var d0, d1, d2 := a / 4, a % 4 * 16 + b / 16, b % 16 * 4;
    GroupOfTwo(s[0], s[1]);
    assert Encode(s) == [Digit(d0), Digit(d1), Digit(d2), '='];
    TwoBytes(Encode(s), d0, d1, d2);
    assert s == [s[0], s[1]];
  }

  lemma DecodeThree(e: string, a: char, b: char, c: char, rest: string)
    requires a as int < 256 && b as int < 256 && c as int < 256 && DecodeGroups(rest).Some? && Canonical(rest)
    requires e == [Digit(a as int / 4), Digit(a as int % 4 * 16 + b as int / 16),
                   Digit(b as int % 16 * 4 + c as int / 64), Digit(c as int % 64)] + rest
    ensures DecodeGroups(e) == Some([a, b, c] + DecodeGroups(rest).value) && Canonical(e)
  {
    GroupOfThree(a, b, c);
    ThreeBytes(e, a as int / 4, a as int % 4 * 16 + b as int / 16, b as int % 16 * 4 + c as int / 64, c as int % 64,
               rest);
  }

  lemma {:induction false} DecodeGroupsOfEncode(s: string)
    requires IsBytes(s)
    ensures DecodeGroups(Encode(s)) == Some(s) && Canonical(Encode(s))
  {
    if |s| == 1 {
      DecodeOne(s);
    } else if |s| == 2 {
      DecodeTwo(s);
    } else if |s| > 2 {
      DecodeGroupsOfEncode(s[3..]);
      DecodeThree(Encode(s), s[0], s[1], s[2], Encode(s[3..]));
      assert s == [s[0], s[1], s[2]] + s[3..];
    }
  }

  /** Decoding undoes encoding, for all byte strings. */
  lemma DecodeOfEncode(s: string)
    requires IsBytes(s)
    ensures Decode(Encode(s)) == Some(s)
  {
    EncodePlain(s);
    StripPlain(Encode(s));
    DecodeGroupsOfEncode(s);
  }

  lemma ThreeOfGroup(d0: nat, d1: nat, d2: nat, d3: nat)
    requires d0 < 64 && d1 < 64 && d2 < 64 && d3 < 64
    ensures var a, b, c := First(d0, d1) as int, Second(d1, d2) as int, Third(d2, d3) as int;
            && a < 256 && b < 256 && c < 256
            && a / 4 == d0 && a % 4 * 16 + b / 16 == d1 && b % 16 * 4 + c / 64 == d2 && c % 64 == d3
  {}

  lemma EncodePadded(s: string)
    requires DecodeGroups(s).Some? && Canonical(s) && s != "" && (s[2..] == "==" || s[3..] == "=")
    ensures IsBytes(DecodeGroups(s).value) && Encode(DecodeGroups(s).value) == s
  {
    UndigitDigit(s[0]);
    UndigitDigit(s[1]);
    var d0, d1 := Undigit(s[0]).value, Undigit(s[1]).value;
    if s[2..] == "==" {
      ThreeOfGroup(d0, d1, 0, 0);
      assert s == [s[0], s[1]] + s[2..];
    } else {
      UndigitDigit(s[2]);
      ThreeOfGroup(d0, d1, Undigit(s[2]).value, 0);
      assert s == [s[0], s[1], s[2]] + s[3..];
    }
  }

  lemma EncodeFull(s: string)
    requires DecodeGroups(s).Some? && s != "" && s[2..] != "==" && s[3..] != "="
    requires IsBytes(DecodeGroups(s[4..]).value) && Encode(DecodeGroups(s[4..]).value) == s[4..]
    ensures IsBytes(DecodeGroups(s).value) && Encode(DecodeGroups(s).value) == s
  {
    UndigitDigit(s[0]);
    UndigitDigit(s[1]);
    UndigitDigit(s[2]);
    UndigitDigit(s[3]);
    ThreeOfGroup(Undigit(s[0]).value, Undigit(s[1]).value, Undigit(s[2]).value, Undigit(s[3]).value);
    assert s == [s[0], s[1], s[2], s[3]] + s[4..];
    assert DecodeGroups(s).value[3..] == DecodeGroups(s[4..]).value;
  }

  lemma {:induction false} EncodeOfDecodeGroups(s: string)
    requires DecodeGroups(s).Some? && Canonical(s)
    ensures IsBytes(DecodeGroups(s).value) && Encode(DecodeGroups(s).value) == s
  {
    if s != "" {
      if s[2..] == "==" || s[3..] == "=" {
        EncodePadded(s);
      } else {
        EncodeOfDecodeGroups(s[4..]);
        EncodeFull(s);
      }
    }
  }

  lemma ThreeGroup(a: char, b: char, c: char, rest: string)
    requires a as int < 256 && b as int < 256 && c as int < 256 && IsBytes(rest)
    ensures IsBytes([a, b, c] + rest)
    ensures Encode([a, b, c] + rest) == Encode([a, b, c]) + Encode(rest)
  {
    var s := [a, b, c] + rest;
    assert s[3..] == rest && [a, b, c][3..] == "";
    assert Encode([a, b, c][3..]) == "";
  }

  lemma ShortVectors()
    ensures Encode("f") == "Zg==" && Encode("fo") == "Zm8="
  {}

  lemma FullVectors()
    ensures Encode("foo") == "Zm9v" && Encode("bar") == "YmFy"
  {
    assert Encode("foo"[3..]) == "" && Encode("bar"[3..]) == "";
  }

  lemma EndVectors()
    ensures Encode("b") == "Yg==" && Encode("ba") == "YmE="
  {}

  lemma AfterFoo(rest: string)
    requires IsBytes(rest)
    ensures IsBytes("foo" + rest) && Encode("foo" + rest) == "Zm9v" + Encode(rest)
  {
    FullVectors();
    ThreeGroup('f', 'o', 'o', rest);
    assert ['f', 'o', 'o'] == "foo";
  }

  lemma LongVectors()
    ensures Encode("foob") == "Zm9vYg==" && Encode("fooba") == "Zm9vYmE=" && Encode("foobar") == "Zm9vYmFy"
  {
    EndVectors();
    FullVectors();
    AfterFoo("b");
    AfterFoo("ba");
    AfterFoo("bar");
    assert "foo" + "b" == "foob" && "foo" + "ba" == "fooba" && "foo" + "bar" == "foobar";
    assert "Zm9v" + "Yg==" == "Zm9vYg==" && "Zm9v" + "YmE=" == "Zm9vYmE=" && "Zm9v" + "YmFy" == "Zm9vYmFy";
  }

  /** The test vectors of section 10 of RFC 4648. */
  lemma TestVectors()
    ensures Encode("") == "" && Encode("f") == "Zg==" && Encode("fo") == "Zm8=" && Encode("foo") == "Zm9v"
    ensures Encode("foob") == "Zm9vYg==" && Encode("fooba") == "Zm9vYmE=" && Encode("foobar") == "Zm9vYmFy"
  {
    ShortVectors();
    FullVectors();
    LongVectors();
  }

  /** Line ends are passed over wherever they stand. */
  lemma {:induction false} StripsLineEnds(a: string, b: string)
    ensures Strip(a + "\r" + b) == Strip(a) + Strip(b) && Strip(a + "\n" + b) == Strip(a) + Strip(b)
  {
    if a == "" {
      assert ("" + "\r" + b)[1..] == b && ("" + "\n" + b)[1..] == b;
    } else {
      assert (a + "\r" + b)[1..] == a[1..] + "\r" + b && (a + "\n" + b)[1..] == a[1..] + "\n" + b;
      StripsLineEnds(a[1..], b);
    }
  }

  /** The two digits agree in all but their lowest bits, of which there are as many as base tells. */
  predicate AgreeAbove(c: char, e: char, base: nat)
    requires base > 0
  {
    Undigit(c).Some? && Undigit(e).Some? && Undigit(c).value / base == Undigit(e).value / base
  }

  /** t is e but for the bits that padding leaves over: four of the digit before "==", two of the one before "=". */
  predicate SpellsPadded(t: string, e: string) {
    || t == e
    || (|t| == |e| >= 4
        && var n := |e|;
           || (t[..n - 3] == e[..n - 3] && t[n - 2..] == e[n - 2..] == "==" && AgreeAbove(t[n - 3], e[n - 3], 16))
           || (t[..n - 2] == e[..n - 2] && t[n - 1..] == e[n - 1..] == "=" && e[n - 2] != '='
               && AgreeAbove(t[n - 2], e[n - 2], 4)))
  }

  lemma OneByteIff(t: string, b: string)
    requires IsBytes(b) && |b| == 1
    ensures DecodeGroups(t) == Some(b) <==> SpellsPadded(t, Encode(b))
  {
    DecodeOne(b);
    var e := Encode(b);
    DigitUndigit(b[0] as int / 4);
    DigitUndigit(b[0] as int % 4 * 16);
    if SpellsPadded(t, e) && t != e {
      assert e[3..] == "=" && e[2] == '=';
      assert t[..1] == e[..1] && t[2..] == e[2..];
      assert t[0] == e[0] == t[..1][0];
    }
    if DecodeGroups(t) == Some(b) {
      assert t[2..] == "==";
      UndigitDigit(t[0]);
      ThreeOfGroup(Undigit(t[0]).value, Undigit(t[1]).value, 0, 0);
      assert t[..1] == e[..1];
    }
  }

  lemma TwoBytesIff(t: string, b: string)
    requires IsBytes(b) && |b| == 2
    ensures DecodeGroups(t) == Some(b) <==> SpellsPadded(t, Encode(b))
  {
    DecodeTwo(b);
    var e := Encode(b);
    DigitUndigit(b[0] as int / 4);
    DigitUndigit(b[0] as int % 4 * 16 + b[1] as int / 16);
    DigitUndigit(b[1] as int % 16 * 4);
    if SpellsPadded(t, e) && t != e {
      assert e[2..][0] != '=';
      assert t[..2] == e[..2] && t[3..] == e[3..];
      assert t[0] == e[0] == t[..2][0] && t[1] == e[1] == t[..2][1];
      assert t[2..][0] != '=';
    }
    if DecodeGroups(t) == Some(b) {
      assert t[2..] != "==" && t[3..] == "=";
      UndigitDigit(t[0]);
      UndigitDigit(t[1]);
      ThreeOfGroup(Undigit(t[0]).value, Undigit(t[1]).value, Undigit(t[2]).value, 0);
      assert t[..2] == e[..2];
    }
  }

  lemma SameAfter(g: string, a: string, b: string)
    ensures g + a == g + b <==> a == b
  {
    assert a == (g + a)[|g|..] && b == (g + b)[|g|..];
  }

  lemma SpellsAfter(g: string, t: string, e: string)
    requires |g| == 4 && g[2] != '=' && g[3] != '=' && (e == "" || |e| >= 4)
    ensures SpellsPadded(g + t, g + e) <==> SpellsPadded(t, e)
  {
    var n := |e|;
    SameAfter(g, t, e);
    if |t| == n >= 4 {
      assert (g + t)[..n + 1] == g + t[..n - 3] && (g + e)[..n + 1] == g + e[..n - 3];
      assert (g + t)[..n + 2] == g + t[..n - 2] && (g + e)[..n + 2] == g + e[..n - 2];
      assert (g + t)[n + 2..] == t[n - 2..] && (g + e)[n + 2..] == e[n - 2..];
      assert (g + t)[n + 3..] == t[n - 1..] && (g + e)[n + 3..] == e[n - 1..];
      SameAfter(g, t[..n - 3], e[..n - 3]);
      SameAfter(g, t[..n - 2], e[..n - 2]);
    } else if n == 0 {
      assert (g + e)[2..][1] != '=' && (g + e)[3..][0] != '=';
    }
  }

  function Quad(a: char, b: char, c: char): (r: string)
    requires a as int < 256 && b as int < 256 && c as int < 256
    ensures |r| == 4 && r[2] != '=' && r[3] != '='
  {
    DigitUndigit(b as int % 16 * 4 + c as int / 64);
    DigitUndigit(c as int % 64);
    [Digit(a as int / 4), Digit(a as int % 4 * 16 + b as int / 16), Digit(b as int % 16 * 4 + c as int / 64),
     Digit(c as int % 64)]
  }

  lemma QuadOf(d0: nat, d1: nat, d2: nat, d3: nat)
    requires d0 < 64 && d1 < 64 && d2 < 64 && d3 < 64
    ensures var a, b, c := First(d0, d1), Second(d1, d2), Third(d2, d3);
            a as int < 256 && b as int < 256 && c as int < 256
            && Quad(a, b, c) == [Digit(d0), Digit(d1), Digit(d2), Digit(d3)]
  {
    ThreeOfGroup(d0, d1, d2, d3);
  }

  lemma DigitsFirst(t: string, d0: nat, d1: nat, d2: nat, d3: nat)
    requires |t| >= 4 && d0 < 64 && d1 < 64 && d2 < 64 && d3 < 64
    requires Undigit(t[0]) == Some(d0) && Undigit(t[1]) == Some(d1) && Undigit(t[2]) == Some(d2)
             && Undigit(t[3]) == Some(d3)
    ensures t == [Digit(d0), Digit(d1), Digit(d2), Digit(d3)] + t[4..]
  {
    UndigitDigit(t[0]);
    UndigitDigit(t[1]);
    UndigitDigit(t[2]);
    UndigitDigit(t[3]);
  }

  /** A string that decodes to three bytes or more starts with their four digits. */
  lemma FirstGroup(t: string, text: string)
    requires DecodeGroups(t) == Some(text) && |text| > 2 && IsBytes(text)
    ensures |t| >= 4 && t == Quad(text[0], text[1], text[2]) + t[4..] && DecodeGroups(t[4..]) == Some(text[3..])
  {
    assert t[2..] != "==" && t[3..] != "=";
    var d0, d1, d2, d3 := Undigit(t[0]).value, Undigit(t[1]).value, Undigit(t[2]).value, Undigit(t[3]).value;
    var rest := DecodeGroups(t[4..]).value;
    assert text == [First(d0, d1), Second(d1, d2), Third(d2, d3)] + rest;
    assert text[0] == First(d0, d1) && text[1] == Second(d1, d2) && text[2] == Third(d2, d3) && text[3..] == rest;
    QuadOf(d0, d1, d2, d3);
    DigitsFirst(t, d0, d1, d2, d3);
  }

  lemma QuadDecodes(a: char, b: char, c: char, t: string, rest: string)
    requires a as int < 256 && b as int < 256 && c as int < 256 && DecodeGroups(t) == Some(rest)
    ensures DecodeGroups(Quad(a, b, c) + t) == Some([a, b, c] + rest)
  {
    GroupOfThree(a, b, c);
    ThreeBytes(Quad(a, b, c) + t, a as int / 4, a as int % 4 * 16 + b as int / 16, b as int % 16 * 4 + c as int / 64,
               c as int % 64, t);
  }

  lemma QuadEncodes(b: string)
    requires IsBytes(b) && |b| > 2
    ensures Encode(b) == Quad(b[0], b[1], b[2]) + Encode(b[3..])
  {}

  lemma StartsAlike(g: string, t: string, e: string)
    requires |g| == 4 && g[2] != '=' && g[3] != '=' && (e == "" || |e| >= 4) && SpellsPadded(t, g + e)
    ensures |t| >= 4 && t == g + t[4..]
  {
    var n := |g + e|;
    if e == "" {
      assert g + e == g && g[2..][1] != '=' && g[3..][0] != '=';
    } else if t != g + e {
      forall i | 0 <= i < 4 ensures t[i] == g[i] {
        assert t[..n - 3][i] == t[i] && (g + e)[..n - 3][i] == g[i];
        assert t[..n - 2][i] == t[i] && (g + e)[..n - 2][i] == g[i];
      }
    }
  }

  lemma Splits(t: string, g: string, e: string)
    requires |g| == 4 && g[2] != '=' && g[3] != '=' && (e == "" || |e| >= 4)
    ensures SpellsPadded(t, g + e) <==> |t| >= 4 && t == g + t[4..] && SpellsPadded(t[4..], e)
  {
    if SpellsPadded(t, g + e) { StartsAlike(g, t, e); }
    if |t| >= 4 && t == g + t[4..] { SpellsAfter(g, t[4..], e); }
  }

  lemma NoShortGroup(s: string)
    requires IsBytes(s)
    ensures Encode(s) == "" || |Encode(s)| >= 4
  {}

  lemma QuadIff(t: string, b: string)
    requires IsBytes(b) && |b| > 2
    ensures DecodeGroups(t) == Some(b)
       <==> |t| >= 4 && t == Quad(b[0], b[1], b[2]) + t[4..] && DecodeGroups(t[4..]) == Some(b[3..])
  {
    if DecodeGroups(t) == Some(b) { FirstGroup(t, b); }
    assert b == [b[0], b[1], b[2]] + b[3..];
    if |t| >= 4 && DecodeGroups(t[4..]) == Some(b[3..]) { QuadDecodes(b[0], b[1], b[2], t[4..], b[3..]); }
  }

  lemma ThreeBytesIff(t: string, b: string)
    requires IsBytes(b) && |b| > 2
    requires |t| >= 4 ==> (DecodeGroups(t[4..]) == Some(b[3..]) <==> SpellsPadded(t[4..], Encode(b[3..])))
    ensures DecodeGroups(t) == Some(b) <==> SpellsPadded(t, Encode(b))
  {
    QuadEncodes(b);
    NoShortGroup(b[3..]);
    Splits(t, Quad(b[0], b[1], b[2]), Encode(b[3..]));
    QuadIff(t, b);
  }

  lemma {:induction false} GroupsIff(t: string, b: string)
    requires IsBytes(b)
    ensures DecodeGroups(t) == Some(b) <==> SpellsPadded(t, Encode(b))
    decreases |b|
  {
    if |b| == 1 {
      OneByteIff(t, b);
    } else if |b| == 2 {
      TwoBytesIff(t, b);
    } else if |b| > 2 {
      if |t| >= 4 { GroupsIff(t[4..], b[3..]); }
      ThreeBytesIff(t, b);
    }
  }

  /** What a string decodes to, for any string: it yields b exactly if it is the encoding of b but for line ends and
      the bits that padding leaves over. */
  lemma DecodesIff(t: string, b: string)
    requires IsBytes(b)
    ensures Decode(t) == Some(b) <==> SpellsPadded(Strip(t), Encode(b))
  {
    GroupsIff(Strip(t), b);
  }

  /** Encoding and decoding are each other's inverse: s is the encoding of b exactly when it decodes to b, has no
      line ends and leaves no bits over. */
  lemma EncodesIff(s: string, b: string)
    requires IsBytes(b)
    ensures s == Encode(b) <==> Decode(s) == Some(b) && Strip(s) == s && Canonical(s)
  {
    if s == Encode(b) {
      DecodeOfEncode(b);
      EncodePlain(b);
      StripPlain(s);
      DecodeGroupsOfEncode(b);
    }
    if Decode(s) == Some(b) && Strip(s) == s && Canonical(s) {
      EncodeOfDecodeGroups(s);
    }
  }

  // The token.

  function TokenText(user: string, scene: string, rand: string): string {
    user + "-" + scene + "-" + rand
  }

  /** The engine code that a decoded token names: its second part. */
  function EngineCode(text: string): Option<string> {
    var parts := Split(text, '-');
    if |parts| < 2 then None else Some(parts[1])
  }

  /** The engine code that a token names. */
  function Selected(token: string): Option<string> {
    var text := Decode(token);
    if text.None? then None else EngineCode(text.value)
  }

  lemma TokenParts(user: string, scene: string, rand: string)
    ensures Split(TokenText(user, scene, rand), '-') == Split(user, '-') + Split(scene, '-') + Split(rand, '-')
  {
    assert TokenText(user, scene, rand) == user + ['-'] + (scene + ['-'] + rand);
    SplitAt(user, scene + ['-'] + rand, '-');
    SplitAt(scene, rand, '-');
    assert Split(user, '-') + (Split(scene, '-') + Split(rand, '-'))
        == Split(user, '-') + Split(scene, '-') + Split(rand, '-');
  }

  lemma PartsOf(s: string)
    ensures if '-' in s then |Split(s, '-')| > 1 else Split(s, '-') == [s]
    ensures Split(s, '-')[0] == s <==> '-' !in s
  {
    SplitCount(s, '-');
    JoinOfSplit(s, '-');
    if '-' !in s { SplitOne(s, '-'); }
  }

  /** The engine code that comes out: the user's second part, if the user has one, else the scene up to its
      first dash. */
  function Routed(user: string, scene: string): string {
    if |Split(user, '-')| > 1 then Split(user, '-')[1] else Split(scene, '-')[0]
  }

  /** Which engine code a token selects, whatever user, scene and rand it was made of. */
  lemma SelectedCode(user: string, scene: string, rand: string)
    requires IsBytes(user) && IsBytes(scene) && IsBytes(rand)
    ensures Selected(Encode(TokenText(user, scene, rand))) == Some(Routed(user, scene))
  {
    DecodeOfEncode(TokenText(user, scene, rand));
    TokenParts(user, scene, rand);
    PartsOf(user);
  }

  /** Routing round trip: without a dash in the user, the token selects its own scene exactly when the scene has no
      dash either; a user with a dash decides alone, and hits the scene only by its own second part. */
  lemma RoutesToScene(user: string, scene: string, rand: string)
    requires IsBytes(user) && IsBytes(scene) && IsBytes(rand)
    ensures '-' !in user ==> (Selected(Encode(TokenText(user, scene, rand))) == Some(scene) <==> '-' !in scene)
    ensures '-' in user ==> |Split(user, '-')| > 1
    ensures '-' in user ==>
              (Selected(Encode(TokenText(user, scene, rand))) == Some(scene) <==> Split(user, '-')[1] == scene)
  {
    SelectedCode(user, scene, rand);
    PartsOf(user);
    PartsOf(scene);
  }
}
