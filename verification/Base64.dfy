/** Unpadded standard base64 as encoding/base64.RawStdEncoding does it (sections 3.2 and 4 of RFC 4648). */
module Base64 {
  import opened Prelude

  type Byte = b: int | 0 <= b < 256

  type Sextet = v: int | 0 <= v < 64

  function Digit(v: Sextet): char {
    if v < 26 then (v + 65) as char          // A-Z
    else if v < 52 then (v + 71) as char     // a-z
    else if v < 62 then (v - 4) as char      // 0-9
    else if v == 62 then '+' else '/'
  }

  function ValueOf(c: char): Option<Sextet> {
    var n := c as int;
    if 65 <= n <= 90 then Some(n - 65)
    else if 97 <= n <= 122 then Some(n - 71)
    else if 48 <= n <= 57 then Some(n + 4)
    else if c == '+' then Some(62)
    else if c == '/' then Some(63)
    else None
  }

  lemma DigitsAreDigits(v: Sextet)
    ensures ValueOf(Digit(v)) == Some(v)
  {
  }

  const Alphabet := Upper + Lower + "0123456789+/"
  const Upper := "ABCDEFGHIJKLMNOPQRSTUVWXYZ"
  const Lower := "abcdefghijklmnopqrstuvwxyz"

  /** The sixty-four digits in order. */
  lemma DigitIs(v: Sextet)
    ensures |Alphabet| == 64 && Digit(v) == Alphabet[v]
  {
    if v < 26 {
      var u := Upper;
      assert u[v] == Digit(v);
    } else if v < 52 {
      var l := Lower;
      assert l[v - 26] == Digit(v);
    } else {
      assert v - 52 < 12;
    }
  }

  /** Three bytes are twenty-four bits and so are their four sextets, the first the highest; so for the shorter ends. */
  lemma SextetsAreBits(b0: Byte, b1: Byte, b2: Byte, rest: seq<Byte>)
    ensures var s: seq<int> := Sextets([b0, b1, b2] + rest);
      && |s| >= 4 && s[4..] == Sextets(rest)
      && ((s[0] * 64 + s[1]) * 64 + s[2]) * 64 + s[3] == ((b0 as int) * 256 + b1) * 256 + b2
    ensures var s: seq<int> := Sextets([b0, b1]); |s| == 3 && (s[0] * 64 + s[1]) * 64 + s[2] == ((b0 as int) * 256 + b1) * 4
    ensures var s: seq<int> := Sextets([b0]); |s| == 2 && s[0] * 64 + s[1] == (b0 as int) * 16
  {
    assert ([b0, b1, b2] + rest)[3..] == rest;
  }

  lemma ValuesAreValues(c: char)
    requires ValueOf(c).Some?
    ensures Digit(ValueOf(c).value) == c
  {
  }

  /** Three bytes are four sextets, two are three, one is two; the spare low bits are zero. */
  function Sextets(bytes: seq<Byte>): seq<Sextet>
    decreases |bytes|
  {
    if bytes == [] then []
    else if |bytes| == 1 then [bytes[0] / 4, bytes[0] % 4 * 16]
    else if |bytes| == 2 then [bytes[0] / 4, bytes[0] % 4 * 16 + bytes[1] / 16, bytes[1] % 16 * 4]
    else
      [bytes[0] / 4, bytes[0] % 4 * 16 + bytes[1] / 16, bytes[1] % 16 * 4 + bytes[2] / 64, bytes[2] % 64]
      + Sextets(bytes[3..])
  }

  function Byte0(a: Sextet, b: Sextet): Byte {
    a * 4 + b / 16
  }

  function Byte1(b: Sextet, c: Sextet): Byte {
    b % 16 * 16 + c / 4
  }

  function Byte2(c: Sextet, d: Sextet): Byte {
    c % 4 * 64 + d
  }

  /** Spare low bits are dropped unread; a lone last sextet is an error. */
  function Bytes(v: seq<Sextet>): Option<seq<Byte>>
    decreases |v|
  {
    if v == [] then Some([])
    else if |v| == 1 then None
    else if |v| == 2 then Some([Byte0(v[0], v[1])])
    else if |v| == 3 then Some([Byte0(v[0], v[1]), Byte1(v[1], v[2])])
    else
      match Bytes(v[4..])
      case None => None
      case Some(rest) => Some([Byte0(v[0], v[1]), Byte1(v[1], v[2]), Byte2(v[2], v[3])] + rest)
  }

  function Digits(v: seq<Sextet>): string {
    seq(|v|, i requires 0 <= i < |v| => Digit(v[i]))
  }

  function Encode(bytes: seq<Byte>): string {
    Digits(Sextets(bytes))
  }

  /** Line breaks are skipped wherever they stand. */
  predicate Skipped(c: char) {
    c == '\r' || c == '\n'
  }

  function Values(s: string): Option<seq<Sextet>>
    decreases |s|
  {
    if s == [] then Some([])
    else if Skipped(s[0]) then Values(s[1..])
    else
      match (ValueOf(s[0]), Values(s[1..]))
      case (Some(v), Some(rest)) => Some([v] + rest)
      case _ => None
  }

  function Decode(s: string): Option<seq<Byte>> {
    match Values(s)
    case None => None
    case Some(v) => Bytes(v)
  }

  lemma Recombine(b0: Byte, b1: Byte, b2: Byte)
    ensures Byte0(b0 / 4, b0 % 4 * 16 + b1 / 16) == b0
    ensures Byte1(b0 % 4 * 16 + b1 / 16, b1 % 16 * 4 + b2 / 64) == b1
    ensures Byte2(b1 % 16 * 4 + b2 / 64, b2 % 64) == b2
  {
  }

  lemma OneByte(b0: Byte)
    ensures Bytes(Sextets([b0])) == Some([b0])
  {
    Recombine(b0, 0, 0);
    var a: Sextet, b: Sextet := b0 / 4, b0 % 4 * 16;
    assert Byte0(a, b) == b0;
    hide Byte0, Byte1;
    assert Sextets([b0]) == [a, b];
  }

  lemma TwoBytes(b0: Byte, b1: Byte)
    ensures Bytes(Sextets([b0, b1])) == Some([b0, b1])
  {
    Recombine(b0, b1, 0);
    var a: Sextet, b: Sextet, c: Sextet := b0 / 4, b0 % 4 * 16 + b1 / 16, b1 % 16 * 4;
    assert Byte0(a, b) == b0 && Byte1(b, c) == b1;
    hide Byte0, Byte1;
    assert Sextets([b0, b1]) == [a, b, c];
  }

  lemma {:induction false} BytesOfSextets(bytes: seq<Byte>)
    ensures Bytes(Sextets(bytes)) == Some(bytes)
    decreases |bytes|
  {
    if |bytes| == 1 {
      OneByte(bytes[0]);
      assert bytes == [bytes[0]];
    } else if |bytes| == 2 {
      TwoBytes(bytes[0], bytes[1]);
      assert bytes == [bytes[0], bytes[1]];
    } else if |bytes| >= 3 {
      BytesOfSextets(bytes[3..]);
      hide Bytes, Sextets;
      ThreeBytes(bytes[0], bytes[1], bytes[2], bytes[3..]);
      assert bytes == [bytes[0], bytes[1], bytes[2]] + bytes[3..];
    }
  }

  lemma ThreeBytes(b0: Byte, b1: Byte, b2: Byte, rest: seq<Byte>)
    requires Bytes(Sextets(rest)) == Some(rest)
    ensures Bytes(Sextets([b0, b1, b2] + rest)) == Some([b0, b1, b2] + rest)
  {
    var bytes := [b0, b1, b2] + rest;
    assert bytes[3..] == rest;
    Recombine(b0, b1, b2);
    assert Sextets(bytes)[4..] == Sextets(rest);
    hide Byte0, Byte1, Byte2;
  }

  lemma {:induction false} ValuesOfDigits(v: seq<Sextet>)
    ensures Values(Digits(v)) == Some(v)
    decreases |v|
  {
    if v != [] {
      assert Digits(v)[1..] == Digits(v[1..]);
      ValuesOfDigits(v[1..]);
      DigitsAreDigits(v[0]);
      assert v == [v[0]] + v[1..];
    }
  }

  /** Round trip over all byte strings. */
  lemma DecodeOfEncode(bytes: seq<Byte>)
    ensures Decode(Encode(bytes)) == Some(bytes)
  {
    ValuesOfDigits(Sextets(bytes));
    BytesOfSextets(bytes);
  }

  /** The low bits a decoder drops are zero. */
  predicate SpareBitsZero(v: seq<Sextet>) {
    && (|v| % 4 == 2 ==> v[|v| - 1] % 16 == 0)
    && (|v| % 4 == 3 ==> v[|v| - 1] % 4 == 0)
  }

  lemma Resplit(a: Sextet, b: Sextet, c: Sextet, d: Sextet)
    ensures Byte0(a, b) / 4 == a
    ensures Byte0(a, b) % 4 * 16 + Byte1(b, c) / 16 == b
    ensures Byte1(b, c) % 16 * 4 + Byte2(c, d) / 64 == c
    ensures Byte2(c, d) % 64 == d
    ensures Byte0(a, b) % 4 * 16 == b / 16 * 16
    ensures Byte1(b, c) % 16 * 4 == c / 4 * 4
  {
  }

  /** Encoding a decoded tail clears the spare bits of its last sextet. */
  lemma TailAgain(v: seq<Sextet>)
    requires |v| == 2 || |v| == 3
    ensures Bytes(v).Some?
    ensures Sextets(Bytes(v).value) == if |v| == 2 then [v[0], v[1] / 16 * 16] else [v[0], v[1], v[2] / 4 * 4]
  {
    Resplit(v[0], v[1], if |v| == 3 then v[2] else 0, 0);
    hide Byte0, Byte1, Byte2;
  }

  lemma FourAgain(v: seq<Sextet>, rest: seq<Byte>)
    requires |v| >= 4 && Bytes(v[4..]) == Some(rest)
    ensures Bytes(v).Some? && Sextets(Bytes(v).value) == v[..4] + Sextets(rest)
  {
    Resplit(v[0], v[1], v[2], v[3]);
    hide Byte0, Byte1, Byte2;
    var all := Bytes(v).value;
    assert all[3..] == rest;
    assert v[..4] == [v[0], v[1], v[2], v[3]];
  }

  lemma SpareOfRest(v: seq<Sextet>)
    requires |v| >= 4
    ensures |v| % 4 == |v[4..]| % 4 && (SpareBitsZero(v) <==> SpareBitsZero(v[4..]))
  {
  }

  lemma {:induction false} SextetsOfBytes(v: seq<Sextet>)
    ensures Bytes(v) == None <==> |v| % 4 == 1
    ensures Bytes(v).Some? ==> (Sextets(Bytes(v).value) == v <==> SpareBitsZero(v))
    decreases |v|
  {
    if |v| >= 4 {
      SextetsOfBytes(v[4..]);
      SpareOfRest(v);
      hide Sextets, SpareBitsZero, Byte0, Byte1, Byte2;
      if Bytes(v[4..]).Some? {
        var rest := Bytes(v[4..]).value;
        FourAgain(v, rest);
        hide Bytes;
        assert v == v[..4] + v[4..];
        assert (v[..4] + Sextets(rest))[4..] == Sextets(rest);
      }
    } else if |v| == 3 || |v| == 2 {
      TailAgain(v);
      hide Sextets, Bytes;
      var w := Sextets(Bytes(v).value);
      assert w == v <==> w[|v| - 1] == v[|v| - 1];
    }
  }

  lemma {:induction false} DigitsOfValues(s: string)
    requires Values(s).Some?
    ensures Digits(Values(s).value) == s <==> forall i :: 0 <= i < |s| ==> !Skipped(s[i])
    ensures |Values(s).value| <= |s|
    ensures |Values(s).value| == |s| <==> forall i :: 0 <= i < |s| ==> !Skipped(s[i])
    decreases |s|
  {
    if s != [] {
      DigitsOfValues(s[1..]);
      assert forall i :: 0 < i < |s| ==> s[i] == s[1..][i - 1];
      if !Skipped(s[0]) {
        var v := Values(s).value;
        ValuesAreValues(s[0]);
        assert Digits(v) == [s[0]] + Digits(v[1..]);
        assert s == [s[0]] + s[1..];
      }
    }
  }

  /**
   What the lenient decoder accepts, and what it forgets: a string of alphabet characters and line breaks decodes
   unless it has one character too many, and encoding the result gives the string back if and only if it had no
   line breaks and its spare bits were zero.
   */
  lemma EncodeOfDecode(s: string)
    ensures Decode(s) == None <==> Values(s) == None || |Values(s).value| % 4 == 1
    ensures Decode(s).Some? ==>
      (Encode(Decode(s).value) == s <==> (forall i :: 0 <= i < |s| ==> !Skipped(s[i])) && SpareBitsZero(Values(s).value))
  {
    if Values(s).Some? {
      var v := Values(s).value;
      SextetsOfBytes(v);
      DigitsOfValues(s);
      if Bytes(v).Some? {
        ValuesOfDigits(Sextets(Bytes(v).value));
      }
    }
  }

  /** Two strings the decoder does not tell from a printed one: spare bits that are not zero, and a line break. */
  lemma SomeStringsDoNotComeBack()
    ensures Encode([0]) == "AA"
    ensures Decode("AB") == Some([0]) && Decode("A\nA") == Some([0])
  {
    hide Bytes, Sextets, Values, Digits;
    var zero: seq<Byte> := [0];
    TwoSextets(0, 0);
    TwoSextets(0, 1);
    ValuesRead();
    AA();
    assert Sextets(zero) == [0, 0];
  }

  lemma AA()
    ensures Digits([0, 0]) == "AA"
  {
  }

  lemma ValuesRead()
    ensures Values("AB") == Some([0, 1]) && Values("A\nA") == Some([0, 0])
  {
    ValueOne('A');
    ValueOne('B');
    assert "\nA"[1..] == "A" && Values("\nA") == Values("A");
    ValueMore('A', "B");
    ValueMore('A', "\nA");
    hide Values;
    assert "A" + "B" == "AB" && "A" + "\nA" == "A\nA";
    var v: seq<Sextet> := [0];
    assert v + [1] == [0, 1] && v + [0] == [0, 0];
  }

  lemma TwoSextets(a: Sextet, b: Sextet)
    requires a == 0 && b < 16
    ensures Bytes([a, b]) == Some([0]) && Sextets([0]) == [0, 0]
  {
    assert Byte0(a, b) == 0;
    hide Byte0, Byte1, Byte2;
  }

  lemma ValueOne(c: char)
    requires ValueOf(c).Some?
    ensures Values([c]) == Some([ValueOf(c).value])
  {
    assert [c][1..] == [] && Values([]) == Some([]);
    var v := [ValueOf(c).value];
    assert v + [] == v;
  }

  lemma ValueMore(c: char, s: string)
    requires ValueOf(c).Some? && !Skipped(c)
    ensures Values([c] + s) == if Values(s).Some? then Some([ValueOf(c).value] + Values(s).value) else None
  {
    assert ([c] + s)[1..] == s;
  }

  /** Encoded text is alphabet characters only, four for three bytes. */
  lemma {:induction false} EncodeShape(bytes: seq<Byte>)
    ensures forall c :: c in Encode(bytes) ==> ValueOf(c).Some?
    ensures |Encode(bytes)| == (4 * |bytes| + 2) / 3
  {
    forall v: Sextet ensures ValueOf(Digit(v)).Some? {
      DigitsAreDigits(v);
    }
    SextetsLength(bytes);
  }

  lemma {:induction false} SextetsLength(bytes: seq<Byte>)
    ensures |Sextets(bytes)| == (4 * |bytes| + 2) / 3
    decreases |bytes|
  {
    if |bytes| >= 3 {
      SextetsLength(bytes[3..]);
    }
  }
}
