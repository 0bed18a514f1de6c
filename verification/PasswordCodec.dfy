/**
 The argon2id password string: printed by HashPassword, split, scanned and compared by VerifyPassword. argon2 is a
 parameter, any function of password, salt, cost and key length.
 */
module PasswordCodec {
  import opened Prelude
  import opened Decimal
  import opened Base64

  const ArgonVersion := 19
  const ArgonTime := 1
  const ArgonMemory := 64 * 1024
  const ArgonThreads := 4
  const ArgonKeyLen := 32
  const Uint32 := 0x1_0000_0000
  const Uint8 := 0x100

  datatype Cost = Cost(time: nat, memory: nat, threads: nat)

  const OurCost := Cost(ArgonTime, ArgonMemory, ArgonThreads)

  type Argon2 = (seq<Byte>, seq<Byte>, Cost, nat) -> seq<Byte>

  // -- strings.Split(s, "$")

  function Split(s: string): (parts: seq<string>)
    ensures |parts| > 0
  {
    if s == [] then [""]
    else
      var rest := Split(s[1..]);
      if s[0] == '$' then [""] + rest else [[s[0]] + rest[0]] + rest[1..]
  }

  lemma {:induction false} SplitPlain(a: string)
    requires '$' !in a
    ensures Split(a) == [a]
  {
    if a != [] {
      SplitPlain(a[1..]);
      assert a == [a[0]] + a[1..];
    }
  }

  lemma {:induction false} SplitFirst(a: string, s: string)
    requires '$' !in a
    ensures Split(a + "$" + s) == [a] + Split(s)
  {
    if a == [] {
      assert a + "$" + s == "$" + s && ("$" + s)[1..] == s;
    } else {
      SplitFirst(a[1..], s);
      assert (a + "$" + s)[1..] == a[1..] + "$" + s;
      assert a == [a[0]] + a[1..];
    }
  }

  // -- fmt.Sscanf with literals and %d

  /** What the scan package counts as white space. */
  predicate IsSpace(c: char) {
    var n := c as int;
    || 0x9 <= n <= 0xd || n == 0x20 || n == 0x85 || n == 0xa0 || n == 0x1680 || 0x2000 <= n <= 0x200a
    || n == 0x2028 || n == 0x2029 || n == 0x202f || n == 0x205f || n == 0x3000
  }

  /** Blanks before a number are skipped; a newline there is an error. */
  function SkipSpace(s: string): Option<string> {
    if s == [] then Some(s)
    else if s[0] == '\n' || (s[0] == '\r' && |s| > 1 && s[1] == '\n') then None
    else if IsSpace(s[0]) then SkipSpace(s[1..])
    else Some(s)
  }

  /** The literal text of a format must be there as it is. */
  function Literal(s: string, text: string): Option<string> {
    if text <= s then Some(s[|text|..]) else None
  }

  function DigitRun(s: string): (n: nat)
    ensures n <= |s| && forall i :: 0 <= i < n ==> IsDigit(s[i])
    ensures n < |s| ==> !IsDigit(s[n])
  {
    if s != [] && IsDigit(s[0]) then 1 + DigitRun(s[1..]) else 0
  }

  /** An unsigned %d below `limit`; what follows the digits is left. */
  function ScanUint(s: string, limit: nat): Option<(nat, string)> {
    match SkipSpace(s)
    case None => None
    case Some(t) =>
      var n := DigitRun(t);
      if n == 0 || Value(t[..n]) >= limit then None else Some((Value(t[..n]), t[n..]))
  }

  /** A signed 64-bit %d. */
  function ScanInt(s: string): Option<(int, string)> {
    match SkipSpace(s)
    case None => None
    case Some(t) =>
      var signed := t != [] && (t[0] == '+' || t[0] == '-');
      var u := if signed then t[1..] else t;
      var n := DigitRun(u);
      if n == 0 then None
      else
        var v := if signed && t[0] == '-' then -(Value(u[..n]) as int) else Value(u[..n]);
        if -0x8000_0000_0000_0000 <= v < 0x8000_0000_0000_0000 then Some((v, u[n..])) else None
  }

  /** Sscanf(s, "v=%d"); input after the number is ignored. */
  function ScanVersion(s: string): Option<int> {
    match Literal(s, "v=")
    case None => None
    case Some(t) => match ScanInt(t) case None => None case Some((v, _)) => Some(v)
  }

  /** A number with the literal before it. */
  function ScanField(s: string, name: string, limit: nat): Option<(nat, string)> {
    match Literal(s, name)
    case None => None
    case Some(t) => ScanUint(t, limit)
  }

  /** Sscanf(s, "m=%d,t=%d,p=%d") into two uint32 and a uint8. */
  function ScanCost(s: string): Option<Cost> {
    match ScanField(s, "m=", Uint32)
    case None => None
    case Some((memory, s1)) =>
      match ScanField(s1, ",t=", Uint32)
      case None => None
      case Some((time, s2)) =>
        match ScanField(s2, ",p=", Uint8)
        case None => None
        case Some((threads, _)) => Some(Cost(time, memory, threads))
  }

  // -- The codec

  function FormatCost(c: Cost): string {
    "m=" + FormatInt(c.memory) + ",t=" + FormatInt(c.time) + ",p=" + FormatInt(c.threads)
  }

  function Print(version: nat, c: Cost, salt: seq<Byte>, key: seq<Byte>): string {
    "$argon2id$" + ("v=" + FormatInt(version)) + "$" + FormatCost(c) + "$" + Encode(salt) + "$" + Encode(key)
  }

  function HashPassword(argon2: Argon2, password: seq<Byte>, salt: seq<Byte>): string {
    Print(ArgonVersion, OurCost, salt, argon2(password, salt, OurCost, ArgonKeyLen))
  }

  datatype Stored = Stored(cost: Cost, salt: seq<Byte>, key: seq<Byte>)

  /** The reading half of VerifyPassword; None is errMalformedHash. The version is scanned but not looked at. */
  function ReadHash(encoded: string): Option<Stored> {
    var parts := Split(encoded);
    if |parts| != 6 || parts[1] != "argon2id" || ScanVersion(parts[2]).None? then None
    else
      match (ScanCost(parts[3]), Decode(parts[4]), Decode(parts[5]))
      case (Some(cost), Some(salt), Some(key)) => Some(Stored(cost, salt, key))
      case _ => None
  }

  datatype Verdict = Malformed | Matches(same: bool)

  function VerifyPassword(argon2: Argon2, password: seq<Byte>, encoded: string): Verdict {
    match ReadHash(encoded)
    case None => Malformed
    case Some(h) => Matches(argon2(password, h.salt, h.cost, |h.key| % Uint32) == h.key)
  }

  // -- Reading back what was printed

  lemma {:induction false} RunOfDigits(d: string, rest: string)
    requires (forall i :: 0 <= i < |d| ==> IsDigit(d[i])) && (rest != [] ==> !IsDigit(rest[0]))
    ensures DigitRun(d + rest) == |d|
  {
    if d != [] {
      RunOfDigits(d[1..], rest);
      assert (d + rest)[1..] == d[1..] + rest;
    }
  }

  /** Any number that fits is scanned back, up to the first character that is not a digit. */
  lemma ScanOfFormat(n: nat, rest: string, limit: nat)
    requires n < limit && (rest != [] ==> !IsDigit(rest[0]))
    ensures ScanUint(FormatInt(n) + rest, limit) == Some((n, rest))
  {
    var d := FormatNat(n);
    var s := d + rest;
    RunOfDigits(d, rest);
    ValueOfFormat(n);
    assert !IsSpace(s[0]) && s[0] != '\r' && s[0] != '\n';
    assert s[..|d|] == d && s[|d|..] == rest;
  }

  lemma VersionReadsBack(version: nat)
    requires version < 0x8000_0000_0000_0000
    ensures ScanVersion("v=" + FormatInt(version)) == Some(version)
  {
    var d := FormatNat(version);
    RunOfDigits(d, "");
    ValueOfFormat(version);
    assert d + "" == d && d[..|d|] == d;
    assert ("v=" + d)[2..] == d;
    assert IsDigit(d[0]);
  }

  lemma FieldReadsBack(name: string, n: nat, rest: string, limit: nat)
    requires n < limit && (rest != [] ==> !IsDigit(rest[0]))
    ensures ScanField(name + (FormatInt(n) + rest), name, limit) == Some((n, rest))
  {
    ScanOfFormat(n, rest, limit);
    assert (name + (FormatInt(n) + rest))[|name|..] == FormatInt(n) + rest;
  }

  /** Every cost in the ranges of the fields is read back as printed. */
  lemma CostReadsBack(c: Cost)
    requires c.memory < Uint32 && c.time < Uint32 && c.threads < Uint8
    ensures ScanCost(FormatCost(c)) == Some(c)
  {
    hide ScanField, FormatInt;
    var s2 := ",p=" + (FormatInt(c.threads) + "");
    var s1 := ",t=" + (FormatInt(c.time) + s2);
    FieldReadsBack(",p=", c.threads, "", Uint8);
    FieldReadsBack(",t=", c.time, s2, Uint32);
    FieldReadsBack("m=", c.memory, s1, Uint32);
    assert FormatCost(c) == "m=" + (FormatInt(c.memory) + s1);
  }

  lemma {:induction false} NoDollarInDigits(n: nat)
    ensures '$' !in FormatInt(n)
  {
    assert forall c :: c in FormatNat(n) ==> IsDigit(c);
  }

  lemma NoDollarInCost(c: Cost)
    ensures '$' !in FormatCost(c)
  {
    NoDollarInDigits(c.memory);
    NoDollarInDigits(c.time);
    NoDollarInDigits(c.threads);
    hide FormatInt;
  }

  lemma NoDollarInBase64(bytes: seq<Byte>)
    ensures '$' !in Encode(bytes)
  {
    EncodeShape(bytes);
    hide Encode;
    assert ValueOf('$') == None;
  }

  lemma Literals()
    ensures "v=" + FormatInt(ArgonVersion) == "v=19" && FormatCost(OurCost) == "m=65536,t=1,p=4"
  {
    assert FormatNat(6) == "6" && FormatNat(65) == "65" && FormatNat(655) == "655" && FormatNat(6553) == "6553";
    assert FormatNat(65536) == "65536" && FormatNat(19) == "19";
    assert FormatNat(1) == "1" && FormatNat(4) == "4";
  }

  lemma PrintParts(version: nat, cost: Cost, salt: seq<Byte>, key: seq<Byte>)
    ensures Split(Print(version, cost, salt, key)) ==
      ["", "argon2id", "v=" + FormatInt(version), FormatCost(cost), Encode(salt), Encode(key)]
  {
    hide FormatInt, FormatCost, Encode, Split;
    var (v, c, a, k) := ("v=" + FormatInt(version), FormatCost(cost), Encode(salt), Encode(key));
    NoDollarInDigits(version);
    NoDollarInCost(cost);
    NoDollarInBase64(salt);
    NoDollarInBase64(key);
    SplitPlain(k);
    SplitFirst(a, k);
    SplitFirst(c, a + "$" + k);
    SplitFirst(v, c + "$" + (a + "$" + k));
    SplitFirst("argon2id", v + "$" + (c + "$" + (a + "$" + k)));
    SplitFirst("", "argon2id" + "$" + (v + "$" + (c + "$" + (a + "$" + k))));
    assert Print(version, cost, salt, key) == "" + "$" + ("argon2id" + "$" + (v + "$" + (c + "$" + (a + "$" + k))));
  }

  /** The printed string has exactly six parts, whatever the salt and the key. */
  lemma HashSplits(argon2: Argon2, password: seq<Byte>, salt: seq<Byte>)
    ensures Split(HashPassword(argon2, password, salt)) ==
      ["", "argon2id", "v=19", "m=65536,t=1,p=4", Encode(salt), Encode(argon2(password, salt, Cost(1, 65536, 4), 32))]
  {
    hide FormatInt, FormatCost, Encode, Split, Print;
    Literals();
    PrintParts(ArgonVersion, OurCost, salt, argon2(password, salt, OurCost, ArgonKeyLen));
  }

  /** Round trip: whatever the version, the string decodes to the cost, the salt and the key it was printed from. */
  lemma ReadOfPrint(version: nat, c: Cost, salt: seq<Byte>, key: seq<Byte>)
    requires version < 0x8000_0000_0000_0000 && c.memory < Uint32 && c.time < Uint32 && c.threads < Uint8
    ensures ReadHash(Print(version, c, salt, key)) == Some(Stored(c, salt, key))
  {
    hide FormatInt, FormatCost, Encode, Split, Print, Decode, ScanCost, ScanVersion;
    PrintParts(version, c, salt, key);
    VersionReadsBack(version);
    CostReadsBack(c);
    DecodeOfEncode(salt);
    DecodeOfEncode(key);
  }

  /** A stored hash, of whatever cost, is compared with argon2 of the attempt at that cost, salt and key length. */
  lemma VerifyOfPrint(argon2: Argon2, version: nat, c: Cost, salt: seq<Byte>, key: seq<Byte>, attempt: seq<Byte>)
    requires version < 0x8000_0000_0000_0000 && c.memory < Uint32 && c.time < Uint32 && c.threads < Uint8
    requires |key| < Uint32
    ensures VerifyPassword(argon2, attempt, Print(version, c, salt, key)) == Matches(argon2(attempt, salt, c, |key|) == key)
  {
    hide Print, ReadHash;
    ReadOfPrint(version, c, salt, key);
  }

  /**
   Verifying against a printed hash compares argon2 of the two passwords under the stored salt. All that is asked of
   argon2 is that it returns as many bytes as it is asked for.
   */
  lemma VerifyOfHash(argon2: Argon2, password: seq<Byte>, salt: seq<Byte>, attempt: seq<Byte>)
    requires |argon2(password, salt, Cost(1, 65536, 4), 32)| == 32
    ensures VerifyPassword(argon2, attempt, HashPassword(argon2, password, salt)) ==
      Matches(argon2(attempt, salt, Cost(1, 65536, 4), 32) == argon2(password, salt, Cost(1, 65536, 4), 32))
  {
    hide Print, VerifyPassword;
    VerifyOfPrint(argon2, ArgonVersion, OurCost, salt, argon2(password, salt, OurCost, ArgonKeyLen), attempt);
  }

  /** A password verifies against its own hash. */
  lemma OwnPasswordMatches(argon2: Argon2, password: seq<Byte>, salt: seq<Byte>)
    requires |argon2(password, salt, Cost(1, 65536, 4), 32)| == 32
    ensures VerifyPassword(argon2, password, HashPassword(argon2, password, salt)) == Matches(true)
  {
    VerifyOfHash(argon2, password, salt, password);
    hide HashPassword, VerifyPassword;
  }

  /** Nothing but a string of six parts that names argon2id, a version and a cost is ever compared with a password. */
  lemma OnlyArgon2idIsRead(argon2: Argon2, password: seq<Byte>, encoded: string)
    requires VerifyPassword(argon2, password, encoded) != Malformed
    ensures var parts := Split(encoded);
      && |parts| == 6 && parts[1] == "argon2id"
      && "v=" <= parts[2] && "m=" <= parts[3]
      && Decode(parts[4]).Some? && Decode(parts[5]).Some?
  {
    hide Split, Decode, SkipSpace, DigitRun, Value;
  }
}
