/**
 HashPassword and VerifyPassword (internal/auth/password.go): the self-describing argon2id hash
 string, printed and parsed. argon2 is a parameter, a function of fixed output length.
 */
module PasswordHash {
  import opened Prelude
  import opened Base64Raw

  const TIME: nat := 1
  const MEMORY: nat := 64 * 1024
  const THREADS: nat := 4
  const KEY_LEN: nat := 32
  const VERSION: nat := 19

  const UINT8_LIMIT: nat := 0x100
  const UINT32_LIMIT: nat := 0x1_0000_0000
  const INT64_LIMIT: nat := 0x8000_0000_0000_0000

  // ----- decimals -----

  function Digit(d: nat): char
    requires d < 10
  {
    ('0' as int + d) as char
  }

  predicate IsDigit(c: char) {
    '0' <= c <= '9'
  }

  function DigitValue(c: char): nat
    requires IsDigit(c)
  {
    c as int - '0' as int
  }

  function Decimal(n: nat): string {
    if n < 10 then [Digit(n)] else Decimal(n / 10) + [Digit(n % 10)]
  }

  function Number(s: string): nat
    requires forall i :: 0 <= i < |s| ==> IsDigit(s[i])
  {
    if s == "" then 0 else Number(s[..|s| - 1]) * 10 + DigitValue(s[|s| - 1])
  }

  lemma {:induction false} NumberOfDecimal(n: nat)
    ensures Decimal(n) != ""
    ensures forall i :: 0 <= i < |Decimal(n)| ==> IsDigit(Decimal(n)[i])
    ensures Number(Decimal(n)) == n
  {
    if n >= 10 {
      NumberOfDecimal(n / 10);
      assert Decimal(n)[..|Decimal(n)| - 1] == Decimal(n / 10);
    } else {
      assert Decimal(n)[..0] == "";
    }
  }

  // ----- scanning, as Sscanf does it -----

  /** What is left after the literal, if it is there. */
  function Literal(s: string, lit: string): Option<string> {
    if |lit| <= |s| && s[..|lit|] == lit then Some(s[|lit|..]) else None
  }

  /** Latin-1 white space other than the line feed, which ends a scan in error. */
  predicate IsSpace(c: char) {
    c == ' ' || c == '\t' || c == '\r' || c as int == 11 || c as int == 12 || c as int == 0x85 || c as int == 0xA0
  }

  function SkipSpace(s: string): string {
    if s != "" && IsSpace(s[0]) then SkipSpace(s[1..]) else s
  }

  function DigitRun(s: string): (n: nat)
    ensures n <= |s| && forall i :: 0 <= i < n ==> IsDigit(s[i])
  {
    if s != "" && IsDigit(s[0]) then 1 + DigitRun(s[1..]) else 0
  }

  /** %d into an unsigned integer below `limit`: the value and what is left. */
  function Unsigned(s: string, limit: nat): Option<(nat, string)> {
    var t := SkipSpace(s);
    var k := DigitRun(t);
    if k == 0 || Number(t[..k]) >= limit then None else Some((Number(t[..k]), t[k..]))
  }

  /** %d into an int; the version is scanned but never used. */
  function Signed(s: string): Option<string> {
    var t := SkipSpace(s);
    var negative := t != "" && t[0] == '-';
    var u := if t != "" && (t[0] == '-' || t[0] == '+') then t[1..] else t;
    var k := DigitRun(u);
    if k == 0 || Number(u[..k]) >= INT64_LIMIT + (if negative then 1 else 0) then None else Some(u[k..])
  }

  lemma {:induction false} DigitRunStops(d: string, rest: string)
    requires forall i :: 0 <= i < |d| ==> IsDigit(d[i])
    requires rest == "" || !IsDigit(rest[0])
    ensures DigitRun(d + rest) == |d|
  {
    if d == "" {
      assert d + rest == rest;
    } else {
      assert (d + rest)[1..] == d[1..] + rest;
      DigitRunStops(d[1..], rest);
    }
  }

  lemma UnsignedOfDecimal(n: nat, rest: string, limit: nat)
    requires n < limit && (rest == "" || !IsDigit(rest[0]))
    ensures Unsigned(Decimal(n) + rest, limit) == Some((n, rest))
  {
    NumberOfDecimal(n);
    DigitRunStops(Decimal(n), rest);
    var s := Decimal(n) + rest;
    assert SkipSpace(s) == s;
    assert s[..|Decimal(n)|] == Decimal(n) && s[|Decimal(n)|..] == rest;
  }

  lemma SignedOfDecimal(n: nat)
    requires n < INT64_LIMIT
    ensures Signed(Decimal(n)) == Some("")
  {
    NumberOfDecimal(n);
    DigitRunStops(Decimal(n), "");
    var s := Decimal(n);
    assert s + "" == s && SkipSpace(s) == s;
    assert s[..|s|] == s;
  }

  // ----- fields -----

  function Split(s: string): seq<string> {
    if s == "" then [""]
    else if s[0] == '$' then [""] + Split(s[1..])
    else
      var rest := Split(s[1..]);
      if rest == [] then [s] else [[s[0]] + rest[0]] + rest[1..]
  }

  lemma {:induction false} SplitField(field: string, rest: string)
    requires '$' !in field
    ensures Split(field + "$" + rest) == [field] + Split(rest)
  {
    var s := field + "$" + rest;
    if field == "" {
      assert s[1..] == rest;
    } else {
      assert s[1..] == field[1..] + "$" + rest;
      SplitField(field[1..], rest);
      assert [field[0]] + field[1..] == field;
    }
  }

  lemma {:induction false} SplitLast(field: string)
    requires '$' !in field
    ensures Split(field) == [field]
  {
    if field != "" {
      SplitLast(field[1..]);
      assert [field[0]] + field[1..] == field;
    }
  }

  // ----- the hash string -----

  datatype Params = Params(memory: nat, time: nat, threads: nat, salt: seq<byte>, digest: seq<byte>)

  datatype Error = UnrecognizedFormat | BadVersion | BadParams | BadSalt | BadDigest | Argon2Panics

  datatype Result<T> = Ok(value: T) | Err(error: Error)

  function CostField(memory: nat, time: nat, threads: nat): string {
    "m=" + (Decimal(memory) + (",t=" + (Decimal(time) + (",p=" + Decimal(threads)))))
  }

  function Format(p: Params): string {
    "" + "$" + ("argon2id" + "$" + ("v=" + Decimal(VERSION) + "$" + (
      CostField(p.memory, p.time, p.threads) + "$" + (EncodeToString(p.salt) + "$" + EncodeToString(p.digest)))))
  }

  function ScanVersion(s: string): bool {
    match Literal(s, "v=")
    case None => false
    case Some(rest) => Signed(rest).Some?
  }

  function ScanField(s: string, lit: string, limit: nat): Option<(nat, string)> {
    match Literal(s, lit)
    case None => None
    case Some(rest) => Unsigned(rest, limit)
  }

  function ScanCost(s: string): Option<(nat, nat, nat)> {
    match ScanField(s, "m=", UINT32_LIMIT)
    case None => None
    case Some((memory, s1)) =>
      match ScanField(s1, ",t=", UINT32_LIMIT)
      case None => None
      case Some((time, s2)) =>
        match ScanField(s2, ",p=", UINT8_LIMIT)
        case None => None
        case Some((threads, _)) => Some((memory, time, threads))
  }

  function Parse(encoded: string): Result<Params> {
    ParseFields(Split(encoded))
  }

  function ParseFields(parts: seq<string>): Result<Params> {
    if |parts| != 6 || parts[1] != "argon2id" then Err(UnrecognizedFormat)
    else ParseValues(parts[2], parts[3], parts[4], parts[5])
  }

  function ParseValues(version: string, cost: string, salt: string, digest: string): Result<Params> {
    if !ScanVersion(version) then Err(BadVersion)
    else
      match ScanCost(cost)
      case None => Err(BadParams)
      case Some((memory, time, threads)) =>
        match DecodeString(salt)
        case None => Err(BadSalt)
        case Some(saltBytes) =>
          match DecodeString(digest)
          case None => Err(BadDigest)
          case Some(digestBytes) => Ok(Params(memory, time, threads, saltBytes, digestBytes))
  }

  /** argon2.IDKey(password, salt, time, memory, threads, keyLen); it panics on no time or no threads. */
  type Kdf = (seq<byte>, seq<byte>, nat, nat, nat, nat) -> seq<byte>

  ghost predicate FixedLength(kdf: Kdf) {
    forall p, s, t, m, c, n :: |kdf(p, s, t, m, c, n)| == n
  }

  function HashPassword(kdf: Kdf, plain: seq<byte>, salt: seq<byte>): string {
    Format(Params(MEMORY, TIME, THREADS, salt, kdf(plain, salt, TIME, MEMORY, THREADS, KEY_LEN)))
  }

  function VerifyPassword(kdf: Kdf, encoded: string, plain: seq<byte>): Result<bool> {
    match Parse(encoded)
    case Err(e) => Err(e)
    case Ok(p) =>
      if p.time == 0 || p.threads == 0 then Err(Argon2Panics)
      else Ok(kdf(plain, p.salt, p.time, p.memory, p.threads, |p.digest|) == p.digest)
  }

  // ----- round trip -----

  lemma {:induction false} DigitsOnly(n: nat)
    ensures '$' !in Decimal(n)
  {
    NumberOfDecimal(n);
  }

  lemma FieldSplits(lit: string, rest: string)
    ensures Literal(lit + rest, lit) == Some(rest)
  {
    assert (lit + rest)[..|lit|] == lit && (lit + rest)[|lit|..] == rest;
  }

  lemma ScanCostOfCostField(memory: nat, time: nat, threads: nat)
    requires memory < UINT32_LIMIT && time < UINT32_LIMIT && threads < UINT8_LIMIT
    ensures ScanCost(CostField(memory, time, threads)) == Some((memory, time, threads))
  {
    var s3 := Decimal(threads);
    var s2 := ",p=" + s3;
    var s1 := ",t=" + (Decimal(time) + s2);
    FieldSplits("m=", Decimal(memory) + s1);
    UnsignedOfDecimal(memory, s1, UINT32_LIMIT);
    FieldSplits(",t=", Decimal(time) + s2);
    UnsignedOfDecimal(time, s2, UINT32_LIMIT);
    FieldSplits(",p=", s3);
    assert s3 == s3 + "";
    UnsignedOfDecimal(threads, "", UINT8_LIMIT);
  }

  lemma CostFieldHasNoDollar(memory: nat, time: nat, threads: nat)
    ensures '$' !in CostField(memory, time, threads)
  {
    DigitsOnly(memory);
    DigitsOnly(time);
    DigitsOnly(threads);
  }

  function Fields(p: Params): seq<string> {
    ["", "argon2id", "v=" + Decimal(VERSION), CostField(p.memory, p.time, p.threads),
     EncodeToString(p.salt), EncodeToString(p.digest)]
  }

  lemma SplitFormat(p: Params)
    ensures Split(Format(p)) == Fields(p)
  {
    var f5 := EncodeToString(p.digest);
    var f4 := EncodeToString(p.salt) + "$" + f5;
    var f3 := CostField(p.memory, p.time, p.threads) + "$" + f4;
    var f2 := "v=" + Decimal(VERSION) + "$" + f3;
    DecodeEncode(p.digest);
    DecodeEncode(p.salt);
    SplitLast(f5);
    SplitField(EncodeToString(p.salt), f5);
    CostFieldHasNoDollar(p.memory, p.time, p.threads);
    SplitField(CostField(p.memory, p.time, p.threads), f4);
    DigitsOnly(VERSION);
    SplitField("v=" + Decimal(VERSION), f3);
    SplitField("argon2id", f2);
    SplitField("", "argon2id" + "$" + f2);
  }

  lemma ScanOwnVersion()
    ensures ScanVersion("v=" + Decimal(VERSION))
  {
    FieldSplits("v=", Decimal(VERSION));
    SignedOfDecimal(VERSION);
  }

  lemma ParseOwnValues(p: Params, version: string, cost: string, salt: string, digest: string)
    requires ScanVersion(version) && ScanCost(cost) == Some((p.memory, p.time, p.threads))
    requires DecodeString(salt) == Some(p.salt) && DecodeString(digest) == Some(p.digest)
    ensures ParseValues(version, cost, salt, digest) == Ok(p)
  {
  }

  lemma FieldsAre(p: Params)
    ensures ParseFields(Fields(p))
         == ParseValues("v=" + Decimal(VERSION), CostField(p.memory, p.time, p.threads),
                        EncodeToString(p.salt), EncodeToString(p.digest))
  {
  }

  lemma ParseOwnFields(p: Params)
    requires p.memory < UINT32_LIMIT && p.time < UINT32_LIMIT && p.threads < UINT8_LIMIT
    ensures ParseFields(Fields(p)) == Ok(p)
  {
    ScanOwnVersion();
    ScanCostOfCostField(p.memory, p.time, p.threads);
    DecodeEncode(p.salt);
    DecodeEncode(p.digest);
    FieldsAre(p);
    ParseOwnValues(p, "v=" + Decimal(VERSION), CostField(p.memory, p.time, p.threads),
                   EncodeToString(p.salt), EncodeToString(p.digest));
  }

  /** Parsing gives back exactly what was printed, for every cost the fields can hold. */
  lemma ParseFormat(p: Params)
    requires p.memory < UINT32_LIMIT && p.time < UINT32_LIMIT && p.threads < UINT8_LIMIT
    ensures Parse(Format(p)) == Ok(p)
  {
    SplitFormat(p);
    ParseOwnFields(p);
  }

  /** A password verifies against a hash string exactly if it has the same digest; its own always does. */
  lemma VerifyHash(kdf: Kdf, plain: seq<byte>, salt: seq<byte>, attempt: seq<byte>)
    requires FixedLength(kdf)
    ensures VerifyPassword(kdf, HashPassword(kdf, plain, salt), attempt)
         == Ok(kdf(attempt, salt, TIME, MEMORY, THREADS, KEY_LEN) == kdf(plain, salt, TIME, MEMORY, THREADS, KEY_LEN))
    ensures VerifyPassword(kdf, HashPassword(kdf, plain, salt), plain) == Ok(true)
  {
    var digest := kdf(plain, salt, TIME, MEMORY, THREADS, KEY_LEN);
    ParseFormat(Params(MEMORY, TIME, THREADS, salt, digest));
  }

  /**
   Any hash string of the format is verified with its own memory, time, threads and salt, at its own
   digest's length, whatever hashing uses at present.
   */
  lemma VerifyUsesStoredCosts(kdf: Kdf, p: Params, attempt: seq<byte>)
    requires p.memory < 0x1_0000_0000 && p.time < 0x1_0000_0000 && p.threads < 0x100
    ensures VerifyPassword(kdf, Format(p), attempt)
         == if p.time == 0 || p.threads == 0 then Err(Argon2Panics)
            else Ok(kdf(attempt, p.salt, p.time, p.memory, p.threads, |p.digest|) == p.digest)
  {
    ParseFormat(p);
  }

  lemma Decimals()
    ensures Decimal(1) == "1" && Decimal(4) == "4" && Decimal(19) == "19" && Decimal(65536) == "65536"
  {
    assert Decimal(6) == "6" && Decimal(65) == "65" && Decimal(655) == "655" && Decimal(6553) == "6553";
  }

  /** The string stored, with the costs it is made with. */
  lemma HashString(kdf: Kdf, plain: seq<byte>, salt: seq<byte>)
    ensures HashPassword(kdf, plain, salt)
         == "$argon2id$v=19$m=65536,t=1,p=4$" + EncodeToString(salt) + "$"
            + EncodeToString(kdf(plain, salt, 1, 65536, 4, 32))
  {
    Costs();
    var a, b := EncodeToString(salt), EncodeToString(kdf(plain, salt, 1, 65536, 4, 32));
    assert "v=" + "19" == "v=19";
    Spelled(a, b);
  }

  lemma Costs()
    ensures Decimal(19) == "19" && CostField(65536, 1, 4) == "m=65536,t=1,p=4"
  {
    Decimals();
  }

  lemma Spelled(a: string, b: string)
    ensures "" + "$" + ("argon2id" + "$" + ("v=19" + "$" + ("m=65536,t=1,p=4" + "$" + (a + "$" + b))))
         == "$argon2id$v=19$m=65536,t=1,p=4$" + a + "$" + b
  {
    assert "" + "$" + "argon2id" + "$" + "v=19" + "$" + "m=65536,t=1,p=4" + "$" == "$argon2id$v=19$m=65536,t=1,p=4$";
  }

  // ----- what is refused -----

  function Rejoin(parts: seq<string>): string {
    if parts == [] then "" else if |parts| == 1 then parts[0] else parts[0] + "$" + Rejoin(parts[1..])
  }

  /** The fields are the text between the separators: joined again they are the string. */
  lemma {:induction false} SplitRejoins(s: string)
    ensures Split(s) != [] && Rejoin(Split(s)) == s
    ensures forall i :: 0 <= i < |Split(s)| ==> '$' !in Split(s)[i]
  {
    if s != "" {
      SplitRejoins(s[1..]);
      var rest := Split(s[1..]);
      assert s == [s[0]] + s[1..];
      if s[0] == '$' {
        assert Split(s)[1..] == rest;
      } else {
        assert Split(s)[1..] == rest[1..];
      }
    }
  }

  /** Whatever parses has six fields, the algorithm's name, a version and costs the types can hold. */
  lemma ParsedIsWellFormed(encoded: string)
    requires Parse(encoded).Ok?
    ensures |Split(encoded)| == 6 && Split(encoded)[1] == "argon2id"
    ensures "v=" <= Split(encoded)[2] && "m=" <= Split(encoded)[3]
    ensures var p := Parse(encoded).value;
      && p.memory < 0x1_0000_0000 && p.time < 0x1_0000_0000 && p.threads < 0x100
      && DecodeString(Split(encoded)[4]) == Some(p.salt) && DecodeString(Split(encoded)[5]) == Some(p.digest)
  {
  }

  /** A cost the type cannot hold is refused. */
  lemma TooLargeIsRefused(n: nat, rest: string, limit: nat)
    requires rest == "" || !IsDigit(rest[0])
    ensures Unsigned(Decimal(n) + rest, limit) == if n < limit then Some((n, rest)) else None
  {
    NumberOfDecimal(n);
    DigitRunStops(Decimal(n), rest);
    var s := Decimal(n) + rest;
    assert SkipSpace(s) == s;
    assert s[..|Decimal(n)|] == Decimal(n) && s[|Decimal(n)|..] == rest;
  }

  /** The version is scanned but not compared: any that an int can hold will do. */
  lemma AnyVersionIsAccepted(n: nat)
    ensures ScanVersion("v=" + Decimal(n)) <==> n < 0x8000_0000_0000_0000
  {
    FieldSplits("v=", Decimal(n));
    NumberOfDecimal(n);
    DigitRunStops(Decimal(n), "");
    var s := Decimal(n);
    assert s + "" == s && SkipSpace(s) == s && s[..|s|] == s;
  }

  /** White space before a number is skipped; a line feed, or nothing to read, is refused. */
  lemma SpaceBeforeNumbers(c: char, s: string, limit: nat)
    ensures c == ' ' || c == '\t' || c == '\r' || c as int in {11, 12, 0x85, 0xA0} ==>
              Unsigned([c] + s, limit) == Unsigned(s, limit)
    ensures c == '\n' ==> Unsigned([c] + s, limit) == None
    ensures Unsigned("", limit) == None
  {
    assert ([c] + s)[0] == c && ([c] + s)[1..] == s;
  }
}
