/** Unpadded base64 with the standard alphabet (section 4 of RFC 4648), decoded leniently. */
module Base64Raw {
  import opened Prelude

  newtype byte = x: int | 0 <= x < 256

  type Sextet = x: nat | x < 64

  function CharOf(v: Sextet): char {
    if v < 26 then ('A' as int + v) as char
    else if v < 52 then ('a' as int + (v - 26)) as char
    else if v < 62 then ('0' as int + (v - 52)) as char
    else if v == 62 then '+' else '/'
  }

  function ValueOf(c: char): Option<Sextet> {
    if 'A' <= c <= 'Z' then Some(c as int - 'A' as int)
    else if 'a' <= c <= 'z' then Some(c as int - 'a' as int + 26)
    else if '0' <= c <= '9' then Some(c as int - '0' as int + 52)
    else if c == '+' then Some(62)
    else if c == '/' then Some(63)
    else None
  }

  lemma CharRoundTrip(v: Sextet)
    ensures ValueOf(CharOf(v)) == Some(v) && CharOf(v) != '$' && CharOf(v) != '\r' && CharOf(v) != '\n'
  {
  }

  /** The standard alphabet, in order. */
  lemma CharsAreAlphabet(v: Sextet)
    ensures v < 26 ==> CharOf(v) == "ABCDEFGHIJKLMNOPQRSTUVWXYZ"[v]
    ensures 26 <= v < 52 ==> CharOf(v) == "abcdefghijklmnopqrstuvwxyz"[v - 26]
    ensures 52 <= v ==> CharOf(v) == "0123456789+/"[v - 52]
  {
  }

  /** The sextets of a byte sequence; a last group of one or two bytes is filled with zero bits. */
  function Sextets(b: seq<byte>): seq<Sextet> {
    if |b| == 0 then []
    else
      var x := b[0] as int;
      if |b| == 1 then [x / 4, (x % 4) * 16]
      else
        var y := b[1] as int;
        if |b| == 2 then [x / 4, (x % 4) * 16 + y / 16, (y % 16) * 4]
        else
          var z := b[2] as int;
          [x / 4, (x % 4) * 16 + y / 16, (y % 16) * 4 + z / 64, z % 64] + Sextets(b[3..])
  }

  function First(p: Sextet, q: Sextet): byte {
    (p * 4 + q / 16) as byte
  }

  function Second(q: Sextet, r: Sextet): byte {
    ((q % 16) * 16 + r / 4) as byte
  }

  function Third(r: Sextet, s: Sextet): byte {
    ((r % 4) * 64 + s) as byte
  }

  /** Left-over bits of a short last group are ignored; a single left-over character is an error. */
  function Bytes(v: seq<Sextet>): Option<seq<byte>> {
    if |v| == 0 then Some([])
    else if |v| == 1 then None
    else if |v| == 2 then Some([First(v[0], v[1])])
    else if |v| == 3 then Some([First(v[0], v[1]), Second(v[1], v[2])])
    else
      match Bytes(v[4..])
      case None => None
      case Some(rest) => Some([First(v[0], v[1]), Second(v[1], v[2]), Third(v[2], v[3])] + rest)
  }

  lemma {:induction false} BytesOfSextets(b: seq<byte>)
    ensures Bytes(Sextets(b)) == Some(b)
  {
    if |b| >= 3 {
      BytesOfSextets(b[3..]);
      var x, y, z := b[0] as int, b[1] as int, b[2] as int;
      var v := Sextets(b);
      assert v[4..] == Sextets(b[3..]);
      assert First(v[0], v[1]) == b[0];
      assert Second(v[1], v[2]) == b[1];
      assert Third(v[2], v[3]) == b[2];
      assert b == [b[0], b[1], b[2]] + b[3..];
    } else if |b| == 2 {
      assert b == [b[0], b[1]];
    } else if |b| == 1 {
      assert b == [b[0]];
    }
  }

  function Chars(v: seq<Sextet>): string {
    if v == [] then "" else [CharOf(v[0])] + Chars(v[1..])
  }

  /** Carriage returns and line feeds are skipped; any other foreign character is an error. */
  function Values(s: string): Option<seq<Sextet>> {
    if s == "" then Some([])
    else if s[0] == '\r' || s[0] == '\n' then Values(s[1..])
    else
      match (ValueOf(s[0]), Values(s[1..]))
      case (Some(v), Some(rest)) => Some([v] + rest)
      case _ => None
  }

  lemma {:induction false} ValuesOfChars(v: seq<Sextet>)
    ensures Values(Chars(v)) == Some(v)
    ensures '$' !in Chars(v)
  {
    if v != [] {
      CharRoundTrip(v[0]);
      ValuesOfChars(v[1..]);
      assert Chars(v)[0] == CharOf(v[0]) && Chars(v)[1..] == Chars(v[1..]);
      assert [v[0]] + v[1..] == v;
    }
  }

  function EncodeToString(b: seq<byte>): string {
    Chars(Sextets(b))
  }

  function DecodeString(s: string): Option<seq<byte>> {
    match Values(s)
    case None => None
    case Some(v) => Bytes(v)
  }

  /** Decoding gives back what was encoded, and the encoding never contains the field separator. */
  lemma DecodeEncode(b: seq<byte>)
    ensures DecodeString(EncodeToString(b)) == Some(b)
    ensures '$' !in EncodeToString(b)
  {
    BytesOfSextets(b);
    ValuesOfChars(Sextets(b));
  }

  /** Three bytes are four characters that spell the same number, most significant first. */
  lemma GroupIsBigEndian(x: byte, y: byte, z: byte, rest: seq<byte>)
    ensures var v := Sextets([x, y, z] + rest);
      && |v| >= 4
      && ((v[0] as int * 64 + v[1]) * 64 + v[2]) * 64 + v[3] == (x as int * 256 + y as int) * 256 + z as int
      && v[4..] == Sextets(rest)
  {
    assert ([x, y, z] + rest)[3..] == rest;
  }

  /** A last group of one or two bytes is two or three characters, filled up with zero bits and not padded. */
  lemma TailIsUnpadded(x: byte, y: byte)
    ensures var v := Sextets([x]); |v| == 2 && v[0] as int * 64 + v[1] == x as int * 16
    ensures var v := Sextets([x, y]);
            |v| == 3 && (v[0] as int * 64 + v[1]) * 64 + v[2] == (x as int * 256 + y as int) * 4
  {
  }

  /** A string decodes to sextets exactly if it holds no character outside the alphabet but line breaks. */
  lemma {:induction false} ForeignIsRefused(s: string)
    ensures Values(s).Some? <==> forall i :: 0 <= i < |s| ==> s[i] == '\r' || s[i] == '\n' || ValueOf(s[i]).Some?
  {
    if s != "" {
      ForeignIsRefused(s[1..]);
      assert forall i :: 1 <= i < |s| ==> s[i] == s[1..][i - 1];
    }
  }

  /** Line breaks anywhere are skipped. */
  lemma {:induction false} LineBreaksAreSkipped(a: string, b: string, c: char)
    requires c == '\r' || c == '\n'
    ensures Values(a + [c] + b) == Values(a + b)
  {
    if a == "" {
      assert a + [c] + b == [c] + b && ([c] + b)[1..] == b && a + b == b;
    } else {
      assert (a + [c] + b)[0] == a[0] && (a + [c] + b)[1..] == a[1..] + [c] + b;
      assert (a + b)[0] == a[0] && (a + b)[1..] == a[1..] + b;
      LineBreaksAreSkipped(a[1..], b, c);
    }
  }

  lemma GroupDecoded(v: seq<Sextet>)
    requires |v| >= 4
    ensures Bytes(v).Some? <==> Bytes(v[4..]).Some?
    ensures Bytes(v).Some? ==> |Bytes(v).value| == 3 + |Bytes(v[4..]).value|
  {
  }

  lemma TailDecoded(v: seq<Sextet>)
    requires |v| < 4
    ensures Bytes(v).None? <==> |v| == 1
    ensures Bytes(v).Some? ==> |Bytes(v).value| == if |v| == 0 then 0 else |v| - 1
  {
  }

  lemma Quarters(n: nat)
    ensures n < 4 ==> n % 4 == n && n * 3 / 4 == if n == 0 then 0 else n - 1
    ensures (n + 4) % 4 == n % 4 && (n + 4) * 3 / 4 == n * 3 / 4 + 3
  {
  }

  /** One left-over character is refused; any other length decodes, to three bytes for four characters. */
  lemma {:induction false} LengthsDecoded(v: seq<Sextet>)
    ensures Bytes(v).None? <==> |v| % 4 == 1
    ensures Bytes(v).Some? ==> |Bytes(v).value| == |v| * 3 / 4
  {
    if |v| >= 4 {
      LengthsDecoded(v[4..]);
      GroupDecoded(v);
      Quarters(|v[4..]|);
    } else {
      TailDecoded(v);
      Quarters(|v|);
    }
  }
}
