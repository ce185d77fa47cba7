/**
 * The standard base64 alphabet with padding (section 4 of RFC 4648), as
 * Go's `base64.StdEncoding` encodes and decodes it.
 */
module Base64 {
  import opened Wrappers

  newtype byte = x: int | 0 <= x < 256

  /** The character for a 6-bit value. */
  function Char(i: int): (c: char)
    requires 0 <= i < 64
  {
    if i < 26 then ('A' as int + i) as char
    else if i < 52 then ('a' as int + i - 26) as char
    else if i < 62 then ('0' as int + i - 52) as char
    else if i == 62 then '+'
    else '/'
  }

  predicate IsAlphabet(c: char)
  {
    'A' <= c <= 'Z' || 'a' <= c <= 'z' || '0' <= c <= '9' || c == '+' || c == '/'
  }

  /** The 6-bit value of an alphabet character. */
  function Index(c: char): (i: int)
    requires IsAlphabet(c)
    ensures 0 <= i < 64 && Char(i) == c
  {
    if 'A' <= c <= 'Z' then c as int - 'A' as int
    else if 'a' <= c <= 'z' then c as int - 'a' as int + 26
    else if '0' <= c <= '9' then c as int - '0' as int + 52
    else if c == '+' then 62
    else 63
  }

  lemma CharIsAlphabet(i: int)
    requires 0 <= i < 64
    ensures IsAlphabet(Char(i)) && Index(Char(i)) == i
  {
  }

  /** Three bytes as four characters. */
  function EncodeBlock(a: byte, b: byte, c: byte): string
  {
    [Char(a as int / 4), Char(a as int % 4 * 16 + b as int / 16), Char(b as int % 16 * 4 + c as int / 64), Char(c as int % 64)]
  }

  /** EncodeToString: full blocks, then a padded tail of one or two bytes. */
  function Encode(data: seq<byte>): (s: string)
    ensures |s| % 4 == 0
    ensures |data| > 0 ==> |s| >= 4
    decreases |data|
  {
    if |data| == 0 then ""
    else if |data| == 1 then
      [Char(data[0] as int / 4), Char(data[0] as int % 4 * 16), '=', '=']
    else if |data| == 2 then
      [Char(data[0] as int / 4), Char(data[0] as int % 4 * 16 + data[1] as int / 16), Char(data[1] as int % 16 * 4), '=']
    else
      EncodeBlock(data[0], data[1], data[2]) + Encode(data[3..])
  }

  /** The text of base64.CorruptInputError, without the " at input byte N" offset it ends with. */
  const IllegalData := "illegal base64 data"

  /** Four alphabet characters as three bytes. */
  function DecodeBlock(q: string): seq<byte>
    requires |q| == 4 && forall k :: 0 <= k < 4 ==> IsAlphabet(q[k])
  {
    var w, x, y, z := Index(q[0]), Index(q[1]), Index(q[2]), Index(q[3]);
    [(w * 4 + x / 16) as byte, (x % 16 * 16 + y / 4) as byte, (y % 4 * 64 + z) as byte]
  }

  /** The last quantum: four characters, or padding after three or two of them. */
  function DecodeLast(q: string): Result<seq<byte>>
    requires |q| == 4
  {
    if IsAlphabet(q[0]) && IsAlphabet(q[1]) && IsAlphabet(q[2]) && IsAlphabet(q[3]) then Ok(DecodeBlock(q))
    else if IsAlphabet(q[0]) && IsAlphabet(q[1]) && IsAlphabet(q[2]) && q[3] == '=' then
      var w, x, y := Index(q[0]), Index(q[1]), Index(q[2]);
      Ok([(w * 4 + x / 16) as byte, (x % 16 * 16 + y / 4) as byte])
    else if IsAlphabet(q[0]) && IsAlphabet(q[1]) && q[2] == '=' && q[3] == '=' then
      var w, x := Index(q[0]), Index(q[1]);
      Ok([(w * 4 + x / 16) as byte])
    else Err(IllegalData)
  }

  /** Decoding of text with the line breaks already removed. */
  function DecodeQuanta(s: string): Result<seq<byte>>
    decreases |s|
  {
    if |s| == 0 then Ok([])
    else if |s| < 4 then Err(IllegalData)
    else if |s| == 4 then DecodeLast(s)
    else if IsAlphabet(s[0]) && IsAlphabet(s[1]) && IsAlphabet(s[2]) && IsAlphabet(s[3]) then
      match DecodeQuanta(s[4..])
      case Err(e) => Err(e)
      case Ok(rest) => Ok(DecodeBlock(s[..4]) + rest)
    else Err(IllegalData)
  }

  /** Go's decoder skips carriage returns and line feeds wherever they occur. */
  function DropLineBreaks(s: string): (r: string)
    ensures forall c :: c in r ==> c in s && c != '\r' && c != '\n'
    ensures forall c :: c != '\r' && c != '\n' ==> multiset(r)[c] == multiset(s)[c]
  {
    if |s| == 0 then ""
    else
      assert s == [s[0]] + s[1..];
      if s[0] == '\r' || s[0] == '\n' then DropLineBreaks(s[1..])
      else [s[0]] + DropLineBreaks(s[1..])
  }

  /** Dropping line breaks keeps the order of what remains: it works piece by piece. */
  lemma {:induction false} DropLineBreaksAppend(a: string, b: string)
    ensures DropLineBreaks(a + b) == DropLineBreaks(a) + DropLineBreaks(b)
  {
    if |a| == 0 {
      assert a + b == b;
    } else {
      assert (a + b)[0] == a[0];
      assert (a + b)[1..] == a[1..] + b;
      DropLineBreaksAppend(a[1..], b);
    }
  }

  /** DecodeString */
  function Decode(s: string): Result<seq<byte>>
  {
    DecodeQuanta(DropLineBreaks(s))
  }

  lemma {:induction false} DropLineBreaksKeeps(s: string)
    requires forall c :: c in s ==> c != '\r' && c != '\n'
    ensures DropLineBreaks(s) == s
  {
    if |s| > 0 {
      assert s[0] in s;
      assert forall c :: c in s[1..] ==> c in s;
      DropLineBreaksKeeps(s[1..]);
    }
  }

  /** The first byte comes back from its six bits and the two bits of the next character. */
  lemma FirstByteBack(a: byte, b: byte)
    ensures (a as int / 4) * 4 + (a as int % 4 * 16 + b as int / 16) / 16 == a as int
  {
    assert (a as int % 4 * 16 + b as int / 16) / 16 == a as int % 4;
  }

  /** The middle byte comes back from four bits of the second character and four of the third. */
  lemma MiddleByteBack(a: byte, b: byte, c: byte)
    ensures (a as int % 4 * 16 + b as int / 16) % 16 * 16 + (b as int % 16 * 4 + c as int / 64) / 4 == b as int
  {
    assert (a as int % 4 * 16 + b as int / 16) % 16 == b as int / 16;
    assert (b as int % 16 * 4 + c as int / 64) / 4 == b as int % 16;
  }

  /** The last byte comes back from two bits of the third character and the fourth. */
  lemma LastByteBack(b: byte, c: byte)
    ensures (b as int % 16 * 4 + c as int / 64) % 4 * 64 + c as int % 64 == c as int
  {
    assert (b as int % 16 * 4 + c as int / 64) % 4 == c as int / 64;
  }

  lemma DecodeEncodeBlock(a: byte, b: byte, c: byte)
    ensures forall k :: 0 <= k < 4 ==> IsAlphabet(EncodeBlock(a, b, c)[k])
    ensures DecodeBlock(EncodeBlock(a, b, c)) == [a, b, c]
  {
    var w, x, y, z := a as int / 4, a as int % 4 * 16 + b as int / 16, b as int % 16 * 4 + c as int / 64, c as int % 64;
    CharIsAlphabet(w);
    CharIsAlphabet(x);
    CharIsAlphabet(y);
    CharIsAlphabet(z);
    FirstByteBack(a, b);
    MiddleByteBack(a, b, c);
    LastByteBack(b, c);
    var q := EncodeBlock(a, b, c);
    assert q == [Char(w), Char(x), Char(y), Char(z)];
    assert Index(q[0]) == w && Index(q[1]) == x && Index(q[2]) == y && Index(q[3]) == z;
  }

  /** Encoded text never contains a line break, and every character is in the alphabet or is padding. */
  lemma {:induction false} EncodeCharacters(data: seq<byte>)
    ensures forall c :: c in Encode(data) ==> IsAlphabet(c) || c == '='
    decreases |data|
  {
    if |data| == 1 {
      CharIsAlphabet(data[0] as int / 4);
      CharIsAlphabet(data[0] as int % 4 * 16);
    } else if |data| == 2 {
      CharIsAlphabet(data[0] as int / 4);
      CharIsAlphabet(data[0] as int % 4 * 16 + data[1] as int / 16);
      CharIsAlphabet(data[1] as int % 16 * 4);
    } else if |data| > 2 {
      DecodeEncodeBlock(data[0], data[1], data[2]);
      EncodeCharacters(data[3..]);
    }
  }

  lemma DecodeEncodeOne(a: byte)
    ensures DecodeQuanta(Encode([a])) == Ok([a])
  {
    CharIsAlphabet(a as int / 4);
    CharIsAlphabet(a as int % 4 * 16);
  }

  lemma DecodeEncodeTwo(a: byte, b: byte)
    ensures DecodeQuanta(Encode([a, b])) == Ok([a, b])
  {
    var x := a as int % 4 * 16 + b as int / 16;
    CharIsAlphabet(a as int / 4);
    CharIsAlphabet(x);
    CharIsAlphabet(b as int % 16 * 4);
    assert x / 16 == a as int % 4 && x % 16 == b as int / 16;
    assert (b as int % 16 * 4) / 4 == b as int % 16;
  }

  /** Past three bytes, Encode writes one block and goes on with the rest. */
  lemma EncodeCons(data: seq<byte>)
    requires |data| > 3
    ensures Encode(data) == EncodeBlock(data[0], data[1], data[2]) + Encode(data[3..])
  {
  }

  /** The block of the first three bytes, in front of text that decodes to the other bytes, decodes to all of them. */
  lemma DecodeQuantaEncodeStep(data: seq<byte>, q: string, t: string)
    requires |data| > 3
    requires q == EncodeBlock(data[0], data[1], data[2])
    requires |t| > 0 && DecodeQuanta(t) == Ok(data[3..])
    ensures DecodeQuanta(q + t) == Ok(data)
  {
    DecodeEncodeBlock(data[0], data[1], data[2]);
    DecodeQuantaCons(q, t, [data[0], data[1], data[2]], data[3..]);
    assert data == [data[0], data[1], data[2]] + data[3..];
  }

  lemma {:induction false} DecodeQuantaEncode(data: seq<byte>)
    ensures DecodeQuanta(Encode(data)) == Ok(data)
    decreases |data|
  {
    if |data| == 1 {
      DecodeEncodeOne(data[0]);
      assert data == [data[0]];
    } else if |data| == 2 {
      DecodeEncodeTwo(data[0], data[1]);
      assert data == [data[0], data[1]];
    } else if |data| == 3 {
      DecodeEncodeBlock(data[0], data[1], data[2]);
      assert data == [data[0], data[1], data[2]];
    } else if |data| > 3 {
      DecodeQuantaEncode(data[3..]);
      EncodeCons(data);
      DecodeQuantaEncodeStep(data, EncodeBlock(data[0], data[1], data[2]), Encode(data[3..]));
    }
  }

  /** A full quantum in front of more text decodes to its three bytes in front of the rest. */
  lemma DecodeQuantaCons(q: string, t: string, head: seq<byte>, rest: seq<byte>)
    requires |q| == 4 && forall k :: 0 <= k < 4 ==> IsAlphabet(q[k])
    requires DecodeBlock(q) == head
    requires |t| > 0 && DecodeQuanta(t) == Ok(rest)
    ensures DecodeQuanta(q + t) == Ok(head + rest)
  {
    var s := q + t;
    assert s[..4] == q && s[4..] == t;
    assert IsAlphabet(s[0]) && IsAlphabet(s[1]) && IsAlphabet(s[2]) && IsAlphabet(s[3]);
  }

  /** Round trip: decoding what EncodeToString produced gives back the bytes. */
  lemma DecodeEncode(data: seq<byte>)
    ensures Decode(Encode(data)) == Ok(data)
  {
    EncodeCharacters(data);
    DropLineBreaksKeeps(Encode(data));
    DecodeQuantaEncode(data);
  }
}
