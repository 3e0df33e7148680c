/**
 * `btoa`: the Base64 encoding (RFC 4648, section 4, with `=` padding) of a
 * string whose characters all lie in U+0000..U+00FF, each character read as
 * one byte. Any other character makes `btoa` throw `InvalidCharacterError`.
 * The decoder below inverts the encoder, so encoding is injective.
 */
module Base64 {
  import opened Wrappers

  /** Every character fits in one byte. */
  predicate IsLatin1(s: string)
  {
    forall i :: 0 <= i < |s| ==> s[i] as int < 256
  }

  /** The Base64 alphabet `A-Z a-z 0-9 + /`. */
  function Symbol(i: int): char
    requires 0 <= i < 64
  {
    if i < 26 then ('A' as int + i) as char
    else if i < 52 then ('a' as int + i - 26) as char
    else if i < 62 then ('0' as int + i - 52) as char
    else if i == 62 then '+'
    else '/'
  }

  /** The position of a character in the alphabet. */
  function SymbolIndex(c: char): int
  {
    if 'A' <= c <= 'Z' then c as int - 'A' as int
    else if 'a' <= c <= 'z' then c as int - 'a' as int + 26
    else if '0' <= c <= '9' then c as int - '0' as int + 52
    else if c == '+' then 62
    else 63
  }

  lemma SymbolIndexInverse(i: int)
    requires 0 <= i < 64
    ensures SymbolIndex(Symbol(i)) == i && Symbol(i) != '='
  {
  }

  /** The first sextet of a group: the top six bits of its first byte. */
  function Sextet0(b0: int): (r: int)
    requires 0 <= b0 < 256
    ensures 0 <= r < 64
  {
    b0 / 4
  }

  /** The second sextet: the low two bits of the first byte, the top four of the second. */
  function Sextet1(b0: int, b1: int): (r: int)
    requires 0 <= b0 < 256 && 0 <= b1 < 256
    ensures 0 <= r < 64
  {
    (b0 % 4) * 16 + b1 / 16
  }

  /** The third sextet: the low four bits of the second byte, the top two of the third. */
  function Sextet2(b1: int, b2: int): (r: int)
    requires 0 <= b1 < 256 && 0 <= b2 < 256
    ensures 0 <= r < 64
  {
    (b1 % 16) * 4 + b2 / 64
  }

  /** The fourth sextet: the low six bits of the third byte. */
  function Sextet3(b2: int): (r: int)
    requires 0 <= b2 < 256
    ensures 0 <= r < 64
  {
    b2 % 64
  }

  /** Sextet `k` of the group of three bytes. */
  function SextetAt(b0: int, b1: int, b2: int, k: int): (r: int)
    requires 0 <= b0 < 256 && 0 <= b1 < 256 && 0 <= b2 < 256 && 0 <= k < 4
    ensures 0 <= r < 64
  {
    if k == 0 then Sextet0(b0) else if k == 1 then Sextet1(b0, b1) else if k == 2 then Sextet2(b1, b2) else Sextet3(b2)
  }

  /** The four symbols for three bytes. */
  function Group3(b0: int, b1: int, b2: int): (g: string)
    requires 0 <= b0 < 256 && 0 <= b1 < 256 && 0 <= b2 < 256
    ensures |g| == 4
  {
    seq(4, k requires 0 <= k < 4 => Symbol(SextetAt(b0, b1, b2, k)))
  }

  /** The Base64 text of a byte string: four symbols per three bytes, the last group padded. */
  function Encode(s: string): string
    requires IsLatin1(s)
    decreases |s|
  {
    if s == [] then []
    else
      var b0 := s[0] as int;
      var b1 := if |s| > 1 then s[1] as int else 0;
      var b2 := if |s| > 2 then s[2] as int else 0;
      assert b0 < 256 && b1 < 256 && b2 < 256;
      var g := Group3(b0, b1, b2);
      if |s| == 1 then g[..2] + "=="
      else if |s| == 2 then g[..3] + "="
      else g + Encode(s[3..])
  }

  /** `btoa(s)` */
  function Btoa(s: string): (r: Result<string, string>)
    ensures r.Ok? <==> IsLatin1(s)
  {
    if IsLatin1(s) then Ok(Encode(s)) else Err("InvalidCharacterError")
  }

  function Byte(n: int): char
    requires 0 <= n < 256
  {
    n as char
  }

  /** Reads Base64 text back, group by group. */
  function Decode(t: string): string
    decreases |t|
  {
    if |t| < 4 then []
    else
      var i0, i1, i2, i3 := SymbolIndex(t[0]), SymbolIndex(t[1]), SymbolIndex(t[2]), SymbolIndex(t[3]);
      var b0 := i0 * 4 + i1 / 16;
      var b1 := (i1 % 16) * 16 + i2 / 4;
      var b2 := (i2 % 4) * 64 + i3;
      if !(0 <= b0 < 256 && 0 <= b1 < 256 && 0 <= b2 < 256) then []
      else if t[2] == '=' then [Byte(b0)]
      else if t[3] == '=' then [Byte(b0), Byte(b1)]
      else [Byte(b0), Byte(b1), Byte(b2)] + Decode(t[4..])
  }

  lemma GroupRoundTrip(b0: int, b1: int, b2: int)
    requires 0 <= b0 < 256 && 0 <= b1 < 256 && 0 <= b2 < 256
    ensures (b0 / 4) * 4 + ((b0 % 4) * 16 + b1 / 16) / 16 == b0
    ensures (((b0 % 4) * 16 + b1 / 16) % 16) * 16 + ((b1 % 16) * 4 + b2 / 64) / 4 == b1
    ensures (((b1 % 16) * 4 + b2 / 64) % 4) * 64 + b2 % 64 == b2
    ensures ((b0 % 4) * 16 + b1 / 16) < 64 && ((b1 % 16) * 4 + b2 / 64) < 64
  {
  }

  /** Each symbol of a group reads back as its sextet and is not `=`. */
  lemma GroupSymbols(b0: int, b1: int, b2: int)
    requires 0 <= b0 < 256 && 0 <= b1 < 256 && 0 <= b2 < 256
    ensures var g := Group3(b0, b1, b2);
      forall k :: 0 <= k < 4 ==> SymbolIndex(g[k]) == SextetAt(b0, b1, b2, k) && g[k] != '='
  {
    forall k | 0 <= k < 4
      ensures SymbolIndex(Group3(b0, b1, b2)[k]) == SextetAt(b0, b1, b2, k) && Group3(b0, b1, b2)[k] != '='
    {
      SymbolIndexInverse(SextetAt(b0, b1, b2, k));
    }
  }

  /** Three bytes are recovered from the four sextets of their group. */
  lemma BytesFromSextets(b0: int, b1: int, b2: int)
    requires 0 <= b0 < 256 && 0 <= b1 < 256 && 0 <= b2 < 256
    ensures var i0, i1, i2, i3 := SextetAt(b0, b1, b2, 0), SextetAt(b0, b1, b2, 1), SextetAt(b0, b1, b2, 2), SextetAt(b0, b1, b2, 3);
      && i0 * 4 + i1 / 16 == b0
      && (i1 % 16) * 16 + i2 / 4 == b1
      && (i2 % 4) * 64 + i3 == b2
  {
    GroupRoundTrip(b0, b1, b2);
  }

  /** A full group decodes to its three bytes, whatever follows it. */
  lemma DecodeGroup(b0: int, b1: int, b2: int, rest: string)
    requires 0 <= b0 < 256 && 0 <= b1 < 256 && 0 <= b2 < 256
    ensures Decode(Group3(b0, b1, b2) + rest) == [Byte(b0), Byte(b1), Byte(b2)] + Decode(rest)
  {
    var g := Group3(b0, b1, b2);
    GroupSymbols(b0, b1, b2);
    BytesFromSextets(b0, b1, b2);
    var t := g + rest;
    assert t[0] == g[0] && t[1] == g[1] && t[2] == g[2] && t[3] == g[3];
    assert t[4..] == rest;
  }

  /** A group padded with one `=` decodes to its two bytes. */
  lemma DecodeGroupPad1(b0: int, b1: int)
    requires 0 <= b0 < 256 && 0 <= b1 < 256
    ensures Decode(Group3(b0, b1, 0)[..3] + "=") == [Byte(b0), Byte(b1)]
  {
    var g := Group3(b0, b1, 0);
    GroupSymbols(b0, b1, 0);
    BytesFromSextets(b0, b1, 0);
    var t := g[..3] + "=";
    assert t[0] == g[0] && t[1] == g[1] && t[2] == g[2] && t[3] == '=';
    assert SymbolIndex('=') == 63;
  }

  /** A group padded with `==` decodes to its one byte. */
  lemma DecodeGroupPad2(b0: int)
    requires 0 <= b0 < 256
    ensures Decode(Group3(b0, 0, 0)[..2] + "==") == [Byte(b0)]
  {
    var g := Group3(b0, 0, 0);
    GroupSymbols(b0, 0, 0);
    BytesFromSextets(b0, 0, 0);
    var t := g[..2] + "==";
    assert t[0] == g[0] && t[1] == g[1] && t[2] == '=' && t[3] == '=';
    assert SymbolIndex('=') == 63;
  }

  /** The first group of a non-empty byte string always takes four symbols. */
  lemma EncodeFirstGroup(s: string)
    requires IsLatin1(s) && s != []
    ensures |Encode(s)| == if |s| <= 2 then 4 else 4 + |Encode(s[3..])|
  {
  }

  lemma GroupMore(n: int)
    requires n % 4 == 0
    ensures (4 + n) % 4 == 0
  {
  }

  /** Every Base64 text has a length divisible by four. */
  lemma {:induction false} EncodeLength(s: string)
    requires IsLatin1(s)
    ensures |Encode(s)| % 4 == 0
    decreases |s|
  {
    if s != [] {
      EncodeFirstGroup(s);
      if |s| > 2 {
        EncodeLength(s[3..]);
        GroupMore(|Encode(s[3..])|);
      }
    }
  }

  /** Decoding undoes encoding. */
  lemma {:induction false} DecodeEncode(s: string)
    requires IsLatin1(s)
    ensures Decode(Encode(s)) == s
    decreases |s|
  {
    if |s| == 1 {
      DecodeEncodeShort(s);
    } else if |s| == 2 {
      DecodeEncodeShort(s);
    } else if |s| > 2 {
      DecodeEncode(s[3..]);
      DecodeEncodeStep(s);
    }
  }

  /** One or two bytes encode to a single padded group that decodes back. */
  lemma DecodeEncodeShort(s: string)
    requires IsLatin1(s) && 1 <= |s| <= 2
    ensures Decode(Encode(s)) == s
  {
    var b0 := s[0] as int;
    if |s| == 1 {
      assert Encode(s) == Group3(b0, 0, 0)[..2] + "==";
      DecodeGroupPad2(b0);
      assert [Byte(b0)] == s;
    } else {
      var b1 := s[1] as int;
      assert Encode(s) == Group3(b0, b1, 0)[..3] + "=";
      DecodeGroupPad1(b0, b1);
      assert [Byte(b0), Byte(b1)] == s;
    }
  }

  /** Three or more bytes: the first group decodes to the first three bytes. */
  lemma DecodeEncodeStep(s: string)
    requires IsLatin1(s) && |s| > 2
    requires Decode(Encode(s[3..])) == s[3..]
    ensures Decode(Encode(s)) == s
  {
    var b0, b1, b2 := s[0] as int, s[1] as int, s[2] as int;
    assert Encode(s) == Group3(b0, b1, b2) + Encode(s[3..]);
    DecodeGroup(b0, b1, b2, Encode(s[3..]));
    BytesOf(s);
  }

  /** A byte string is its first three bytes followed by the rest. */
  lemma BytesOf(s: string)
    requires IsLatin1(s) && |s| > 2
    ensures [Byte(s[0] as int), Byte(s[1] as int), Byte(s[2] as int)] + s[3..] == s
  {
    assert Byte(s[0] as int) == s[0] && Byte(s[1] as int) == s[1] && Byte(s[2] as int) == s[2];
  }

  /** Two byte strings with the same `btoa` text are equal. */
  lemma BtoaInjective(a: string, b: string)
    requires Btoa(a).Ok? && Btoa(a) == Btoa(b)
    ensures a == b
  {
    DecodeEncode(a);
    DecodeEncode(b);
  }
}
