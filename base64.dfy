/**
 * The standard base64 encoding of section 4 of RFC 4648 (the alphabet
 * A-Z, a-z, 0-9, '+', '/', with '=' padding), which BinaryContent.String
 * uses to build a data URL, and the decoder and data-URL parser that
 * invert it.
 */
module Base64 {
  import opened Wrappers

  /** A Go byte. */
  newtype byte = x: int | 0 <= x < 256

  const Pad: char := '='

  predicate IsDigit(c: char) {
    ('A' <= c <= 'Z') || ('a' <= c <= 'z') || ('0' <= c <= '9') || c == '+' || c == '/'
  }

  /** The digit for a 6-bit value: A-Z, a-z, 0-9, '+', '/' in that order. */
  function Digit(n: int): (c: char)
    requires 0 <= n < 64
    ensures IsDigit(c)
  {
    if n < 26 then ('A' as int + n) as char
    else if n < 52 then ('a' as int + (n - 26)) as char
    else if n < 62 then ('0' as int + (n - 52)) as char
    else if n == 62 then '+'
    else '/'
  }

  /** The 6-bit value of a digit. */
  function DigitValue(c: char): (x: int)
    requires IsDigit(c)
    ensures 0 <= x < 64 && Digit(x) == c
  {
    if 'A' <= c <= 'Z' then c as int - 'A' as int
    else if 'a' <= c <= 'z' then c as int - 'a' as int + 26
    else if '0' <= c <= '9' then c as int - '0' as int + 52
    else if c == '+' then 62
    else 63
  }

  lemma DigitValueInverts(x: int)
    requires 0 <= x < 64
    ensures DigitValue(Digit(x)) == x
  {
  }

  /** Three bytes as one 24-bit group, the first byte highest. */
  function Group(b0: byte, b1: byte, b2: byte): (n: int)
    ensures 0 <= n < 0x100_0000
  {
    (b0 as int * 0x100 + b1 as int) * 0x100 + b2 as int
  }

  /** The k-th six bits of a 24-bit group, highest first. */
  function Sextet(n: int, k: int): (x: int)
    requires 0 <= n < 0x100_0000 && 0 <= k < 4
    ensures 0 <= x < 64
  {
    if k == 0 then n / 64 / 64 / 64
    else if k == 1 then n / 64 / 64 % 64
    else if k == 2 then n / 64 % 64
    else n % 64
  }

  /** The four digits of a 24-bit group. */
  function EncodeGroup(n: int): (s: string)
    requires 0 <= n < 0x100_0000
    ensures |s| == 4
  {
    [Digit(Sextet(n, 0)), Digit(Sextet(n, 1)), Digit(Sextet(n, 2)), Digit(Sextet(n, 3))]
  }

  /** The number of groups, full or final, that n bytes start. */
  function Groups(n: nat): nat {
    if n == 0 then 0 else if n <= 3 then 1 else 1 + Groups(n - 3)
  }

  /**
   * StdEncoding.EncodeToString: each group of three bytes becomes four
   * digits; a final group of two bytes becomes three digits and one pad,
   * a final single byte two digits and two pads.
   */
  function Encode(data: seq<byte>): (s: string)
    ensures |s| == 4 * Groups(|data|)
    decreases |data|
  {
    if |data| >= 3 then EncodeGroup(Group(data[0], data[1], data[2])) + Encode(data[3..])
    else if |data| == 2 then EncodeGroup(Group(data[0], data[1], 0))[..3] + [Pad]
    else if |data| == 1 then EncodeGroup(Group(data[0], 0, 0))[..2] + [Pad, Pad]
    else ""
  }

  /*
   * The test vectors of section 10 of RFC 4648, one lemma each. The last
   * three are "foo" followed by "b", "ba" and "bar".
   */

  lemma EncodeVectorF()
    ensures Encode([102]) == "Zg=="
  {
    assert Group(102, 0, 0) == 6684672;
    assert Sextet(6684672, 0) == 25 && Sextet(6684672, 1) == 32;
  }

  lemma EncodeVectorFo()
    ensures Encode([102, 111]) == "Zm8="
  {
    assert Group(102, 111, 0) == 6713088;
    assert Sextet(6713088, 0) == 25 && Sextet(6713088, 1) == 38 && Sextet(6713088, 2) == 60;
  }

  lemma EncodeVectorFoo()
    ensures Encode([102, 111, 111]) == "Zm9v"
  {
    FooGroup();
    assert [102 as byte, 111, 111][3..] == [];
  }

  lemma EncodeVectorFoob()
    ensures Encode([102, 111, 111, 98]) == "Zm9vYg=="
  {
    EncodeB();
    EncodeAfterFoo([102, 111, 111, 98], [98]);
  }

  lemma EncodeVectorFooba()
    ensures Encode([102, 111, 111, 98, 97]) == "Zm9vYmE="
  {
    EncodeBa();
    EncodeAfterFoo([102, 111, 111, 98, 97], [98, 97]);
  }

  lemma EncodeVectorFoobar()
    ensures Encode([102, 111, 111, 98, 97, 114]) == "Zm9vYmFy"
  {
    EncodeBar();
    EncodeAfterFoo([102, 111, 111, 98, 97, 114], [98, 97, 114]);
  }

  /** The tails "b", "ba" and "bar" of the last three vectors. */
  lemma EncodeB()
    ensures Encode([98]) == "Yg=="
  {
    assert Group(98, 0, 0) == 6422528;
    assert Sextet(6422528, 0) == 24 && Sextet(6422528, 1) == 32;
  }

  lemma EncodeBa()
    ensures Encode([98, 97]) == "YmE="
  {
    assert Group(98, 97, 0) == 6447360;
    assert Sextet(6447360, 0) == 24 && Sextet(6447360, 1) == 38 && Sextet(6447360, 2) == 4;
  }

  lemma EncodeBar()
    ensures Encode([98, 97, 114]) == "YmFy"
  {
    assert Group(98, 97, 114) == 6447474;
    assert Sextet(6447474, 0) == 24 && Sextet(6447474, 1) == 38 && Sextet(6447474, 2) == 5 && Sextet(6447474, 3) == 50;
    assert [98 as byte, 97, 114][3..] == [];
  }

  /** The group of "foo". */
  lemma FooGroup()
    ensures EncodeGroup(Group(102, 111, 111)) == "Zm9v"
  {
    assert Group(102, 111, 111) == 6713199;
    assert Sextet(6713199, 0) == 25 && Sextet(6713199, 1) == 38 && Sextet(6713199, 2) == 61 && Sextet(6713199, 3) == 47;
  }

  /** "foo" in front of a tail encodes as "Zm9v" in front of the tail's encoding. */
  lemma EncodeAfterFoo(d: seq<byte>, tail: seq<byte>)
    requires |d| == 3 + |tail| && d[0] == 102 && d[1] == 111 && d[2] == 111
    requires forall k :: 0 <= k < |tail| ==> d[3 + k] == tail[k]
    ensures Encode(d) == "Zm9v" + Encode(tail)
  {
    assert d[3..] == tail;
    FooGroup();
  }

  /** The group that four sextets spell. */
  function Assemble(x0: int, x1: int, x2: int, x3: int): int {
    ((x0 * 64 + x1) * 64 + x2) * 64 + x3
  }

  /** The three bytes of a 24-bit group. */
  function Bytes(n: int): (r: seq<byte>)
    requires 0 <= n < 0x100_0000
    ensures |r| == 3
  {
    [(n / 0x100 / 0x100) as byte, (n / 0x100 % 0x100) as byte, (n % 0x100) as byte]
  }

  /** The bytes of one four-character group, padded or not. */
  function DecodeGroup(q: string): Option<seq<byte>>
    requires |q| == 4
  {
    if !(IsDigit(q[0]) && IsDigit(q[1])) then None
    else if q[2] == Pad && q[3] == Pad then
      Some(Bytes(Assemble(DigitValue(q[0]), DigitValue(q[1]), 0, 0))[..1])
    else if IsDigit(q[2]) && q[3] == Pad then
      Some(Bytes(Assemble(DigitValue(q[0]), DigitValue(q[1]), DigitValue(q[2]), 0))[..2])
    else if IsDigit(q[2]) && IsDigit(q[3]) then
      Some(Bytes(Assemble(DigitValue(q[0]), DigitValue(q[1]), DigitValue(q[2]), DigitValue(q[3]))))
    else None
  }

  /** Decodes whole groups; padding may only end the text. */
  function Decode(s: string): Option<seq<byte>>
    decreases |s|
  {
    if |s| == 0 then Some([])
    else if |s| < 4 then None
    else match DecodeGroup(s[..4])
      case None => None
      case Some(b) =>
        if |b| < 3 && |s| > 4 then None
        else match Decode(s[4..])
          case None => None
          case Some(rest) => Some(b + rest)
  }

  /** The sextets of a group spell the group again. */
  lemma SextetsAssemble(n: int)
    requires 0 <= n < 0x100_0000
    ensures Assemble(Sextet(n, 0), Sextet(n, 1), Sextet(n, 2), Sextet(n, 3)) == n
  {
  }

  /** The bytes of a group are the bytes it was made of. */
  lemma GroupBytes(b0: byte, b1: byte, b2: byte)
    ensures Bytes(Group(b0, b1, b2)) == [b0, b1, b2]
  {
    var n := Group(b0, b1, b2);
    DivMod256(n, b0 as int * 0x100 + b1 as int, b2 as int);
    DivMod256(b0 as int * 0x100 + b1 as int, b0 as int, b1 as int);
  }

  /** Quotient and remainder by 64 are unique. */
  lemma DivMod64(n: int, q: int, r: int)
    requires 0 <= r < 64 && n == q * 64 + r
    ensures n / 64 == q && n % 64 == r
  {
  }

  /** Quotient and remainder by 0x100 are unique. */
  lemma DivMod256(n: int, q: int, r: int)
    requires 0 <= r < 0x100 && n == q * 0x100 + r
    ensures n / 0x100 == q && n % 0x100 == r
  {
  }


  /** How DecodeGroup reads four digits, three and a pad, or two and two pads. */
  lemma DecodeGroupCases(q: string)
    requires |q| == 4 && IsDigit(q[0]) && IsDigit(q[1])
    ensures IsDigit(q[2]) && IsDigit(q[3]) ==>
      DecodeGroup(q) == Some(Bytes(Assemble(DigitValue(q[0]), DigitValue(q[1]), DigitValue(q[2]), DigitValue(q[3]))))
    ensures IsDigit(q[2]) && q[3] == Pad ==>
      DecodeGroup(q) == Some(Bytes(Assemble(DigitValue(q[0]), DigitValue(q[1]), DigitValue(q[2]), 0))[..2])
    ensures q[2] == Pad && q[3] == Pad ==>
      DecodeGroup(q) == Some(Bytes(Assemble(DigitValue(q[0]), DigitValue(q[1]), 0, 0))[..1])
  {
  }

  /** The digits of a group, read back, are its sextets. */
  lemma GroupDigitValues(n: int)
    requires 0 <= n < 0x100_0000
    ensures var g := EncodeGroup(n);
      forall k :: 0 <= k < 4 ==> IsDigit(g[k]) && DigitValue(g[k]) == Sextet(n, k)
  {
    var g := EncodeGroup(n);
    forall k | 0 <= k < 4
      ensures IsDigit(g[k]) && DigitValue(g[k]) == Sextet(n, k)
    {
      assert g[k] == Digit(Sextet(n, k));
      DigitValueInverts(Sextet(n, k));
    }
  }

  lemma DecodeFullGroup(b0: byte, b1: byte, b2: byte)
    ensures DecodeGroup(EncodeGroup(Group(b0, b1, b2))) == Some([b0, b1, b2])
  {
    var n := Group(b0, b1, b2);
    var q := EncodeGroup(n);
    GroupDigitValues(n);
    DecodeGroupCases(q);
    SextetsAssemble(n);
    GroupBytes(b0, b1, b2);
  }

  lemma DecodeTwoByteGroup(b0: byte, b1: byte)
    ensures DecodeGroup(EncodeGroup(Group(b0, b1, 0))[..3] + [Pad]) == Some([b0, b1])
  {
    var n := Group(b0, b1, 0);
    var g := EncodeGroup(n);
    var q := g[..3] + [Pad];
    GroupDigitValues(n);
    assert q[0] == g[0] && q[1] == g[1] && q[2] == g[2] && q[3] == Pad;
    DecodeGroupCases(q);
    DivMod64(n, (b0 as int * 0x100 + b1 as int) * 4, 0);
    SextetsAssemble(n);
    assert Assemble(DigitValue(q[0]), DigitValue(q[1]), DigitValue(q[2]), 0) == n;
    GroupBytes(b0, b1, 0);
    assert Bytes(n)[..2] == [b0, b1];
  }

  lemma DecodeOneByteGroup(b0: byte)
    ensures DecodeGroup(EncodeGroup(Group(b0, 0, 0))[..2] + [Pad, Pad]) == Some([b0])
  {
    var n := Group(b0, 0, 0);
    var g := EncodeGroup(n);
    var q := g[..2] + [Pad, Pad];
    GroupDigitValues(n);
    assert q[0] == g[0] && q[1] == g[1] && q[2] == Pad && q[3] == Pad;
    DecodeGroupCases(q);
    DivMod64(n, b0 as int * 0x400, 0);
    DivMod64(b0 as int * 0x400, b0 as int * 0x10, 0);
    SextetsAssemble(n);
    assert Assemble(DigitValue(q[0]), DigitValue(q[1]), 0, 0) == n;
    GroupBytes(b0, 0, 0);
    assert Bytes(n)[..1] == [b0];
  }

  /** A full group followed by decodable text decodes to both parts. */
  lemma DecodeAfterFullGroup(g: string, b: seq<byte>, t: string)
    requires |g| == 4 && DecodeGroup(g) == Some(b) && |b| == 3 && Decode(t).Some?
    ensures Decode(g + t) == Some(b + Decode(t).value)
  {
    var s := g + t;
    assert s[..4] == g;
    assert s[4..] == t;
  }

  /** A final padded group decodes on its own. */
  lemma DecodeLastGroup(g: string, b: seq<byte>)
    requires |g| == 4 && DecodeGroup(g) == Some(b)
    ensures Decode(g) == Some(b)
  {
    assert g[..4] == g;
    assert g[4..] == [];
    assert b + [] == b;
  }

  /** Decoding undoes encoding, for every byte string. */
  lemma {:induction false} DecodeEncode(data: seq<byte>)
    ensures Decode(Encode(data)) == Some(data)
    decreases |data|
  {
    if |data| >= 3 {
      var head, rest := data[..3], data[3..];
      var g := EncodeGroup(Group(data[0], data[1], data[2]));
      assert Encode(data) == g + Encode(rest);
      DecodeFullGroup(data[0], data[1], data[2]);
      assert [data[0], data[1], data[2]] == head;
      DecodeEncode(rest);
      DecodeAfterFullGroup(g, head, Encode(rest));
      assert Decode(Encode(data)) == Some(head + rest);
      assert head + rest == data;
    } else {
      DecodeEncodeShort(data);
    }
  }

  /** The final, padded group decodes to the last one or two bytes. */
  lemma DecodeEncodeShort(data: seq<byte>)
    requires |data| < 3
    ensures Decode(Encode(data)) == Some(data)
  {
    if |data| == 2 {
      DecodeEncodeTwo(data);
    } else if |data| == 1 {
      DecodeEncodeOne(data);
    }
  }

  lemma DecodeEncodeTwo(data: seq<byte>)
    requires |data| == 2
    ensures Decode(Encode(data)) == Some(data)
  {
    var n := Group(data[0], data[1], 0);
    var g := EncodeGroup(n)[..3] + [Pad];
    assert g[2] == Digit(Sextet(n, 2)) && g[2] != Pad;
    assert Encode(data) == g;
    DecodeTwoByteGroup(data[0], data[1]);
    assert [data[0], data[1]] == data;
    DecodeLastGroup(g, data);
  }

  lemma DecodeEncodeOne(data: seq<byte>)
    requires |data| == 1
    ensures Decode(Encode(data)) == Some(data)
  {
    var g := EncodeGroup(Group(data[0], 0, 0))[..2] + [Pad, Pad];
    assert Encode(data) == g;
    DecodeOneByteGroup(data[0]);
    assert [data[0]] == data;
    DecodeLastGroup(g, data);
  }

  /** The number of pad characters at the end of an encoding. */
  function PadCount(n: nat): nat {
    if n >= 3 then PadCount(n - 3)
    else if n == 0 then 0
    else 3 - n
  }

  /** An encoding has four characters per started group of three bytes. */
  lemma {:induction false} EncodeLength(data: seq<byte>)
    ensures |Encode(data)| == 4 * ((|data| + 2) / 3)
    decreases |data|
  {
    var n := |data|;
    if n >= 3 {
      EncodeLength(data[3..]);
      var g := EncodeGroup(Group(data[0], data[1], data[2]));
      assert Encode(data) == g + Encode(data[3..]);
      DivMod3(n + 2, (n - 1) / 3 + 1, (n + 2) - 3 * ((n - 1) / 3 + 1));
    } else if n == 2 {
      assert |Encode(data)| == 4;
    } else if n == 1 {
      assert |Encode(data)| == 4;
    }
  }

  /** Quotient and remainder by 3 are unique. */
  lemma DivMod3(n: int, q: int, r: int)
    requires 0 <= r < 3 && n == q * 3 + r
    ensures n / 3 == q
  {
  }

  /** s is digits followed by exactly pads pad characters. */
  predicate Shaped(s: string, pads: nat) {
    && pads <= |s|
    && (forall i :: 0 <= i < |s| - pads ==> IsDigit(s[i]))
    && (forall i :: |s| - pads <= i < |s| ==> s[i] == Pad)
  }

  lemma ShapedAppend(g: string, t: string, pads: nat)
    requires Shaped(g, 0) && Shaped(t, pads)
    ensures Shaped(g + t, pads)
  {
    var s := g + t;
    forall i | 0 <= i < |s| - pads
      ensures IsDigit(s[i])
    {
      if i >= |g| {
        assert s[i] == t[i - |g|];
      }
    }
    forall i | |s| - pads <= i < |s|
      ensures s[i] == Pad
    {
      assert s[i] == t[i - |g|];
    }
  }

  lemma GroupShaped(n: int)
    requires 0 <= n < 0x100_0000
    ensures Shaped(EncodeGroup(n), 0)
    ensures Shaped(EncodeGroup(n)[..3] + [Pad], 1)
    ensures Shaped(EncodeGroup(n)[..2] + [Pad, Pad], 2)
  {
    var g := EncodeGroup(n);
    assert forall i :: 0 <= i < 4 ==> g[i] == Digit(Sextet(n, i));
  }

  /** An encoding is digits followed by PadCount pads, and nothing else. */
  lemma {:induction false} EncodeAlphabet(data: seq<byte>)
    ensures Shaped(Encode(data), PadCount(|data|))
    decreases |data|
  {
    if |data| >= 3 {
      EncodeAlphabet(data[3..]);
      var n := Group(data[0], data[1], data[2]);
      GroupShaped(n);
      assert Encode(data) == EncodeGroup(n) + Encode(data[3..]);
      ShapedAppend(EncodeGroup(n), Encode(data[3..]), PadCount(|data|));
    } else if |data| == 2 {
      var n := Group(data[0], data[1], 0);
      GroupShaped(n);
      assert Encode(data) == EncodeGroup(n)[..3] + [Pad];
    } else if |data| == 1 {
      var n := Group(data[0], 0, 0);
      GroupShaped(n);
      assert Encode(data) == EncodeGroup(n)[..2] + [Pad, Pad];
    }
  }

  /** An encoding holds no comma. */
  lemma NoCommaInEncoding(data: seq<byte>)
    ensures ',' !in Encode(data)
  {
    EncodeAlphabet(data);
    var s := Encode(data);
    assert Shaped(s, PadCount(|data|));
    forall i | 0 <= i < |s|
      ensures s[i] != ','
    {
      if i < |s| - PadCount(|data|) {
        assert IsDigit(s[i]);
      }
    }
  }

  /** The position of the last c in s, if any. */
  function LastIndex(s: string, c: char): (r: Option<nat>)
    ensures r.Some? ==> r.value < |s| && s[r.value] == c && c !in s[r.value + 1..]
    ensures r.None? ==> c !in s
    decreases |s|
  {
    if |s| == 0 then None
    else if s[|s| - 1] == c then Some(|s| - 1)
    else
      var r := LastIndex(s[..|s| - 1], c);
      assert r.Some? ==> s[r.value + 1..] == s[..|s| - 1][r.value + 1..] + [s[|s| - 1]];
      assert s == s[..|s| - 1] + [s[|s| - 1]];
      r
  }

  /** The c that starts a c-free tail is the last one. */
  lemma {:induction false} LastIndexBeforeTail(p: string, c: char, t: string)
    requires c !in t
    ensures LastIndex(p + [c] + t, c) == Some(|p|)
    decreases |t|
  {
    var s := p + [c] + t;
    if t != [] {
      assert s[|s| - 1] == t[|t| - 1];
      assert s[..|s| - 1] == p + [c] + t[..|t| - 1];
      LastIndexBeforeTail(p, c, t[..|t| - 1]);
    }
  }

  /** The data URL BinaryContent.String builds from a MIME type and data. */
  function DataUrl(mime: string, data: seq<byte>): string {
    "data:" + mime + ";base64," + Encode(data)
  }

  /**
   * Reads a base64 data URL back: "data:", the MIME type, ";base64," and
   * the encoded data after the last comma.
   */
  function ParseDataUrl(s: string): Option<(string, seq<byte>)> {
    if |s| < 5 || s[..5] != "data:" then None
    else match LastIndex(s, ',')
      case None => None
      case Some(k) =>
        if k < 12 || s[k - 7..k] != ";base64" then None
        else match Decode(s[k + 1..])
          case None => None
          case Some(d) => Some((s[5..k - 7], d))
  }

  /** A data URL whose payload holds no comma splits at the comma after ";base64". */
  lemma ParseDataUrlSplits(mime: string, payload: string)
    requires ',' !in payload
    ensures ParseDataUrl("data:" + mime + ";base64," + payload) ==
      (match Decode(payload) case None => None case Some(d) => Some((mime, d)))
  {
    var s := "data:" + mime + ";base64," + payload;
    var p := "data:" + mime + ";base64";
    assert s == p + [','] + payload;
    LastIndexBeforeTail(p, ',', payload);
    var k := |p|;
    assert s[..5] == "data:";
    assert s[k - 7..k] == ";base64";
    assert s[5..k - 7] == mime;
    assert s[k + 1..] == payload;
  }

  /** ParseDataUrl recovers the MIME type and the bytes of every data URL. */
  lemma ParseDataUrlInverts(mime: string, data: seq<byte>)
    ensures ParseDataUrl(DataUrl(mime, data)) == Some((mime, data))
  {
    NoCommaInEncoding(data);
    ParseDataUrlSplits(mime, Encode(data));
    DecodeEncode(data);
  }
}
