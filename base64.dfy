/** Base 64 as section 4 of RFC 4648 defines it (the standard alphabet with
    `=` padding), which is what `base64.b64encode` produces. The decoder is
    here only to state that the encoding loses nothing. */
module Base64 {
  import opened Common

  /** Three more bytes make one more group of four characters. */
  lemma GroupsStep(n: nat)
    requires n >= 3
    ensures (n + 2) / 3 == (n - 3 + 2) / 3 + 1
  {
  }

  lemma ConcatPadded(q: string, rest: string)
    requires forall k :: 0 <= k < |q| ==> IsBase64Char(q[k]) || q[k] == '='
    requires forall k :: 0 <= k < |rest| ==> IsBase64Char(rest[k]) || rest[k] == '='
    ensures forall k :: 0 <= k < |q + rest| ==> IsBase64Char((q + rest)[k]) || (q + rest)[k] == '='
  {
    forall k | 0 <= k < |q + rest| ensures IsBase64Char((q + rest)[k]) || (q + rest)[k] == '=' {
      if k >= |q| {
        assert (q + rest)[k] == rest[k - |q|];
      }
    }
  }

  /** The character for a 6-bit value. */
  function Digit(d: nat): (c: char)
    requires d < 64
    ensures IsBase64Char(c)
  {
    if d < 26 then ('A' as int + d) as char
    else if d < 52 then ('a' as int + d - 26) as char
    else if d < 62 then ('0' as int + d - 52) as char
    else if d == 62 then '+'
    else '/'
  }

  predicate IsBase64Char(c: char)
  {
    ('A' <= c <= 'Z') || ('a' <= c <= 'z') || ('0' <= c <= '9') || c == '+' || c == '/'
  }

  /** The 6-bit value of an alphabet character. */
  function DigitValue(c: char): (d: nat)
    requires IsBase64Char(c)
    ensures d < 64
  {
    if 'A' <= c <= 'Z' then c as int - 'A' as int
    else if 'a' <= c <= 'z' then c as int - 'a' as int + 26
    else if '0' <= c <= '9' then c as int - '0' as int + 52
    else if c == '+' then 62
    else 63
  }

  lemma DigitRoundTrip(d: nat)
    requires d < 64
    ensures DigitValue(Digit(d)) == d
  {
  }

  /** The four 6-bit groups of three bytes, most significant first. */
  function Sextets(b0: byte, b1: byte, b2: byte): (d: seq<nat>)
    ensures |d| == 4 && d[0] < 64 && d[1] < 64 && d[2] < 64 && d[3] < 64
  {
    var n := b0 * 65536 + b1 * 256 + b2;
    [n / 262144, n / 4096 % 64, n / 64 % 64, n % 64]
  }

  /** The three bytes that four 6-bit groups pack. */
  function Unsextets(d0: nat, d1: nat, d2: nat, d3: nat): seq<byte>
    requires d0 < 64 && d1 < 64 && d2 < 64 && d3 < 64
  {
    var n := d0 * 262144 + d1 * 4096 + d2 * 64 + d3;
    [n / 65536, n / 256 % 256, n % 256]
  }

  /** Four characters for three bytes. */
  function Quad(b0: byte, b1: byte, b2: byte): (r: string)
    ensures |r| == 4
    ensures forall k :: 0 <= k < 4 ==> IsBase64Char(r[k])
  {
    var d := Sextets(b0, b1, b2);
    [Digit(d[0]), Digit(d[1]), Digit(d[2]), Digit(d[3])]
  }

  /** `base64.b64encode(bs).decode("ascii")`. */
  function Encode(bs: seq<byte>): (r: string)
    ensures |r| == 4 * ((|bs| + 2) / 3)
    ensures forall k :: 0 <= k < |r| ==> IsBase64Char(r[k]) || r[k] == '='
    decreases |bs|
  {
    if |bs| >= 3 then
      var q, rest := Quad(bs[0], bs[1], bs[2]), Encode(bs[3..]);
      GroupsStep(|bs|);
      ConcatPadded(q, rest);
      q + rest
    else if |bs| == 2 then Quad(bs[0], bs[1], 0)[..3] + "="
    else if |bs| == 1 then Quad(bs[0], 0, 0)[..2] + "=="
    else ""
  }

  /** The three bytes packed into four characters. */
  function Unquad(c0: char, c1: char, c2: char, c3: char): seq<byte>
    requires IsBase64Char(c0) && IsBase64Char(c1) && IsBase64Char(c2) && IsBase64Char(c3)
  {
    Unsextets(DigitValue(c0), DigitValue(c1), DigitValue(c2), DigitValue(c3))
  }

  function Pad(c: char): char
  {
    if c == '=' then 'A' else c
  }

  predicate WellFormed(s: string)
  {
    |s| % 4 == 0 && forall k :: 0 <= k < |s| ==> IsBase64Char(Pad(s[k]))
  }

  /** Decoding four characters at a time; `=` stands for a byte that was
      never there. */
  function Decode(s: string): seq<byte>
    requires WellFormed(s)
    decreases |s|
  {
    if s == [] then []
    else
      var group := Unquad(Pad(s[0]), Pad(s[1]), Pad(s[2]), Pad(s[3]));
      var keep := if s[2] == '=' then 1 else if s[3] == '=' then 2 else 3;
      assert WellFormed(s[4..]) by {
        forall k | 0 <= k < |s[4..]| ensures IsBase64Char(Pad(s[4..][k])) {
          assert s[4..][k] == s[k + 4];
        }
      }
      group[..keep] + Decode(s[4..])
  }

  lemma DivModWord(q: int, r: int)
    requires 0 <= r < 65536
    ensures (q * 65536 + r) / 65536 == q
  {
  }

  lemma DivModByte(q: int, r: int)
    requires 0 <= r < 256
    ensures (q * 256 + r) / 256 == q && (q * 256 + r) % 256 == r
  {
  }

  lemma DivDiv64(n: nat)
    ensures n / 64 / 64 == n / 4096 && n / 4096 / 64 == n / 262144
  {
  }

  /** Unpacking the 6-bit groups gives the three bytes back. */
  lemma SextetsRoundTrip(b0: byte, b1: byte, b2: byte)
    ensures var d := Sextets(b0, b1, b2);
            Unsextets(d[0], d[1], d[2], d[3]) == [b0, b1, b2]
  {
    var n := b0 * 65536 + b1 * 256 + b2;
    var d0, d1, d2, d3 := n / 262144, n / 4096 % 64, n / 64 % 64, n % 64;
    var n1, n2 := n / 64, n / 4096;
    assert n == n1 * 64 + d3;
    DivDiv64(n);
    assert n1 == n2 * 64 + d2;
    assert n2 == d0 * 64 + d1;
    assert d0 * 262144 + d1 * 4096 + d2 * 64 + d3 == n;
    DivModWord(b0, b1 * 256 + b2);
    DivModByte(b0 * 256 + b1, b2);
    DivModByte(b0, b1);
    assert n == (b0 * 256 + b1) * 256 + b2;
  }

  /** A zero third byte leaves the last group zero, and zero second and
      third bytes leave the last two groups zero: that is what makes the
      padded groups read back as `A`. */
  lemma SextetsOfZeros(b0: byte, b1: byte)
    ensures Sextets(b0, b1, 0)[3] == 0
    ensures Sextets(b0, 0, 0)[2] == 0 && Sextets(b0, 0, 0)[3] == 0
  {
    var n := b0 * 65536 + b1 * 256;
    assert n == (b0 * 1024 + b1 * 4) * 64;
    MultipleOf64(b0 * 1024 + b1 * 4);
    var m := b0 * 65536;
    assert m == (b0 * 1024) * 64;
    MultipleOf64(b0 * 1024);
    assert b0 * 1024 == (b0 * 16) * 64;
    MultipleOf64(b0 * 16);
  }

  lemma MultipleOf64(k: nat)
    ensures (k * 64) % 64 == 0 && (k * 64) / 64 == k
  {
  }

  lemma QuadRoundTrip(b0: byte, b1: byte, b2: byte)
    ensures var q := Quad(b0, b1, b2);
            Unquad(q[0], q[1], q[2], q[3]) == [b0, b1, b2]
  {
    var d := Sextets(b0, b1, b2);
    DigitRoundTrip(d[0]);
    DigitRoundTrip(d[1]);
    DigitRoundTrip(d[2]);
    DigitRoundTrip(d[3]);
    SextetsRoundTrip(b0, b1, b2);
  }

  /** Every encoding is well formed. */
  lemma EncodeWellFormed(bs: seq<byte>)
    ensures WellFormed(Encode(bs))
  {
    var r := Encode(bs);
    FourDivides((|bs| + 2) / 3);
    assert forall k :: 0 <= k < |r| ==> IsBase64Char(Pad(r[k]));
  }

  lemma FourDivides(q: nat)
    ensures (4 * q) % 4 == 0
  {
  }

  /** Encoding loses nothing: decoding gives the bytes back. */
  lemma {:induction false} RoundTrip(bs: seq<byte>)
    ensures WellFormed(Encode(bs))
    ensures Decode(Encode(bs)) == bs
    decreases |bs|
  {
    EncodeWellFormed(bs);
    if |bs| >= 3 {
      RoundTrip(bs[3..]);
      SplitThree(bs);
      RoundTripGroup(bs[0], bs[1], bs[2], bs[3..]);
    } else if |bs| == 2 {
      RoundTripTwo(bs[0], bs[1]);
      assert bs == [bs[0], bs[1]];
    } else if |bs| == 1 {
      RoundTripOne(bs[0]);
      assert bs == [bs[0]];
    }
  }

  lemma RoundTripGroup(b0: byte, b1: byte, b2: byte, tail: seq<byte>)
    requires WellFormed(Encode(tail)) && Decode(Encode(tail)) == tail
    ensures WellFormed(Encode([b0, b1, b2] + tail))
    ensures Decode(Encode([b0, b1, b2] + tail)) == [b0, b1, b2] + tail
  {
    var bs := [b0, b1, b2] + tail;
    assert bs[3..] == tail;
    EncodeWellFormed(bs);
    var q := Quad(b0, b1, b2);
    assert Encode(bs) == q + Encode(tail);
    DecodeGroup(q, Encode(tail));
    QuadRoundTrip(b0, b1, b2);
  }

  lemma SplitThree(bs: seq<byte>)
    requires |bs| >= 3
    ensures bs == [bs[0], bs[1], bs[2]] + bs[3..]
  {
    assert bs[..3] == [bs[0], bs[1], bs[2]];
    assert bs == bs[..3] + bs[3..];
  }

  /** A group without padding decodes to its three bytes. */
  lemma DecodeGroup(q: string, rest: string)
    requires |q| == 4 && IsBase64Char(q[0]) && IsBase64Char(q[1]) && IsBase64Char(q[2]) && IsBase64Char(q[3])
    requires WellFormed(rest) && WellFormed(q + rest)
    ensures Decode(q + rest) == Unquad(q[0], q[1], q[2], q[3]) + Decode(rest)
  {
    var s := q + rest;
    assert s[..4] == q && s[4..] == rest;
    assert s[0] == q[0] && s[1] == q[1] && s[2] == q[2] && s[3] == q[3];
  }

  lemma RoundTripTwo(b0: byte, b1: byte)
    ensures WellFormed(Encode([b0, b1])) && Decode(Encode([b0, b1])) == [b0, b1]
  {
    EncodeWellFormed([b0, b1]);
    var q := Quad(b0, b1, 0);
    SextetsOfZeros(b0, b1);
    assert q[3] == 'A';
    var r := Encode([b0, b1]);
    assert r == [q[0], q[1], q[2], '='];
    QuadRoundTrip(b0, b1, 0);
    assert Decode(r) == Unquad(q[0], q[1], q[2], 'A')[..2] + Decode(r[4..]);
    assert r[4..] == [];
  }

  lemma RoundTripOne(b0: byte)
    ensures WellFormed(Encode([b0])) && Decode(Encode([b0])) == [b0]
  {
    EncodeWellFormed([b0]);
    var q := Quad(b0, 0, 0);
    SextetsOfZeros(b0, 0);
    assert q[2] == 'A' && q[3] == 'A';
    var r := Encode([b0]);
    assert r == [q[0], q[1], '=', '='];
    QuadRoundTrip(b0, 0, 0);
    assert Decode(r) == Unquad(q[0], q[1], 'A', 'A')[..1] + Decode(r[4..]);
    assert r[4..] == [];
  }
}
