/**
 * The wire format of section 5.2 of RFC 6455, written as data: big-endian lengths, headers,
 * masked client frames and unmasked server frames, with the reader of a header.
 */
module Frames {
  import opened Bytes

  const TEXT: byte := 0x1
  const CLOSE: byte := 0x8
  const TWO63: nat := 0x8000_0000_0000_0000
  const TWO64: nat := 0x1_0000_0000_0000_0000

  function Pow256(k: nat): (p: nat)
    ensures p > 0
  {
    if k == 0 then 1 else 256 * Pow256(k - 1)
  }

  lemma Pow256Values()
    ensures Pow256(2) == 0x1_0000 && Pow256(8) == TWO64
  {
    assert Pow256(2) == 256 * Pow256(1);
    assert Pow256(4) == 256 * Pow256(3);
    assert Pow256(6) == 256 * Pow256(5);
  }

  /** The `k` low bytes of `n`, most significant first. */
  function BigEndian(n: nat, k: nat): (s: seq<byte>)
    ensures |s| == k
  {
    if k == 0 then [] else BigEndian(n / 256, k - 1) + [(n % 256) as byte]
  }

  function FromBigEndian(s: seq<byte>): (n: nat)
    ensures n < Pow256(|s|)
  {
    if s == [] then 0 else 256 * FromBigEndian(s[..|s| - 1]) + s[|s| - 1] as nat
  }

  lemma {:induction false} BigEndianRoundTrip(n: nat, k: nat)
    requires n < Pow256(k)
    ensures FromBigEndian(BigEndian(n, k)) == n
  {
    if k > 0 {
      BigEndianRoundTrip(n / 256, k - 1);
      var s := BigEndian(n, k);
      assert s[..k - 1] == BigEndian(n / 256, k - 1);
    }
  }

  lemma {:induction false} FromBigEndianRoundTrip(s: seq<byte>)
    ensures BigEndian(FromBigEndian(s), |s|) == s
  {
    if s != [] {
      var n := FromBigEndian(s);
      FromBigEndianRoundTrip(s[..|s| - 1]);
      assert n / 256 == FromBigEndian(s[..|s| - 1]) && n % 256 == s[|s| - 1] as nat;
      assert s == s[..|s| - 1] + [s[|s| - 1]];
    }
  }

  lemma HalfStep(k: nat, high: nat, low: nat)
    requires k > 0 && low < 256
    ensures 2 * high < Pow256(k) <==> 2 * (256 * high + low) < Pow256(k + 1)
  {
    var p := 128 * Pow256(k - 1);
    assert Pow256(k) == 2 * p;
  }

  /** A set top bit is exactly a value in the upper half. */
  lemma {:induction false} TopBit(s: seq<byte>)
    requires |s| > 0
    ensures !HighBit(s[0]) <==> 2 * FromBigEndian(s) < Pow256(|s|)
  {
    var high := s[..|s| - 1];
    if |s| == 1 {
      assert FromBigEndian(s) == 256 * FromBigEndian(high) + s[0] as nat && Pow256(1) == 256 * Pow256(0);
    } else {
      TopBit(high);
      HalfStep(|high|, FromBigEndian(high), s[|s| - 1] as nat);
    }
  }

  /** The three length forms. */
  datatype Form = Short | Medium | Long

  function ExtraBytes(form: Form): nat {
    match form case Short => 0 case Medium => 2 case Long => 8
  }

  function Capacity(form: Form): nat {
    match form case Short => 126 case Medium => 0x1_0000 case Long => TWO63
  }

  function ShortestForm(n: nat): (form: Form)
    ensures n < TWO63 ==> n < Capacity(form)
    ensures forall other: Form :: n < Capacity(other) ==> ExtraBytes(form) <= ExtraBytes(other)
  {
    if n <= 125 then Short else if n <= 65535 then Medium else Long
  }

  function LengthCode(form: Form, n: nat): (code: byte)
    requires n < Capacity(form)
    ensures code < 128
  {
    match form case Short => n as byte case Medium => 126 case Long => 127
  }

  /** First byte, mask bit with length code, extended length. */
  function Header(first: byte, masked: bool, form: Form, n: nat): (h: seq<byte>)
    requires n < Capacity(form)
    ensures |h| == 2 + ExtraBytes(form)
  {
    [first, (if masked then 128 else 0) + LengthCode(form, n)] + BigEndian(n, ExtraBytes(form))
  }

  datatype Head = Head(first: byte, masked: bool, form: Form, length: nat)

  function FormOf(second: byte): Form {
    if Low7(second) == 126 then Medium else if Low7(second) == 127 then Long else Short
  }

  /** Reads a header from the front of `data`, or reports that more bytes are needed. */
  function ReadHeader(data: seq<byte>): (h: Option<Head>)
    ensures h.Some? ==> |data| >= 2 + ExtraBytes(h.value.form) && h.value.first == data[0]
  {
    if |data| < 2 then None
    else
      var form := FormOf(data[1]);
      var size := ExtraBytes(form);
      if |data| < 2 + size then None
      else
        var n := if form.Short? then Low7(data[1]) as nat else FromBigEndian(data[2..2 + size]);
        Some(Head(data[0], HighBit(data[1]), form, n))
  }

  lemma HeaderRoundTrip(first: byte, masked: bool, form: Form, n: nat, rest: seq<byte>)
    requires n < Capacity(form)
    ensures ReadHeader(Header(first, masked, form, n) + rest) == Some(Head(first, masked, form, n))
  {
    var data := Header(first, masked, form, n) + rest;
    assert Low7(data[1]) == LengthCode(form, n);
    if !form.Short? {
      assert data[2..2 + ExtraBytes(form)] == BigEndian(n, ExtraBytes(form));
      Pow256Values();
      BigEndianRoundTrip(n, ExtraBytes(form));
    }
  }

  /** The converse: the bytes a header was read from are that header. */
  lemma HeaderReadBack(data: seq<byte>)
    requires ReadHeader(data).Some?
    requires ReadHeader(data).value.length < Capacity(ReadHeader(data).value.form)
    ensures var h := ReadHeader(data).value;
            data[..2 + ExtraBytes(h.form)] == Header(h.first, h.masked, h.form, h.length)
  {
    var h := ReadHeader(data).value;
    var size := ExtraBytes(h.form);
    assert data[2..2 + size] == BigEndian(h.length, size) by {
      if !h.form.Short? {
        FromBigEndianRoundTrip(data[2..2 + size]);
      }
    }
    assert data[..2 + size] == [data[0], data[1]] + data[2..2 + size];
  }

  lemma ReadHeaderMonotone(data: seq<byte>, more: seq<byte>)
    requires ReadHeader(data).Some?
    ensures ReadHeader(data + more) == ReadHeader(data)
  {
    var size := ExtraBytes(FormOf(data[1]));
    SliceOfPrefix(data, more, 2, 2 + size);
  }

  /** XOR with the 4-byte key, cyclically (section 5.3 of RFC 6455). */
  function Mask(key: seq<byte>, s: seq<byte>): (m: seq<byte>)
    requires |key| == 4
    ensures |m| == |s| && forall i :: 0 <= i < |s| ==> m[i] == Xor(s[i], key[i % 4])
  {
    seq(|s|, i requires 0 <= i < |s| => Xor(s[i], key[i % 4]))
  }

  lemma MaskInvolution(key: seq<byte>, s: seq<byte>)
    requires |key| == 4
    ensures Mask(key, Mask(key, s)) == s
  {
    forall i | 0 <= i < |s| ensures Mask(key, Mask(key, s))[i] == s[i] {
      XorTwice(s[i], key[i % 4]);
    }
  }

  /** A masked frame as a client may send it, in any length form that holds its payload. */
  datatype Frame = Frame(first: byte, form: Form, key: seq<byte>, payload: seq<byte>) {
    predicate Valid() {
      |key| == 4 && |payload| < Capacity(form)
    }

    function Opcode(): byte {
      Low4(first)
    }

    /** Final fragment of a text or close message: the frames the server understands. */
    predicate Understood() {
      HighBit(first) && (Opcode() == TEXT || Opcode() == CLOSE)
    }

    function Wire(): (w: seq<byte>)
      requires Valid()
      ensures |w| == 6 + ExtraBytes(form) + |payload|
    {
      Header(first, true, form, |payload|) + key + Mask(key, payload)
    }
  }

  /** The client encoding of a text message: final, masked, shortest form. */
  function ClientFrame(message: seq<byte>, key: seq<byte>): (f: Frame)
    requires |key| == 4 && |message| < TWO63
    ensures f.Valid() && f.Understood() && f.Opcode() == TEXT && f.payload == message
  {
    Frame(0x81, ShortestForm(|message|), key, message)
  }

  /** The server encoding of a text message: final, unmasked, shortest form. */
  function ServerFrame(message: seq<byte>): (w: seq<byte>)
    requires |message| < TWO63
    ensures |w| >= 2 + |message|
  {
    Header(0x81, false, ShortestForm(|message|), |message|) + message
  }
}
