/** `parseFrame` and `encodeFrame` of src/WebSocketHandler.cpp. */
module WebSocket {
  import opened Bytes
  import opened Frames

  datatype Parsed = Parsed(opcode: byte, payload: seq<byte>, frameLen: nat)

  predicate Supported(first: byte) {
    Low4(first) == TEXT || Low4(first) == CLOSE
  }

  /** Where the payload starts. */
  function PayloadStart(h: Head): nat {
    2 + ExtraBytes(h.form) + (if h.masked then 4 else 0)
  }

  /** Section 5.2 of RFC 6455: the top bit of a 64-bit length is 0. */
  predicate LegalLength(data: seq<byte>) {
    |data| >= 10 && Supported(data[0]) && FormOf(data[1]).Long? ==> !HighBit(data[2])
  }

  /** Section 5.1 of RFC 6455: a client masks its frames. */
  predicate MaskedHead(data: seq<byte>) {
    |data| >= 2 && Supported(data[0]) ==> HighBit(data[1])
  }

  /**
   * What the parser answers for the front of `data`. `stale` is what the key array holds
   * when no key is read into it.
   */
  function Parse(data: seq<byte>, stale: seq<byte>): (r: Option<Parsed>)
    requires |stale| == 4
    ensures r.Some? ==> 2 <= r.value.frameLen <= |data|
  {
    if |data| < 2 || !Supported(data[0]) then None
    else
      match ReadHeader(data)
      case None => None
      case Some(h) =>
        var start := PayloadStart(h);
        if |data| < start + h.length || !HighBit(h.first) then None
        else
          var key := if h.masked then data[start - 4..start] else stale;
          Some(Parsed(Low4(h.first), Mask(key, data[start..start + h.length]), start + h.length))
  }

  lemma LegalLengthBound(data: seq<byte>)
    requires LegalLength(data) && |data| >= 2 && Supported(data[0]) && ReadHeader(data).Some?
    ensures ReadHeader(data).value.length < Capacity(ReadHeader(data).value.form)
  {
    Pow256Values();
    match FormOf(data[1]) {
      case Long => TopBit(data[2..10]);
      case Medium =>
      case Short =>
    }
  }

  /** Once the payload is being looked at, its end is a 64-bit number. */
  predicate EndFits(data: seq<byte>) {
    |data| >= 2 && Supported(data[0]) && ReadHeader(data).Some? ==>
      var h := ReadHeader(data).value;
      |data| >= PayloadStart(h) ==> PayloadStart(h) + h.length < TWO64
  }

  lemma LegalLengthFits(data: seq<byte>)
    requires LegalLength(data)
    ensures EndFits(data)
  {
    if |data| >= 2 && Supported(data[0]) && ReadHeader(data).Some? {
      LegalLengthBound(data);
      Pow256Values();
    }
  }

  /**
   * The code's completeness test adds in 64 bits. With the header and key received, it tells
   * whether the frame is complete if and only if the end of the payload is a 64-bit number.
   */
  lemma LengthTestExactly(data: seq<byte>, h: Head)
    requires PayloadStart(h) <= |data| < TWO64 && h.length < TWO64
    ensures (|data| >= AddWord(PayloadStart(h), h.length) <==> |data| >= PayloadStart(h) + h.length)
            <==> PayloadStart(h) + h.length < TWO64
  {
    var sum := PayloadStart(h) + h.length;
    if sum >= TWO64 {
      assert sum - TWO64 < TWO64;
      assert sum % TWO64 == sum - TWO64;
      assert AddWord(PayloadStart(h), h.length) < PayloadStart(h);
    }
  }

  // ------------------------------------------------------------------ the parser, as code

  /** `(word << 8) | b` on a 64-bit word. */
  function ShiftIn(word: nat, b: byte): nat {
    (256 * word) % TWO64 + b as nat
  }

  /** Folds `count` bytes into a word, most significant first. */
  method FoldLength(data: seq<byte>, pos: nat, count: nat) returns (n: nat)
    requires count <= 8 && pos + count <= |data|
    ensures n == FromBigEndian(data[pos..pos + count])
  {
    n := 0;
    for i := 0 to count
      invariant n == FromBigEndian(data[pos..pos + i])
    {
      ghost var s := data[pos..pos + i + 1];
      assert s[..i] == data[pos..pos + i];
      WordStep(s);
      n := ShiftIn(n, data[pos + i]);
    }
  }

  lemma {:induction false} PowMonotone(a: nat, b: nat)
    requires a <= b
    ensures Pow256(a) <= Pow256(b)
    decreases b - a
  {
    if a < b {
      PowMonotone(a + 1, b);
    }
  }

  /** Eight bytes fit the word, so nothing is shifted out. */
  lemma WordStep(s: seq<byte>)
    requires 0 < |s| <= 8
    ensures FromBigEndian(s) == ShiftIn(FromBigEndian(s[..|s| - 1]), s[|s| - 1])
  {
    PowMonotone(|s|, 8);
    Pow256Values();
    NoWrap(256 * FromBigEndian(s[..|s| - 1]));
  }

  /** 64-bit addition; within the legal lengths it does not wrap. */
  function AddWord(a: nat, b: nat): (sum: nat)
    ensures a + b < TWO64 ==> sum == a + b
  {
    (a + b) % TWO64
  }

  lemma NoWrap(n: nat)
    requires n < TWO64
    ensures n % TWO64 == n
  {
  }

  /** The unmasking loop. */
  method Unmask(data: seq<byte>, pos: nat, n: nat, key: seq<byte>) returns (message: seq<byte>)
    requires |key| == 4 && pos + n <= |data|
    ensures message == Mask(key, data[pos..pos + n])
  {
    message := [];
    for i := 0 to n
      invariant |message| == i
      invariant forall j :: 0 <= j < i ==> message[j] == Xor(data[pos..pos + n][j], key[j % 4])
    {
      message := message + [Xor(data[pos + i], key[i % 4])];
    }
  }

  /** The second byte and the extended length; `pos` is the first byte after them. */
  method ReadLength(data: seq<byte>) returns (ok: bool, masked: bool, payloadLen: nat, pos: nat)
    requires |data| >= 2
    ensures ok <==> ReadHeader(data).Some?
    ensures ok ==> var h := ReadHeader(data).value;
              masked == h.masked && payloadLen == h.length && pos == 2 + ExtraBytes(h.form)
  {
    var secondByte := data[1];
    pos := 2;
    masked := HighBit(secondByte);
    payloadLen := Low7(secondByte) as nat;
    if payloadLen == 126 {
      if |data| < pos + 2 {
        return false, masked, payloadLen, pos;
      }
      payloadLen := FoldLength(data, pos, 2);
      pos := pos + 2;
    } else if payloadLen == 127 {
      if |data| < pos + 8 {
        return false, masked, payloadLen, pos;
      }
      payloadLen := FoldLength(data, pos, 8);
      pos := pos + 8;
    }
    ok := true;
  }

  /** The masking key at `pos` if there is one, the length check and the unmasked payload. */
  method TakePayload(data: seq<byte>, masked: bool, payloadLen: nat, pos: nat, stale: seq<byte>)
    returns (ok: bool, message: seq<byte>, frameLen: nat)
    requires |stale| == 4 && pos <= |data| < TWO64
    requires var start := if masked then pos + 4 else pos; |data| >= start ==> start + payloadLen < TWO64
    ensures ok <==> |data| >= (if masked then pos + 4 else pos) + payloadLen
    ensures ok ==> frameLen == (if masked then pos + 4 else pos) + payloadLen
    ensures ok ==> message == Mask(if masked then data[pos..pos + 4] else stale, data[frameLen - payloadLen..frameLen])
  {
    ok, message, frameLen := false, [], 0;
    var start := pos;
    var maskingKey := stale;
    if masked {
      if |data| < pos + 4 {
        return;
      }
      maskingKey := data[pos..pos + 4];
      start := start + 4;
    }
    frameLen := AddWord(start, payloadLen);
    if |data| < frameLen {
      return;
    }
    message := Unmask(data, start, payloadLen, maskingKey);
    ok := true;
  }

  method ParseFrame(data: seq<byte>, stale: seq<byte>)
    returns (ok: bool, message: seq<byte>, frameLen: nat, opcode: byte)
    requires |data| < TWO64 && |stale| == 4
    requires EndFits(data)
    ensures ok <==> Parse(data, stale).Some?
    ensures ok ==> Parse(data, stale) == Some(Parsed(opcode, message, frameLen))
  {
    ok, message, frameLen, opcode := false, [], 0, 0;
    if |data| < 2 {
      return;
    }
    var firstByte := data[0];
    var pos := 1;
    var fin := HighBit(firstByte);
    opcode := Low4(firstByte);
    if opcode != TEXT && opcode != CLOSE {
      return;
    }
    var masked, payloadLen;
    ok, masked, payloadLen, pos := ReadLength(data);
    if !ok {
      return;
    }
    ok := false;
    var complete;
    complete, message, frameLen := TakePayload(data, masked, payloadLen, pos, stale);
    if !complete {
      return;
    }
    ok := fin;
  }

  // ------------------------------------------------------------------ what the parser means

  /** Appending bytes never changes a successful parse. */
  lemma ParseMonotone(data: seq<byte>, more: seq<byte>, stale: seq<byte>)
    requires |stale| == 4
    requires Parse(data, stale).Some?
    ensures Parse(data + more, stale) == Parse(data, stale)
  {
    ReadHeaderMonotone(data, more);
    var h := ReadHeader(data).value;
    var start := PayloadStart(h);
    SliceOfPrefix(data, more, start, start + h.length);
    if h.masked {
      SliceOfPrefix(data, more, start - 4, start);
    }
  }

  lemma WireHead(f: Frame, rest: seq<byte>)
    requires f.Valid()
    ensures ReadHeader(f.Wire() + rest) == Some(Head(f.first, true, f.form, |f.payload|))
  {
    var tail := f.key + Mask(f.key, f.payload) + rest;
    assert f.Wire() + rest == Header(f.first, true, f.form, |f.payload|) + tail;
    HeaderRoundTrip(f.first, true, f.form, |f.payload|, tail);
  }

  /** Completeness: every frame the server understands is parsed, whatever follows it. */
  lemma ParseComplete(f: Frame, rest: seq<byte>, stale: seq<byte>)
    requires |stale| == 4 && f.Valid() && f.Understood()
    ensures Parse(f.Wire() + rest, stale) == Some(Parsed(f.Opcode(), f.payload, |f.Wire()|))
  {
    WireHead(f, rest);
    var n := |f.payload|;
    var body := Mask(f.key, f.payload);
    var data := f.Wire() + rest;
    var header := Header(f.first, true, f.form, n);
    var start := |header| + 4;
    assert data == header + f.key + (body + rest) && data == (header + f.key) + body + rest;
    Middle(header, f.key, body + rest);
    Middle(header + f.key, body, rest);
    MaskInvolution(f.key, f.payload);
  }

  /** Soundness: a successful parse of a masked head consumed exactly one such frame. */
  lemma ParseSound(data: seq<byte>, stale: seq<byte>) returns (f: Frame)
    requires |stale| == 4 && LegalLength(data) && MaskedHead(data)
    requires Parse(data, stale).Some?
    ensures f.Valid() && f.Understood()
    ensures Parse(data, stale) == Some(Parsed(f.Opcode(), f.payload, |f.Wire()|))
    ensures f.Wire() <= data
  {
    LegalLengthBound(data);
    HeaderReadBack(data);
    var h := ReadHeader(data).value;
    var start := PayloadStart(h);
    var key, body := data[start - 4..start], data[start..start + h.length];
    f := Frame(h.first, h.form, key, Mask(key, body));
    MaskInvolution(key, body);
    assert data[..start + h.length] == data[..start - 4] + key + body;
    assert f.Wire() == data[..start + h.length];
  }

  /** Both directions at once: parsing succeeds exactly on data that starts with an understood frame. */
  lemma ParseExact(data: seq<byte>, stale: seq<byte>)
    requires |stale| == 4 && LegalLength(data) && MaskedHead(data)
    ensures Parse(data, stale).Some? <==> exists f: Frame :: f.Valid() && f.Understood() && f.Wire() <= data
  {
    if Parse(data, stale).Some? {
      var f := ParseSound(data, stale);
    }
    forall f: Frame | f.Valid() && f.Understood() && f.Wire() <= data
      ensures Parse(data, stale).Some?
    {
      ParseComplete(f, data[|f.Wire()|..], stale);
      assert data == f.Wire() + data[|f.Wire()|..];
    }
  }

  /** The round trip of a client message through all three length forms, with anything behind it. */
  lemma ClientRoundTrip(message: seq<byte>, key: seq<byte>, rest: seq<byte>, stale: seq<byte>)
    requires |key| == 4 && |stale| == 4 && |message| < TWO63
    ensures var w := ClientFrame(message, key).Wire();
            Parse(w + rest, stale) == Some(Parsed(TEXT, message, |w|))
  {
    ParseComplete(ClientFrame(message, key), rest, stale);
  }

  /** The masked "Hello" of section 5.7 of RFC 6455. */
  lemma ParseHello(rest: seq<byte>, stale: seq<byte>)
    requires |stale| == 4
    ensures Parse([0x81, 0x85, 0x37, 0xfa, 0x21, 0x3d, 0x7f, 0x9f, 0x4d, 0x51, 0x58] + rest, stale)
            == Some(Parsed(TEXT, [0x48, 0x65, 0x6c, 0x6c, 0x6f], 11))
  {
    var key, masked, hello := [0x37, 0xfa, 0x21, 0x3d], [0x7f, 0x9f, 0x4d, 0x51, 0x58], [0x48, 0x65, 0x6c, 0x6c, 0x6f];
    hide Parse, Mask;
    HelloUnmasked(key, masked);
    MaskInvolution(key, masked);
    var f := Frame(0x81, Short, key, hello);
    assert f.Wire() == [0x81, 0x85] + key + masked;
    assert f.Wire() == [0x81, 0x85, 0x37, 0xfa, 0x21, 0x3d, 0x7f, 0x9f, 0x4d, 0x51, 0x58];
    ParseComplete(f, rest, stale);
  }

  lemma HelloUnmasked(key: seq<byte>, s: seq<byte>)
    requires key == [0x37, 0xfa, 0x21, 0x3d] && s == [0x7f, 0x9f, 0x4d, 0x51, 0x58]
    ensures Mask(key, s) == [0x48, 0x65, 0x6c, 0x6c, 0x6f]
  {
    hide Xor, XorBits, Mask, Hex.Value, Hex.DifferFrom;
    HelloStart(s[0], key[0], s[1], key[1], s[4]);
    HelloEnd(s[2], key[2], s[3], key[3]);
    var m := Mask(key, s);
    assert m[0] == 0x48 && m[1] == 0x65 && m[2] == 0x6c && m[3] == 0x6c && m[4] == 0x6f;
  }

  lemma HelloStart(a: byte, k: byte, b: byte, l: byte, c: byte)
    requires a == 0x7f && k == 0x37 && b == 0x9f && l == 0xfa && c == 0x58
    ensures Xor(a, k) == 0x48 && Xor(b, l) == 0x65 && Xor(c, k) == 0x6f
  {
    hide Xor, XorBits;
    XorInHex(a, k, Hex(0, 1, 1, 1), Hex(1, 1, 1, 1), Hex(0, 0, 1, 1), Hex(0, 1, 1, 1));
    XorInHex(b, l, Hex(1, 0, 0, 1), Hex(1, 1, 1, 1), Hex(1, 1, 1, 1), Hex(1, 0, 1, 0));
    XorInHex(c, k, Hex(0, 1, 0, 1), Hex(1, 0, 0, 0), Hex(0, 0, 1, 1), Hex(0, 1, 1, 1));
  }

  lemma HelloEnd(a: byte, k: byte, b: byte, l: byte)
    requires a == 0x4d && k == 0x21 && b == 0x51 && l == 0x3d
    ensures Xor(a, k) == 0x6c && Xor(b, l) == 0x6c
  {
    hide Xor, XorBits;
    XorInHex(a, k, Hex(0, 1, 0, 0), Hex(1, 1, 0, 1), Hex(0, 0, 1, 0), Hex(0, 0, 0, 1));
    XorInHex(b, l, Hex(0, 1, 0, 1), Hex(0, 0, 0, 1), Hex(0, 0, 1, 1), Hex(1, 1, 0, 1));
  }

  /** An empty close frame, and a ping (sections 5.5.1 and 5.5.2 of RFC 6455). */
  lemma ParseControl(key: seq<byte>, rest: seq<byte>, stale: seq<byte>)
    requires |key| == 4 && |stale| == 4
    ensures Parse([0x88, 0x80] + key + rest, stale) == Some(Parsed(8, [], 6))
    ensures Parse([0x89, 0x80] + key + rest, stale) == None
  {
    var close, ping := [0x88, 0x80] + key + rest, [0x89, 0x80] + key + rest;
    assert close[0] == 0x88 && close[1] == 0x80 && ping[0] == 0x89;
  }

  /** Lengths of 256 and 65536 bytes as section 5.7 of RFC 6455 writes them. */
  lemma LengthExamples()
    ensures ReadHeader([0x81, 0xfe, 0x01, 0x00]) == Some(Head(0x81, true, Medium, 256))
    ensures ReadHeader([0x81, 0xff, 0, 0, 0, 0, 0, 1, 0, 0]) == Some(Head(0x81, true, Long, 65536))
  {
    var m, n := [0x81, 0xfe, 0x01, 0x00], [0x81, 0xff, 0, 0, 0, 0, 0, 1, 0, 0];
    var s, t := m[2..4], n[2..10];
    assert s[..1] == [1] && s[..1][..0] == [];
    assert FromBigEndian(s[..1]) == 1;
    ZeroPrefix(t, 5);
    assert t[..6][..5] == t[..5] && t[..7][..6] == t[..6] && t[..8][..7] == t[..7] && t[..8] == t;
    assert FromBigEndian(t[..6]) == 1;
    assert FromBigEndian(t[..7]) == 256;
    assert FromBigEndian(t[..8]) == 65536;
  }

  lemma {:induction false} ZeroPrefix(t: seq<byte>, k: nat)
    requires k <= |t| && forall i :: 0 <= i < k ==> t[i] == 0
    ensures FromBigEndian(t[..k]) == 0
  {
    if k > 0 {
      ZeroPrefix(t, k - 1);
      assert t[..k][..k - 1] == t[..k - 1];
    }
  }

  /** The unmasked "Hello" of the same section is what the server sends. */
  lemma EncodeHello()
    ensures ServerFrame([0x48, 0x65, 0x6c, 0x6c, 0x6f]) == [0x81, 0x05, 0x48, 0x65, 0x6c, 0x6c, 0x6f]
  {
  }

  /** A frame that has not fully arrived is not parsed. */
  lemma ParseNeedsWholeFrame(f: Frame, k: nat, stale: seq<byte>)
    requires |stale| == 4 && f.Valid() && k < |f.Wire()|
    ensures Parse(f.Wire()[..k], stale).None?
  {
    var part, missing := f.Wire()[..k], f.Wire()[k..];
    assert part + missing == f.Wire() + [];
    WireHead(f, []);
    if Parse(part, stale).Some? {
      ParseMonotone(part, missing, stale);
    }
  }

  /** A frame the server does not understand blocks the stream: no continuation is ever parsed. */
  lemma ParseRejects(f: Frame, rest: seq<byte>, stale: seq<byte>)
    requires |stale| == 4 && f.Valid() && !f.Understood()
    ensures Parse(f.Wire() + rest, stale).None?
  {
    assert (f.Wire() + rest)[0] == f.first;
  }

  /** A complete, final, supported, unmasked, non-empty frame: the case in which no key is read. */
  predicate ReadsStaleKey(data: seq<byte>) {
    |data| >= 2 && Supported(data[0]) && HighBit(data[0]) &&
    match ReadHeader(data)
    case None => false
    case Some(h) => !h.masked && h.length > 0 && |data| >= PayloadStart(h) + h.length
  }

  /** The smallest such frame, one unmasked byte of text: two contents of the key array, two messages. */
  lemma StaleKeyShows(x: byte)
    ensures Parse([0x81, 0x01, x], [0, 0, 0, 0]) != Parse([0x81, 0x01, x], [1, 0, 0, 0])
  {
    var data := [0x81, 0x01, x];
    var h := ReadHeader(data).value;
    assert !h.masked && h.length == 1 && PayloadStart(h) == 2;
    assert data[2..3][0] == x;
    assert Parse(data, [0, 0, 0, 0]).value.payload[0] == Xor(x, 0);
    assert Parse(data, [1, 0, 0, 0]).value.payload[0] == Xor(x, 1);
    KeysDiffer(x);
  }

  /** The answer is a function of the data exactly when the key array is not read unset. */
  lemma ParseDeterminedExactly(data: seq<byte>)
    ensures (forall a: seq<byte>, b: seq<byte> :: |a| == 4 && |b| == 4 ==> Parse(data, a) == Parse(data, b))
            <==> !ReadsStaleKey(data)
  {
    if ReadsStaleKey(data) {
      var h := ReadHeader(data).value;
      var start := PayloadStart(h);
      var a, b := [0, 0, 0, 0], [1, 0, 0, 0];
      var x := data[start];
      assert data[start..start + h.length][0] == x;
      assert Parse(data, a).value.payload[0] == Xor(x, a[0]);
      assert Parse(data, b).value.payload[0] == Xor(x, b[0]);
      KeysDiffer(x);
    } else {
      forall a: seq<byte>, b: seq<byte> | |a| == 4 && |b| == 4 ensures Parse(data, a) == Parse(data, b) {
        StaleUnused(data, a, b);
      }
    }
  }

  lemma KeysDiffer(x: byte)
    ensures Xor(x, 0) != Xor(x, 1)
  {
    XorAt(x, 0, 0);
    XorAt(x, 1, 0);
  }

  lemma StaleUnused(data: seq<byte>, a: seq<byte>, b: seq<byte>)
    requires |a| == 4 && |b| == 4 && !ReadsStaleKey(data)
    ensures Parse(data, a) == Parse(data, b)
  {
    if Parse(data, a).Some? {
      var h := ReadHeader(data).value;
      if h.length == 0 {
        var start := PayloadStart(h);
        assert data[start..start + 0] == [];
        assert Mask(a, []) == Mask(b, []);
      }
    }
  }

  // ------------------------------------------------------------------ the encoder

  /** `n >> (8 * k)`. */
  function ShiftBytes(n: nat, k: nat): nat {
    if k == 0 then n else ShiftBytes(n, k - 1) / 256
  }

  /** The eight length bytes, from the most significant down. */
  method AppendLength(frame: seq<byte>, len: nat) returns (longer: seq<byte>)
    ensures longer == frame + BigEndian(len, 8)
  {
    longer := frame;
    var i := 8;
    while i > 0
      invariant 0 <= i <= 8
      invariant longer == frame + BigEndian(ShiftBytes(len, i), 8 - i)
    {
      i := i - 1;
      longer := longer + [(ShiftBytes(len, i) % 256) as byte];
    }
  }

  method EncodeFrame(message: seq<byte>) returns (frame: seq<byte>)
    requires |message| < TWO63
    ensures frame == ServerFrame(message)
  {
    frame := [0x81];
    var len := |message|;
    HeaderBytes(len);
    if len <= 125 {
      frame := frame + [len as byte];
    } else if len <= 65535 {
      frame := frame + [126];
      frame := frame + [(ShiftBytes(len, 1) % 256) as byte] + [(len % 256) as byte];
    } else {
      frame := frame + [127];
      frame := AppendLength(frame, len);
    }
    frame := frame + message;
  }

  /** The three headers, byte by byte. */
  lemma HeaderBytes(n: nat)
    requires n < TWO63
    ensures var h := Header(0x81, false, ShortestForm(n), n);
            h == if n <= 125 then [0x81] + [n as byte]
                 else if n <= 65535 then [0x81] + [126] + [(ShiftBytes(n, 1) % 256) as byte] + [(n % 256) as byte]
                 else [0x81] + [127] + BigEndian(n, 8)
  {
    if 126 <= n <= 65535 {
      TwoBytes(n);
    }
  }

  lemma TwoBytes(n: nat)
    ensures BigEndian(n, 2) == [(ShiftBytes(n, 1) % 256) as byte] + [(n % 256) as byte]
  {
    assert BigEndian(n / 256, 1) == BigEndian(n / 256 / 256, 0) + [(n / 256 % 256) as byte];
    assert ShiftBytes(n, 1) == ShiftBytes(n, 0) / 256;
  }

  /** A section 5.2 receiver of server frames: one unmasked final text frame, or not yet. */
  function DecodeOne(s: seq<byte>): (r: Option<seq<byte>>)
    ensures r.Some? ==> |r.value| + 2 <= |s|
  {
    match ReadHeader(s)
    case None => None
    case Some(h) =>
      var start := 2 + ExtraBytes(h.form);
      if h.first != 0x81 || h.masked || |s| < start + h.length then None
      else Some(s[start..start + h.length])
  }

  /** How many bytes that frame took. */
  function FrameSize(s: seq<byte>): (n: nat)
    requires DecodeOne(s).Some?
    ensures 2 <= n <= |s|
  {
    2 + ExtraBytes(ReadHeader(s).value.form) + |DecodeOne(s).value|
  }

  /** All complete frames at the front of the stream. */
  function Decode(s: seq<byte>): seq<seq<byte>>
    decreases |s|
  {
    if DecodeOne(s).None? then [] else [DecodeOne(s).value] + Decode(s[FrameSize(s)..])
  }

  function Encoded(messages: seq<seq<byte>>): seq<seq<byte>>
    requires forall m :: m in messages ==> |m| < TWO63
  {
    seq(|messages|, i requires 0 <= i < |messages| => ServerFrame(messages[i]))
  }

  lemma DecodeOneFrame(m: seq<byte>, rest: seq<byte>)
    requires |m| < TWO63
    ensures DecodeOne(ServerFrame(m) + rest) == Some(m)
    ensures FrameSize(ServerFrame(m) + rest) == |ServerFrame(m)|
  {
    var h := Header(0x81, false, ShortestForm(|m|), |m|);
    var data := ServerFrame(m) + rest;
    assert data == h + (m + rest);
    HeaderRoundTrip(0x81, false, ShortestForm(|m|), |m|, m + rest);
    assert data[|h|..|h| + |m|] == m;
  }

  lemma DecodeMonotone(s: seq<byte>, more: seq<byte>)
    requires DecodeOne(s).Some?
    ensures DecodeOne(s + more) == DecodeOne(s) && FrameSize(s + more) == FrameSize(s)
  {
    ReadHeaderMonotone(s, more);
    var h := ReadHeader(s).value;
    var start := 2 + ExtraBytes(h.form);
    SliceOfPrefix(s, more, start, start + h.length);
  }

  /**
   * Any prefix of a concatenation of server frames decodes to a prefix of the messages, and
   * to all of them when nothing is missing.
   */
  lemma {:induction false} DecodePrefix(messages: seq<seq<byte>>, s: seq<byte>)
    requires forall m :: m in messages ==> |m| < TWO63
    requires s <= Flatten(Encoded(messages))
    ensures Decode(s) <= messages
    ensures s == Flatten(Encoded(messages)) ==> Decode(s) == messages
  {
    hide DecodeOne, FrameSize, ServerFrame;
    if messages == [] {
      DecodeNothing();
      assert Flatten(Encoded(messages)) == [];
    } else {
      var m, later := messages[0], messages[1..];
      var w := ServerFrame(m);
      assert Encoded(messages)[1..] == Encoded(later);
      HeadOfPrefix(m, Flatten(Encoded(later)), s);
      if |s| >= |w| {
        assert s[|w|..] <= Flatten(Encoded(later));
        DecodePrefix(later, s[|w|..]);
        assert messages == [m] + later;
      }
    }
  }

  lemma DecodeNothing()
    ensures Decode([]) == []
  {
  }

  /** Within a prefix of a frame and its continuation, the frame is decoded exactly when it is whole. */
  lemma HeadOfPrefix(m: seq<byte>, tail: seq<byte>, s: seq<byte>)
    requires |m| < TWO63 && s <= ServerFrame(m) + tail
    ensures DecodeOne(s).Some? <==> |s| >= |ServerFrame(m)|
    ensures DecodeOne(s).Some? ==> DecodeOne(s).value == m && FrameSize(s) == |ServerFrame(m)|
  {
    var w := ServerFrame(m);
    var whole := w + tail;
    if |s| >= |w| {
      assert s == w + s[|w|..];
      DecodeOneFrame(m, s[|w|..]);
    } else if DecodeOne(s).Some? {
      assert whole == s + whole[|s|..];
      DecodeMonotone(s, whole[|s|..]);
      DecodeOneFrame(m, tail);
    }
  }

  /** Server frames are uniquely decodable. */
  lemma UniquelyDecodable(a: seq<seq<byte>>, b: seq<seq<byte>>)
    requires forall m :: m in a ==> |m| < TWO63
    requires forall m :: m in b ==> |m| < TWO63
    requires Flatten(Encoded(a)) == Flatten(Encoded(b))
    ensures a == b
  {
    DecodePrefix(a, Flatten(Encoded(a)));
    DecodePrefix(b, Flatten(Encoded(b)));
  }

  /** No other legal encoding of the message is shorter. */
  lemma ShortestEncoding(m: seq<byte>, form: Form)
    requires |m| < TWO63 && |m| < Capacity(form)
    ensures |ServerFrame(m)| <= |Header(0x81, false, form, |m|) + m|
  {
    var best := ShortestForm(|m|);
    assert ExtraBytes(best) <= ExtraBytes(form);
  }
}
