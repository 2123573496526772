/** The wire frame: a little-endian header length, a JSON header padded with spaces to a multiple
    of four, and the payload. JSON text itself is abstract; lengths, padding, byte order and
    payload arithmetic are concrete. */
module Frame {
  import opened Wrappers
  import opened Bits
  import opened MiniFloat
  import opened HalfPrecision
  import opened NearestCode
  import opened Quantize

  datatype Json =
    | JNull | JBool(b: bool) | JNum(x: real) | JStr(s: string)
    | JArr(items: seq<Json>) | JObj(fields: map<string, Json>)

  type Header = map<string, Json>

  /** A message: its JSON fields and at most one named float array. */
  datatype Message = Message(header: Header, vector: Option<(string, seq<real>)>)

  /** JSON text, both ways, and how a value that is no string is spelled as a property name. */
  datatype JsonCodec = JsonCodec(stringify: Header -> seq<nat>, parse: seq<nat> -> Option<Header>,
      spell: Json -> string)

  function Spaces(n: nat): seq<nat> {
    seq(n, _ => 0x20)
  }

  ghost predicate IsByte(b: nat) {
    b < 256
  }

  /** Nothing but spaces. */
  ghost predicate Blank(pad: seq<nat>) {
    forall i :: 0 <= i < |pad| ==> pad[i] == 0x20
  }

  /** The text of one header parses back to it, trailing spaces or not. Nothing is asked of any
      other header: text cannot tell all real numbers apart. */
  ghost predicate ReadsBack(c: JsonCodec, h: Header) {
    && (forall pad: seq<nat> :: Blank(pad) ==> c.parse(c.stringify(h) + pad) == Some(h))
    && (forall i: nat :: i < |c.stringify(h)| ==> IsByte(c.stringify(h)[i]))
  }

  /** For every header there is such a codec. */
  lemma SomeCodecReads(h: Header)
    ensures exists c :: ReadsBack(c, h)
  {
    var c := JsonCodec(_ => [0x7b], _ => Some(h), _ => "");
    assert ReadsBack(c, h);
  }

  // ── bytes ─────────────────────────────────────────────────────────────────

  function Pow256(k: nat): (r: nat)
    ensures r >= 1
  {
    if k == 0 then 1 else 256 * Pow256(k - 1)
  }

  /** `n` in `k` little-endian bytes. */
  function LittleEndian(n: nat, k: nat): (bytes: seq<nat>)
    ensures |bytes| == k && forall i :: 0 <= i < k ==> IsByte(bytes[i])
  {
    if k == 0 then [] else [n % 256] + LittleEndian(n / 256, k - 1)
  }

  function FromBytes(bytes: seq<nat>): nat {
    if bytes == [] then 0 else bytes[0] + 256 * FromBytes(bytes[1..])
  }

  lemma {:induction false} LittleEndianReads(n: nat, k: nat)
    requires n < Pow256(k)
    ensures FromBytes(LittleEndian(n, k)) == n
  {
    if k > 0 {
      LittleEndianReads(n / 256, k - 1);
      assert LittleEndian(n, k)[1..] == LittleEndian(n / 256, k - 1);
    }
  }

  /** A typed array laid out in memory, `k` bytes an element. */
  function Layout(codes: seq<nat>, k: nat): (bytes: seq<nat>)
    ensures |bytes| == k * |codes|
  {
    if codes == [] then []
    else
      assert k * |codes| == k * (|codes| - 1) + k;
      Layout(codes[..|codes| - 1], k) + LittleEndian(codes[|codes| - 1], k)
  }

  /** Memory viewed as a typed array; a trailing partial element is not seen. */
  function View(bytes: seq<nat>, k: nat): (codes: seq<nat>)
    requires k > 0
  {
    if |bytes| < k then [] else [FromBytes(bytes[..k])] + View(bytes[k..], k)
  }

  lemma {:induction false} ViewAppends(bytes: seq<nat>, n: nat, k: nat, count: nat)
    requires k > 0 && n < Pow256(k) && |bytes| == k * count
    ensures View(bytes + LittleEndian(n, k), k) == View(bytes, k) + [n]
    decreases count
  {
    var all := bytes + LittleEndian(n, k);
    if count == 0 {
      assert all[..k] == LittleEndian(n, k) && all[k..] == [];
      LittleEndianReads(n, k);
    } else {
      assert k * count == k * (count - 1) + k;
      assert all[..k] == bytes[..k] && all[k..] == bytes[k..] + LittleEndian(n, k);
      ViewAppends(bytes[k..], n, k, count - 1);
    }
  }

  lemma {:induction false} ViewOfLayout(codes: seq<nat>, k: nat)
    requires k > 0 && forall i :: 0 <= i < |codes| ==> codes[i] < Pow256(k)
    ensures View(Layout(codes, k), k) == codes
  {
    if codes != [] {
      var front := codes[..|codes| - 1];
      ViewOfLayout(front, k);
      ViewAppends(Layout(front, k), codes[|codes| - 1], k, |front|);
      assert codes == front + [codes[|codes| - 1]];
    }
  }

  // ── the payload ───────────────────────────────────────────────────────────

  function Width(p: Precision): (k: nat)
    ensures k == 1 || k == 2 || k == 4
  {
    match p
    case P32 => 4
    case P16 => 2
    case P8E4M3 => 1
    case P8E5M2 => 1
  }

  function FormatId(p: Precision): string {
    match p
    case P32 => "f32"
    case P16 => "f16"
    case P8E4M3 => "f8e4m3"
    case P8E5M2 => "f8e5m2"
  }

  /** The known reduced formats; any other id reads as plain f32, as the source's lookup does. */
  function FormatNamed(id: string): Precision {
    if id == "f16" then P16 else if id == "f8e4m3" then P8E4M3 else if id == "f8e5m2" then P8E5M2 else P32
  }

  function Words(v: seq<real>): (codes: seq<nat>) {
    seq<nat>(|v|, i requires 0 <= i < |v| => StoreWord(FromReal(v[i])))
  }

  function PlainValues(codes: seq<nat>): (v: seq<real>) {
    seq(|codes|, i requires 0 <= i < |codes| => CodeValue(codes[i], F32))
  }

  /** The precision a vector actually travels at: an empty one is never quantized. */
  function Effective(v: seq<real>, p: Precision): Precision {
    if |v| == 0 then P32 else p
  }

  function PayloadCodes(v: seq<real>, p: Precision): seq<nat> {
    if p == P32 then Words(v) else Codes(v, p)
  }

  /** Every code fits its width. */
  lemma CodeFits(v: seq<real>, p: Precision, i: nat)
    requires i < |v|
    ensures PayloadCodes(v, p)[i] < Pow256(Width(p))
  {
    hide WireCode, Times, ScaleOf, StoreWord, MaxAbs;
    assert Pow256(1) == 256 && Pow256(2) == 0x1_0000 && Pow256(4) == 0x1_0000_0000;
    WordRange(v[i]);
    WireCodeFits(Times(v[i], ScaleOf(v, p)), p);
    if p != P32 { CodesAt(v, ScaleOf(v, p), p, i); }
  }

  lemma WireCodeFits(x: real, p: Precision)
    ensures p == P16 ==> WireCode(x, p) < 0x1_0000
    ensures p == P8E4M3 || p == P8E5M2 ==> WireCode(x, p) < 256
  {
    hide HalfOf, StoreWord, F16ToF32, EncodeReal, FiniteCodes, SignBit, DecodeMini, Magnitude;
    WordRange(x);
    if p == P8E4M3 || p == P8E5M2 {
      var f := FormatOf(p);
      FormatFacts();
      TableEntry(0, f);
      TableEntry(TableSize(f) - 1, f);
      var any := TargetInByte(p, false);
      var num := F16ToF32(HalfCode(x));
      if num.Fin? { EncodeNearest(Real(num), any, f); }
    }
  }

  /** At full precision a vector of f32 values reads back exactly. */
  lemma PlainExact(v: seq<real>)
    requires F32Values(v)
    ensures PlainValues(Words(v)) == v
  {
    hide StoreWord, CodeValue, FiniteCodes, Magnitude;
    forall i | 0 <= i < |v| ensures PlainValues(Words(v))[i] == v[i] {
      var m: nat :| m < FiniteCodes(F32) && Abs(v[i]) == Magnitude(m, F32);
      WordExact(v[i], m);
    }
  }

  lemma WordExact(x: real, m: nat)
    requires m < FiniteCodes(F32) && Abs(x) == Magnitude(m, F32)
    ensures CodeValue(StoreWord(FromReal(x)), F32) == x
  {
    hide StoreWord, FiniteCodes, Magnitude, DecodeMini, RoundCode;
    WordLimits();
    RoundCodeExact(m, F32);
    StoreReads(x < 0.0, Abs(x));
  }

  // ── encode and decode ─────────────────────────────────────────────────────

  /** The header as it travels: the array's name, and its format and scale when reduced. */
  function WireHeader(m: Message, p: Precision): Header {
    match m.vector
    case None => m.header
    case Some((field, v)) =>
      var named := m.header["_f32" := JStr(field)];
      if Effective(v, p) == P32 then named
      else named + map["_fmt" := JStr(FormatId(p)), "_scale" := JNum(ScaleOf(v, p))]
  }

  function Padding(length: nat): (pad: nat)
    ensures pad < 4 && (4 + length + pad) % 4 == 0
  {
    (4 - (4 + length) % 4) % 4
  }

  function HeaderBytes(m: Message, p: Precision, c: JsonCodec): seq<nat> {
    var json := c.stringify(WireHeader(m, p));
    json + Spaces(Padding(|json|))
  }

  function PayloadBytes(m: Message, p: Precision): seq<nat> {
    match m.vector
    case None => []
    case Some((_, v)) => Layout(PayloadCodes(v, Effective(v, p)), Width(Effective(v, p)))
  }

  /** The frame of a message. */
  function Encode(m: Message, p: Precision, c: JsonCodec): (bytes: seq<nat>) {
    var header := HeaderBytes(m, p, c);
    LittleEndian(|header|, 4) + header + PayloadBytes(m, p)
  }

  /** Reading a frame. `None` is the source's throw on a short or unparsable frame or a payload view
      at a misaligned offset, and stands for its non-finite array where a reduced one comes without
      a usable scale. */
  function Decode(bytes: seq<nat>, c: JsonCodec): Option<Message> {
    if |bytes| < 4 then None
    else
      var offset := 4 + FromBytes(bytes[..4]);
      if |bytes| < offset then None
      else
        match c.parse(bytes[4..offset])
        case None => None
        case Some(h) => DecodePayload(h, bytes[offset..], offset, c)
  }

  predicate Truthy(j: Json) {
    match j
    case JNull => false
    case JBool(b) => b
    case JNum(x) => x != 0.0
    case JStr(s) => s != ""
    case _ => true
  }

  /** The field a header names as its array; any truthy value counts. */
  function ArrayName(h: Header, c: JsonCodec): Option<string> {
    if "_f32" !in h || !Truthy(h["_f32"]) then None
    else if h["_f32"].JStr? then Some(h["_f32"].s)
    else Some(c.spell(h["_f32"]))
  }

  function ArrayFormat(h: Header): Precision {
    if "_fmt" in h && h["_fmt"].JStr? then FormatNamed(h["_fmt"].s) else P32
  }

  /** The message once its array is set and the working fields are deleted, in that order: an
      array named like a working field goes with it. */
  function Delivered(h: Header, working: set<string>, field: string, v: seq<real>): Message {
    Message(h - working - {field}, if field in working then None else Some((field, v)))
  }

  function DecodePayload(h: Header, payload: seq<nat>, offset: nat, c: JsonCodec): Option<Message> {
    match ArrayName(h, c)
    case None => Some(Message(h, None))
    case Some(field) =>
      var p := ArrayFormat(h);
      if offset % Width(p) != 0 then None
      else if p == P32 then Some(Delivered(h, {"_f32"}, field, PlainValues(View(payload, 4))))
      else if "_scale" !in h || !h["_scale"].JNum? || h["_scale"].x == 0.0 then None
      else Some(Delivered(h, {"_f32", "_fmt", "_scale"}, field, Values(View(payload, Width(p)), h["_scale"].x, p)))
  }

  /** What `encode` builds from: the array, if any, is one of three fields, and taken out of the
      header. */
  ghost predicate Framed(m: Message) {
    m.vector.Some? ==>
      var field := m.vector.value.0;
      (field == "g" || field == "params" || field == "avg") && field !in m.header
  }

  /** What the sender can check before encoding: without an array no truthy `_f32`; with one no
      `_f32`, and at reduced precision none of the working fields, at f32 no `_fmt` that names a
      reduced format. */
  predicate Survives(m: Message, p: Precision) {
    match m.vector
    case None => "_f32" !in m.header || !Truthy(m.header["_f32"])
    case Some((field, v)) =>
      && "_f32" !in m.header
      && if Effective(v, p) == P32 then ArrayFormat(m.header) == P32 else "_fmt" !in m.header && "_scale" !in m.header
  }

  /** What the receiver should hold: the array replaced by what the wire made of it. */
  function Received(m: Message, p: Precision): Message {
    match m.vector
    case None => m
    case Some((field, v)) => m.(vector := Some((field, OnWire(v, p))))
  }

  /** The payload always starts at a multiple of four, so every typed view is aligned. */
  lemma PayloadAligned(m: Message, p: Precision, c: JsonCodec)
    ensures (4 + |HeaderBytes(m, p, c)|) % 4 == 0
    ensures forall q: Precision :: (4 + |HeaderBytes(m, p, c)|) % Width(q) == 0
  {
    forall q: Precision ensures (4 + |HeaderBytes(m, p, c)|) % Width(q) == 0 {
      MultipleOfWidth(4 + |HeaderBytes(m, p, c)|, q);
    }
  }

  lemma MultipleOfWidth(n: nat, q: Precision)
    requires n % 4 == 0
    ensures n % Width(q) == 0
  {
    match q {
      case P32 => assert Width(P32) == 4;
      case P16 => assert Width(P16) == 2 && n % 2 == 0;
      case P8E4M3 => assert Width(P8E4M3) == 1 && n % 1 == 0;
      case P8E5M2 => assert Width(P8E5M2) == 1 && n % 1 == 0;
    }
  }

  lemma FrameParts(m: Message, p: Precision, c: JsonCodec)
    requires |HeaderBytes(m, p, c)| < 0x1_0000_0000
    ensures var e, header := Encode(m, p, c), HeaderBytes(m, p, c);
            && |e| >= 4 + |header| && FromBytes(e[..4]) == |header|
            && e[4..4 + |header|] == header && e[4 + |header|..] == PayloadBytes(m, p)
  {
    hide HeaderBytes, PayloadBytes;
    var e, header := Encode(m, p, c), HeaderBytes(m, p, c);
    assert Pow256(4) == 0x1_0000_0000;
    LittleEndianReads(|header|, 4);
    assert e[..4] == LittleEndian(|header|, 4);
  }

  /** The payload codes survive their layout. */
  lemma PayloadReads(v: seq<real>, p: Precision)
    ensures View(Layout(PayloadCodes(v, p), Width(p)), Width(p)) == PayloadCodes(v, p)
  {
    hide PayloadCodes;
    var codes := PayloadCodes(v, p);
    forall i | 0 <= i < |codes| ensures codes[i] < Pow256(Width(p)) {
      PayloadLength(v, p);
      CodeFits(v, p, i);
    }
    ViewOfLayout(codes, Width(p));
  }

  lemma PayloadLength(v: seq<real>, p: Precision)
    ensures |PayloadCodes(v, p)| == |v|
  {}

  /** Frame round trip: decoding needs no precision setting, and returns what the wire made of the
      message exactly when the sender's own fields leave the reserved names alone. */
  lemma FrameRoundTrip(m: Message, p: Precision, c: JsonCodec)
    requires Framed(m) && ReadsBack(c, WireHeader(m, p))
    requires |HeaderBytes(m, p, c)| < 0x1_0000_0000
    requires m.vector.Some? && Effective(m.vector.value.1, p) == P32 ==> F32Values(m.vector.value.1)
    ensures Decode(Encode(m, p, c), c) == Some(Received(m, p)) <==> Survives(m, p)
  {
    hide Encode, PayloadBytes, DecodePayload, WireHeader, Received, F32Values, Survives, Framed;
    var header := HeaderBytes(m, p, c);
    assert Blank(Spaces(Padding(|c.stringify(WireHeader(m, p))|)));
    FrameParts(m, p, c);
    PayloadAligned(m, p, c);
    PayloadRoundTrip(m, p, 4 + |header|, c);
  }

  lemma PayloadRoundTrip(m: Message, p: Precision, offset: nat, c: JsonCodec)
    requires Framed(m) && offset % 4 == 0
    requires m.vector.Some? && Effective(m.vector.value.1, p) == P32 ==> F32Values(m.vector.value.1)
    ensures DecodePayload(WireHeader(m, p), PayloadBytes(m, p), offset, c) == Some(Received(m, p)) <==> Survives(m, p)
  {
    hide View, Layout, PayloadCodes, Values, Codes, ScaleOf, PlainValues, Words, F32Values, OnWire, WireHeader,
         FormatId, FormatNamed;
    if m.vector.Some? {
      var (field, v) := m.vector.value;
      HeaderReads(m, p);
      PayloadReads(v, Effective(v, p));
      WireVector(v, p);
      MultipleOfWidth(offset, Effective(v, p));
    } else {
      BareHeader(m, p);
    }
  }

  lemma BareHeader(m: Message, p: Precision)
    requires m.vector.None?
    ensures WireHeader(m, p) == m.header
  {
  }

  /** What the receiver finds in the header of a message with an array, and when taking the working
      fields out leaves the sender's own. */
  lemma HeaderReads(m: Message, p: Precision)
    requires Framed(m) && m.vector.Some?
    ensures var h, (field, v) := WireHeader(m, p), m.vector.value;
            var q := Effective(v, p);
            && "_f32" in h && h["_f32"] == JStr(field) && field != "" && field !in {"_f32", "_fmt", "_scale"}
            && (q == P32 ==> ArrayFormat(h) == ArrayFormat(m.header))
            && (q == P32 ==> (h - {"_f32"} - {field} == m.header <==> "_f32" !in m.header))
            && (q == P32 && ArrayFormat(m.header) != P32 ==> h - {"_f32", "_fmt", "_scale"} - {field} != m.header)
            && (q != P32 ==> ArrayFormat(h) == q && "_scale" in h && h["_scale"] == JNum(ScaleOf(v, q)))
            && (q != P32 ==> (h - {"_f32", "_fmt", "_scale"} - {field} == m.header <==>
                                "_f32" !in m.header && "_fmt" !in m.header && "_scale" !in m.header))
  {
    hide ScaleOf;
  }

  lemma WireVector(v: seq<real>, p: Precision)
    requires Effective(v, p) == P32 ==> F32Values(v)
    ensures Effective(v, p) == P32 ==> PlainValues(PayloadCodes(v, P32)) == OnWire(v, p)
    ensures Effective(v, p) != P32 ==> Values(PayloadCodes(v, p), ScaleOf(v, p), p) == OnWire(v, p)
  {
    hide Values, Codes, ScaleOf, PlainValues, Words, F32Values;
    if Effective(v, p) == P32 {
      PlainExact(v);
    }
  }

  // ── byte by byte ──────────────────────────────────────────────────────────

  /** Byte `j` of a number of at most four. */
  function ByteOf(n: nat, j: nat): nat {
    if j == 0 then n % 256
    else if j == 1 then n / 256 % 256
    else if j == 2 then n / 65536 % 256
    else n / 16777216 % 256
  }

  lemma LittleEndianBytes(n: nat, k: nat, j: nat)
    requires j < k <= 4
    ensures LittleEndian(n, k)[j] == ByteOf(n, j)
  {
    var a, b, c := n / 256, n / 256 / 256, n / 256 / 256 / 256;
    assert b == n / 65536 && c == n / 16777216;
    assert LittleEndian(n, k) == [n % 256] + LittleEndian(a, k - 1);
    assert k > 1 ==> LittleEndian(a, k - 1) == [a % 256] + LittleEndian(b, k - 2);
    assert k > 2 ==> LittleEndian(b, k - 2) == [b % 256] + LittleEndian(c, k - 3);
    assert k > 3 ==> LittleEndian(c, k - 3) == [c % 256] + LittleEndian(c / 256, k - 4);
  }

  lemma {:induction false} LayoutBytes(codes: seq<nat>, k: nat, i: nat, j: nat)
    requires i < |codes| && j < k <= 4
    ensures k * i + j < |Layout(codes, k)| && Layout(codes, k)[k * i + j] == ByteOf(codes[i], j)
  {
    hide LittleEndian, ByteOf;
    var n := |codes| - 1;
    assert k * |codes| == k * n + k;
    if i == n {
      LittleEndianBytes(codes[n], k, j);
    } else {
      Room(k, i, n);
      LayoutBytes(codes[..n], k, i, j);
    }
  }

  /** How many bytes an element of a vector sent at `p` takes. */
  function ElementBytes(v: seq<real>, p: Precision): nat {
    if |v| == 0 || p == P32 then 4 else if p == P16 then 2 else 1
  }

  /** The bytes of a frame: the length of the rest of the header in four bytes, lowest first; the
      header's text; spaces up to the next multiple of four; and the codes, lowest byte first. */
  lemma FrameBytes(m: Message, p: Precision, c: JsonCodec) returns (offset: nat)
    ensures var e, json := Encode(m, p, c), c.stringify(WireHeader(m, p));
            && offset % 4 == 0 && 4 + |json| <= offset < 4 + |json| + 4 && offset <= |e|
            && (forall j :: 0 <= j < 4 ==> e[j] == ByteOf(offset - 4, j))
            && e[4..4 + |json|] == json
            && (forall k :: 4 + |json| <= k < offset ==> e[k] == 0x20)
    ensures m.vector.None? ==> |Encode(m, p, c)| == offset
    ensures m.vector.Some? ==>
              var v, e := m.vector.value.1, Encode(m, p, c);
              var codes, w := PayloadCodes(v, Effective(v, p)), ElementBytes(v, p);
              && |codes| == |v| && |e| == offset + w * |v|
              && forall i, j :: 0 <= i < |v| && 0 <= j < w ==>
                   ElementByte(e, offset, w, i, j) == Some(ByteOf(codes[i], j))
  {
    hide PayloadCodes, Layout, ByteOf, WireHeader, Encode, ElementByte;
    offset := 4 + |HeaderBytes(m, p, c)|;
    PayloadAligned(m, p, c);
    FrameHead(m, p, c);
    FrameTail(m, p, c);
    if m.vector.Some? { FramePayload(m, p, Encode(m, p, c), offset); }
  }

  lemma FrameHead(m: Message, p: Precision, c: JsonCodec)
    ensures |Encode(m, p, c)| >= 4 && forall j :: 0 <= j < 4 ==> Encode(m, p, c)[j] == ByteOf(|HeaderBytes(m, p, c)|, j)
  {
    hide HeaderBytes, PayloadBytes, ByteOf, LittleEndian;
    forall j | 0 <= j < 4 ensures Encode(m, p, c)[j] == ByteOf(|HeaderBytes(m, p, c)|, j) {
      LittleEndianBytes(|HeaderBytes(m, p, c)|, 4, j);
    }
  }

  lemma FramePayload(m: Message, p: Precision, e: seq<nat>, offset: nat)
    requires m.vector.Some? && offset <= |e| && e[offset..] == PayloadBytes(m, p)
    ensures var v := m.vector.value.1;
            var codes, w := PayloadCodes(v, Effective(v, p)), ElementBytes(v, p);
            && |codes| == |v| && |e| == offset + w * |v|
            && forall i, j :: 0 <= i < |v| && 0 <= j < w ==>
                 ElementByte(e, offset, w, i, j) == Some(ByteOf(codes[i], j))
  {
    hide PayloadCodes, ByteOf, Layout;
    var v := m.vector.value.1;
    var codes, w := PayloadCodes(v, Effective(v, p)), ElementBytes(v, p);
    PayloadLength(v, Effective(v, p));
    forall i, j | 0 <= i < |v| && 0 <= j < w ensures ElementByte(e, offset, w, i, j) == Some(ByteOf(codes[i], j)) {
      LayoutBytes(codes, w, i, j);
      assert e[offset..][w * i + j] == e[offset + (w * i + j)];
    }
  }

  /** Byte `j` of element `i` of an array of `w`-byte elements that starts at `offset`. */
  function ElementByte(e: seq<nat>, offset: nat, w: nat, i: nat, j: nat): Option<nat> {
    if offset + (w * i + j) < |e| then Some(e[offset + (w * i + j)]) else None
  }

  lemma FrameTail(m: Message, p: Precision, c: JsonCodec)
    ensures var e, json, header := Encode(m, p, c), c.stringify(WireHeader(m, p)), HeaderBytes(m, p, c);
            && |e| == 4 + |header| + |PayloadBytes(m, p)|
            && e[4..4 + |json|] == json
            && (forall k :: 4 + |json| <= k < 4 + |header| ==> e[k] == 0x20)
            && e[4 + |header|..] == PayloadBytes(m, p)
  {
    hide PayloadBytes, WireHeader, LittleEndian;
    var e, header := Encode(m, p, c), HeaderBytes(m, p, c);
    assert e[4..4 + |header|] == header;
    forall k | 4 + |c.stringify(WireHeader(m, p))| <= k < 4 + |header| ensures e[k] == 0x20 {
      assert e[k] == header[k - 4];
    }
    assert forall k :: 0 <= k < |c.stringify(WireHeader(m, p))| ==> e[4 + k] == header[k];
  }

  /** The number in the `w` bytes at `pos`, lowest first. */
  function Number(bytes: seq<nat>, pos: nat, w: nat): nat
    requires pos + w <= |bytes| && (w == 1 || w == 2 || w == 4)
  {
    if w == 1 then bytes[pos]
    else if w == 2 then bytes[pos] + 256 * bytes[pos + 1]
    else bytes[pos] + 256 * bytes[pos + 1] + 65536 * bytes[pos + 2] + 16777216 * bytes[pos + 3]
  }

  lemma FromBytesIs(bytes: seq<nat>, pos: nat, w: nat)
    requires pos + w <= |bytes| && (w == 1 || w == 2 || w == 4)
    ensures FromBytes(bytes[pos..pos + w]) == Number(bytes, pos, w)
  {
    var a := bytes[pos..pos + w];
    assert FromBytes(a) == a[0] + 256 * FromBytes(a[1..]);
    if w >= 2 { assert FromBytes(a[1..]) == a[1] + 256 * FromBytes(a[2..]) by { assert a[1..][1..] == a[2..]; } }
    if w == 4 {
      assert FromBytes(a[2..]) == a[2] + 256 * FromBytes(a[3..]) by { assert a[2..][1..] == a[3..]; }
      assert FromBytes(a[3..]) == a[3] + 256 * FromBytes(a[4..]) by { assert a[3..][1..] == a[4..]; }
    }
  }

  /** A view has an element for every whole one there is room for. */
  lemma {:induction false} ViewLength(bytes: seq<nat>, w: nat)
    requires w > 0
    ensures w * |View(bytes, w)| <= |bytes| < w * |View(bytes, w)| + w
  {
    if |bytes| >= w { ViewLength(bytes[w..], w); }
  }

  lemma {:induction false} ViewAt(bytes: seq<nat>, w: nat, i: nat)
    requires (w == 1 || w == 2 || w == 4) && i < |View(bytes, w)|
    ensures w * i + w <= |bytes| && View(bytes, w)[i] == Number(bytes, w * i, w)
  {
    hide FromBytes;
    ViewLength(bytes, w);
    if i == 0 {
      FromBytesIs(bytes, 0, w);
    } else {
      ViewAt(bytes[w..], w, i - 1);
      assert w * (i - 1) + w == w * i;
    }
  }

  /** Which values of the working fields mean what, as they are spelled. */
  lemma FieldsRead(h: Header, c: JsonCodec)
    ensures ArrayName(h, c) == None <==>
              "_f32" !in h || h["_f32"] == JNull || h["_f32"] == JBool(false) || h["_f32"] == JNum(0.0) ||
                h["_f32"] == JStr("")
    ensures forall s :: s != "" && "_f32" in h && h["_f32"] == JStr(s) ==> ArrayName(h, c) == Some(s)
    ensures ArrayFormat(h) == P16 <==> "_fmt" in h && h["_fmt"] == JStr("f16")
    ensures ArrayFormat(h) == P8E4M3 <==> "_fmt" in h && h["_fmt"] == JStr("f8e4m3")
    ensures ArrayFormat(h) == P8E5M2 <==> "_fmt" in h && h["_fmt"] == JStr("f8e5m2")
  {
  }

  /** Any frame at all, whoever laid it out: what it must hold to be read, and what is then read, down
      to the bytes of each element. */
  lemma DecodesTo(bytes: seq<nat>, c: JsonCodec)
    ensures |bytes| < 4 || |bytes| < 4 + Number(bytes, 0, 4) ==> Decode(bytes, c) == None
    ensures |bytes| >= 4 && |bytes| >= 4 + Number(bytes, 0, 4) ==>
              var offset := 4 + Number(bytes, 0, 4);
              var text := c.parse(bytes[4..offset]);
              if text.None? then Decode(bytes, c) == None
              else if ArrayName(text.value, c).None? then Decode(bytes, c) == Some(Message(text.value, None))
              else ReadsArray(bytes, offset, text.value, ArrayName(text.value, c).value, Decode(bytes, c))
  {
    hide FromBytes, ArrayName, DecodePayload, ReadsArray, Number;
    if |bytes| >= 4 {
      FromBytesIs(bytes, 0, 4);
      var offset := 4 + Number(bytes, 0, 4);
      assert bytes[0..4] == bytes[..4];
      if |bytes| >= offset && c.parse(bytes[4..offset]).Some? {
        var h := c.parse(bytes[4..offset]).value;
        if ArrayName(h, c).Some? { PayloadIs(bytes, offset, h, c); } else { NoPayload(bytes, offset, h, c); }
      }
    }
  }

  /** The array of a frame: of the format the header names, at an offset its elements divide, and, when
      reduced, under a scale that can be divided by. */
  ghost predicate ReadsArray(bytes: seq<nat>, offset: nat, h: Header, field: string, r: Option<Message>)
    requires offset <= |bytes|
  {
    var p := ArrayFormat(h);
    var w := if p == P32 then 4 else if p == P16 then 2 else 1;
    var unusable := p != P32 && ("_scale" !in h || !h["_scale"].JNum? || h["_scale"].x == 0.0);
    && (r.None? <==> offset % w != 0 || unusable)
    && (r.Some? ==>
         var fields := if p == P32 then {"_f32"} else {"_f32", "_fmt", "_scale"};
         && r.value.header == h - fields - {field}
         && (r.value.vector.None? <==> field in fields)
         && (r.value.vector.Some? ==>
              var (name, v) := r.value.vector.value;
              && name == field && w * |v| <= |bytes| - offset < w * |v| + w
              && forall i :: 0 <= i < |v| ==> Some(v[i]) == ElementAt(bytes, offset, w, i, p, h)))
  }

  /** Element `i`: the value its bytes encode in the format, divided by the scale. */
  function ElementAt(bytes: seq<nat>, offset: nat, w: nat, i: nat, p: Precision, h: Header): Option<real>
    requires w == 1 || w == 2 || w == 4
  {
    if offset + w * i + w > |bytes| then None
    else
      var x := CodeValue(Number(bytes, offset + w * i, w), FormatOf(p));
      if p == P32 then Some(x)
      else if "_scale" !in h || !h["_scale"].JNum? || h["_scale"].x == 0.0 then None
      else Some(Times(x, Over(1.0, h["_scale"].x)))
  }

  lemma NoPayload(bytes: seq<nat>, offset: nat, h: Header, c: JsonCodec)
    requires offset <= |bytes| && ArrayName(h, c).None?
    ensures DecodePayload(h, bytes[offset..], offset, c) == Some(Message(h, None))
  {
    hide ArrayName;
  }

  lemma PayloadIs(bytes: seq<nat>, offset: nat, h: Header, c: JsonCodec)
    requires offset <= |bytes| && ArrayName(h, c).Some?
    ensures ReadsArray(bytes, offset, h, ArrayName(h, c).value, DecodePayload(h, bytes[offset..], offset, c))
  {
    hide ArrayName, View, CodeValue, Times, Over, Number, ElementAt, ArrayFormat;
    var field, p := ArrayName(h, c).value, ArrayFormat(h);
    var w := if p == P32 then 4 else if p == P16 then 2 else 1;
    ViewLength(bytes[offset..], w);
    forall i | 0 <= i < |View(bytes[offset..], w)|
      ensures ElementAt(bytes, offset, w, i, p, h) ==
              if p == P32 then Some(CodeValue(View(bytes[offset..], w)[i], F32))
              else if "_scale" !in h || !h["_scale"].JNum? || h["_scale"].x == 0.0 then None
              else Some(Times(CodeValue(View(bytes[offset..], w)[i], FormatOf(p)), Over(1.0, h["_scale"].x)))
    {
      ElementIs(bytes, offset, w, i, p, h);
    }
  }

  lemma ElementIs(bytes: seq<nat>, offset: nat, w: nat, i: nat, p: Precision, h: Header)
    requires offset <= |bytes| && (w == 1 || w == 2 || w == 4) && i < |View(bytes[offset..], w)|
    ensures ElementAt(bytes, offset, w, i, p, h) ==
            if p == P32 then Some(CodeValue(View(bytes[offset..], w)[i], F32))
            else if "_scale" !in h || !h["_scale"].JNum? || h["_scale"].x == 0.0 then None
            else Some(Times(CodeValue(View(bytes[offset..], w)[i], FormatOf(p)), Over(1.0, h["_scale"].x)))
  {
    hide View, CodeValue, Times, Over;
    ViewAt(bytes[offset..], w, i);
  }

  /** The names and values the header adds, as they are spelled. */
  lemma HeaderNames(m: Message, p: Precision)
    ensures m.vector.None? ==> WireHeader(m, p) == m.header
    ensures m.vector.Some? ==>
              var (field, v) := m.vector.value;
              if |v| == 0 || p == P32 then WireHeader(m, p) == m.header["_f32" := JStr(field)]
              else
                var name := if p == P16 then "f16" else if p == P8E4M3 then "f8e4m3" else "f8e5m2";
                WireHeader(m, p) ==
                m.header["_f32" := JStr(field)]["_fmt" := JStr(name)]["_scale" := JNum(ScaleOf(v, p))]
  {
    hide ScaleOf;
  }

  // ── the buffers of the source ─────────────────────────────────────────────

  /** Write bytes at a position, leaving the rest of the buffer alone. */
  method Put(buf: array<nat>, pos: nat, bytes: seq<nat>)
    requires pos + |bytes| <= buf.Length
    modifies buf
    ensures buf[..] == old(buf[..pos]) + bytes + old(buf[pos + |bytes|..])
  {
    var i := 0;
    while i < |bytes|
      invariant 0 <= i <= |bytes|
      invariant forall k :: 0 <= k < i ==> buf[pos + k] == bytes[k]
      invariant forall k :: 0 <= k < buf.Length && !(pos <= k < pos + i) ==> buf[k] == old(buf[k])
    {
      buf[pos + i] := bytes[i];
      i := i + 1;
    }
  }

  /** The typed array that goes on the wire, with its format and scale when reduced. */
  method Payload(v: seq<real>, p: Precision) returns (codes: seq<nat>, scale: real)
    ensures codes == PayloadCodes(v, Effective(v, p))
    ensures Effective(v, p) != P32 ==> scale == ScaleOf(v, p)
  {
    hide Codes, ScaleOf, StoreWord;
    scale := 1.0;
    if p == P32 || |v| == 0 {
      codes := Words(v);
    } else {
      var values := new real[|v|](i requires 0 <= i < |v| => v[i]);
      assert values[..] == v;
      var out;
      scale, out := QuantizeVector(values, p);
      codes := out[..];
    }
  }

  /** The header and the typed array a message turns into. */
  method Prepare(m: Message, p: Precision) returns (header: Header, codes: seq<nat>, width: nat)
    ensures header == WireHeader(m, p) && PayloadBytes(m, p) == Layout(codes, width)
  {
    hide PayloadCodes, ScaleOf, LittleEndian;
    header, codes, width := m.header, [], 4;
    if m.vector.Some? {
      var (field, v) := m.vector.value;
      header := header["_f32" := JStr(field)];
      var scale;
      codes, scale := Payload(v, p);
      width := Width(Effective(v, p));
      if Effective(v, p) != P32 {
        header := header + map["_fmt" := JStr(FormatId(p)), "_scale" := JNum(scale)];
      }
    }
  }

  /** `encode`: header, length prefix, space padding, then the payload element by element. */
  method EncodeFrame(m: Message, p: Precision, c: JsonCodec) returns (buf: array<nat>)
    ensures fresh(buf) && buf[..] == Encode(m, p, c)
  {
    hide PayloadBytes, WireHeader, Layout, LittleEndian;
    var header, codes, width := Prepare(m, p);
    var json := c.stringify(header);
    var pad := Padding(|json|);
    var length := |json| + pad;
    buf := new nat[4 + length + width * |codes|];
    Put(buf, 0, LittleEndian(length, 4));
    Put(buf, 4, json);
    Put(buf, 4 + |json|, Spaces(pad));
    ghost var head := LittleEndian(length, 4) + json + Spaces(pad);
    assert buf[..4 + length] == head;
    PutAll(buf, 4 + length, codes, width);
    assert head == LittleEndian(length, 4) + (json + Spaces(pad));
  }

  /** A typed array copied into the buffer's tail. */
  method PutAll(buf: array<nat>, offset: nat, codes: seq<nat>, k: nat)
    requires buf.Length == offset + k * |codes|
    modifies buf
    ensures buf[..] == old(buf[..offset]) + Layout(codes, k)
  {
    var i, pos := 0, offset;
    while i < |codes|
      invariant 0 <= i <= |codes| && pos == offset + k * i <= buf.Length
      invariant buf[..pos] == old(buf[..offset]) + Layout(codes[..i], k)
    {
      Room(k, i, |codes|);
      ghost var before := buf[..pos];
      Put(buf, pos, LittleEndian(codes[i], k));
      assert codes[..i + 1][..i] == codes[..i];
      assert buf[..pos + k] == before + LittleEndian(codes[i], k);
      i, pos := i + 1, pos + k;
    }
    assert codes[..i] == codes && buf[..pos] == buf[..];
  }

  lemma Room(k: nat, i: nat, n: nat)
    requires i < n
    ensures k * (i + 1) == k * i + k <= k * n
  {
    assert k * n == k * (i + 1) + k * (n - i - 1);
  }

  /** A typed view of the buffer's tail. */
  method ReadView(bytes: seq<nat>, k: nat) returns (codes: seq<nat>)
    requires k > 0
    ensures codes == View(bytes, k)
  {
    codes := [];
    var pos := 0;
    while |bytes| - pos >= k
      invariant 0 <= pos <= |bytes|
      invariant codes + View(bytes[pos..], k) == View(bytes, k)
    {
      assert bytes[pos..][..k] == bytes[pos..pos + k] && bytes[pos..][k..] == bytes[pos + k..];
      codes := codes + [FromBytes(bytes[pos..pos + k])];
      pos := pos + k;
    }
  }

  /** `decode`: the receiver is told nothing but the buffer. */
  method DecodeFrame(buf: array<nat>, c: JsonCodec) returns (r: Option<Message>)
    ensures r == Decode(buf[..], c)
  {
    hide View, Values, PlainValues, FromBytes;
    if buf.Length < 4 { return None; }
    var headerLen := FromBytes(buf[..4]);
    var offset := 4 + headerLen;
    if buf.Length < offset { return None; }
    assert buf[..][..4] == buf[..4] && buf[..][4..offset] == buf[4..offset] && buf[..][offset..] == buf[offset..];
    var parsed := c.parse(buf[4..offset]);
    if parsed.None? { return None; }
    var h := parsed.value;
    var name := ArrayName(h, c);
    if name.None? { return Some(Message(h, None)); }
    var field, p := name.value, ArrayFormat(h);
    if offset % Width(p) != 0 { return None; }
    if p == P32 {
      var words := ReadView(buf[offset..], 4);
      return Some(Delivered(h, {"_f32"}, field, PlainValues(words)));
    }
    if "_scale" !in h || !h["_scale"].JNum? || h["_scale"].x == 0.0 { return None; }
    var codes := ReadView(buf[offset..], Width(p));
    var payload := new nat[|codes|](i requires 0 <= i < |codes| => codes[i]);
    assert payload[..] == codes;
    var values := DequantizeVector(payload, h["_scale"].x, p);
    return Some(Delivered(h, {"_f32", "_fmt", "_scale"}, field, values[..]));
  }
}
