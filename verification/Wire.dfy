/**
 Length-prefixed messages between a device and the broker. Header text and compression are abstract inverse pairs: a
 writer turns a header into text and shrinks payloads, a reader undoes both.
 */
module Wire {
  import opened Base

  const MAX_JSON := 16 * 1024 * 1024
  const PREFIX := 8

  datatype Encoding = Zlib | Other

  /** A JSON object; the two keys that framing adds, `_encoding` and `_raw_size`, are kept apart from the rest. */
  datatype Header<Body> = Header(body: Body, encoding: Option<Encoding>, rawSize: Option<int>)
  {
    predicate Plain() { encoding.None? && rawSize.None? }
  }

  datatype Writer<!Body> = Writer(json: Header<Body> -> Bytes, deflate: Bytes -> Bytes)
  datatype Reader<!Body> = Reader(parse: Bytes -> Option<Header<Body>>, inflate: Bytes -> Option<Bytes>)

  ghost predicate Inverse<Body(!new)>(w: Writer<Body>, r: Reader<Body>) {
    && (forall h :: w.json(h) != [] && r.parse(w.json(h)) == Some(h))
    && (forall data :: r.inflate(w.deflate(data)) == Some(data))
  }

  /** The broker is the server, in Python; the device is the client, in C. */
  datatype Side = Server | Client

  datatype Message<Body> = Message(header: Header<Body>, payload: Bytes)

  // ---------------------------------------------------------------- 32-bit lengths

  function Put32(v: nat): (p: Bytes)
    requires v < 0x1_0000_0000
    ensures |p| == 4
  {
    [v / 0x100_0000 % 256, v / 0x1_0000 % 256, v / 0x100 % 256, v % 256]
  }

  function Read32(p: Bytes): nat
    requires |p| >= 4
  {
    p[0] as int * 0x100_0000 + p[1] as int * 0x1_0000 + p[2] as int * 0x100 + p[3] as int
  }

  lemma Read32Put32(v: nat)
    requires v < 0x1_0000_0000
    ensures Read32(Put32(v)) == v
  {
    var a, b, c := v / 0x100, v / 0x1_0000, v / 0x100_0000;
    assert a / 0x100 == b && b / 0x100 == c && c < 256;
    assert v == a * 0x100 + v % 256;
    assert a == b * 0x100 + a % 256;
    assert b == c * 0x100 + b % 256;
    assert c % 256 == c;
  }

  lemma Put32Read32(p: Bytes)
    requires |p| == 4
    ensures Read32(p) < 0x1_0000_0000 && Put32(Read32(p)) == p
  {
    var v := Read32(p);
    var a: int, b: int, c: int, d: int := p[0], p[1], p[2], p[3];
    assert v / 0x100 == a * 0x1_0000 + b * 0x100 + c && v % 0x100 == d;
    assert v / 0x1_0000 == a * 0x100 + b;
    assert v / 0x100_0000 == a;
  }

  // ---------------------------------------------------------------- writing

  /** When compressing is worth it: below 95 percent, which the client computes with integers, rounding down. */
  predicate Shrinks(side: Side, packed: nat, size: nat) {
    match side
    case Server => 20 * packed < 19 * size
    case Client => packed < size * 95 / 100
  }

  function Packed<Body>(side: Side, w: Writer<Body>, payload: Bytes): Bytes {
    if payload != [] && Shrinks(side, |w.deflate(payload)|, |payload|) then w.deflate(payload) else payload
  }

  function Labelled<Body>(side: Side, w: Writer<Body>, m: Message<Body>): Header<Body> {
    if m.payload == [] then m.header
    else if Shrinks(side, |w.deflate(m.payload)|, |m.payload|) then Header(m.header.body, Some(Zlib), Some(|m.payload|))
    else Header(m.header.body, m.header.encoding, Some(|m.payload|))
  }

  predicate Sendable<Body>(side: Side, w: Writer<Body>, m: Message<Body>) {
    |m.payload| <= PACKET && |w.json(Labelled(side, w, m))| <= MAX_JSON
  }

  function Encode<Body>(side: Side, w: Writer<Body>, m: Message<Body>): Bytes
    requires Sendable(side, w, m)
  {
    var text := w.json(Labelled(side, w, m));
    var data := Packed(side, w, m.payload);
    assert |data| <= PACKET by { PackedSize(side, w, m.payload); }
    Put32(|text|) + Put32(|data|) + text + data
  }

  lemma PackedSize<Body>(side: Side, w: Writer<Body>, payload: Bytes)
    ensures |Packed(side, w, payload)| <= |payload|
  {
  }

  // ---------------------------------------------------------------- reading

  datatype Incoming<Body> = Got(message: Message<Body>, rest: Bytes) | Ended | Refused

  /** The message in a complete frame. */
  function Unpack<Body>(r: Reader<Body>, text: Bytes, data: Bytes): Option<Message<Body>> {
    match r.parse(text)
    case None => None
    case Some(h) =>
      var size := if h.rawSize.Some? then h.rawSize.value else 0;
      if !(0 <= size <= PACKET) || h.encoding == Some(Other) then None
      else
        var payload := if h.encoding == Some(Zlib) then r.inflate(data) else Some(data);
        if payload.None? || |payload.value| != size then None
        else Some(Message(Header(h.body, None, None), payload.value))
  }

  predicate Lengths(text: nat, data: nat) {
    0 < text <= MAX_JSON && data <= PACKET
  }

  /** Whether a header that has arrived in full can be refused before its payload has: the server parses it first. */
  predicate Early<Body>(side: Side, r: Reader<Body>, text: Bytes) {
    side.Server? && r.parse(text).None?
  }

  /** What a side makes of the bytes that have arrived. */
  function Decode<Body>(side: Side, r: Reader<Body>, s: Bytes): Incoming<Body> {
    if |s| < PREFIX then Ended
    else
      var n, k := Read32(s[..4]), Read32(s[4..8]);
      if !Lengths(n, k) then Refused
      else if |s| < PREFIX + n then Ended
      else if Early(side, r, s[8..8 + n]) then Refused
      else if |s| < PREFIX + n + k then Ended
      else
        match Unpack(r, s[8..8 + n], s[8 + n..8 + n + k])
        case None => Refused
        case Some(m) => Got(m, s[8 + n + k..])
  }

  // ---------------------------------------------------------------- the format

  /** The first byte of a length weighs most. */
  lemma LengthBytes(v: nat)
    requires v < 0x1_0000_0000
    ensures var p := Put32(v); v == p[0] as int * 0x100_0000 + p[1] as int * 0x1_0000 + p[2] as int * 0x100 + p[3] as int
  {
    Read32Put32(v);
  }

  /** A payload travels compressed when that saves more than five percent, and is labelled with its size then and otherwise. */
  lemma FrameIs<Body>(side: Side, w: Writer<Body>, m: Message<Body>)
    requires Sendable(side, w, m)
    ensures var z, size := w.deflate(m.payload), |m.payload|;
      var worth := size > 0 && (if side == Server then 100 * |z| < 95 * size else |z| < 95 * size / 100);
      var named := if worth then Some(Zlib) else m.header.encoding;
      var text := w.json(if size == 0 then m.header else Header(m.header.body, named, Some(size)));
      var data := if worth then z else m.payload;
      && size <= 128 * 1024 && |text| <= 16 * 1024 * 1024
      && |data| <= size && Encode(side, w, m) == Put32(|text|) + Put32(|data|) + text + data
  {
    PackedSize(side, w, m.payload);
    hide Put32;
  }

  /** A message is taken from a complete frame whose lengths are within bounds, whose header parses, names no other
      encoding and, unpacked, a payload of the labelled size; any other complete frame is refused. */
  lemma DecodesExactly<Body>(side: Side, r: Reader<Body>, a: Bytes, b: Bytes, text: Bytes, data: Bytes, rest: Bytes)
    requires |a| == 4 && |b| == 4 && Read32(a) == |text| && Read32(b) == |data|
    ensures var o := Decode(side, r, a + b + text + data + rest);
      var h := r.parse(text);
      var size := if h.Some? && h.value.rawSize.Some? then h.value.rawSize.value else 0;
      var payload := if h.Some? && h.value.encoding == Some(Zlib) then r.inflate(data) else Some(data);
      if 0 < |text| <= 16 * 1024 * 1024 && |data| <= 128 * 1024 && h.Some? && h.value.encoding != Some(Other)
         && size <= 128 * 1024 && payload.Some? && |payload.value| == size
      then o == Got(Message(Header(h.value.body, None, None), payload.value), rest) else o.Refused?
  {
    Parts(a, b, text, data, rest);
    hide Read32;
  }

  // ---------------------------------------------------------------- one message

  /** The four parts of a frame that more bytes follow, or that is cut short. */
  lemma Parts(a: Bytes, b: Bytes, text: Bytes, data: Bytes, rest: Bytes)
    requires |a| == 4 && |b| == 4
    ensures var s := a + b + text + data + rest; var n := 8 + |text|; var k := n + |data|;
      s[..4] == a && s[4..8] == b && s[8..n] == text && s[n..k] == data && s[k..] == rest
  {
  }

  lemma Unpacks<Body(!new)>(side: Side, w: Writer<Body>, r: Reader<Body>, m: Message<Body>)
    requires Inverse(w, r) && Sendable(side, w, m) && m.header.Plain()
    ensures Unpack(r, w.json(Labelled(side, w, m)), Packed(side, w, m.payload)) == Some(m)
  {
    var h := Labelled(side, w, m);
    assert r.parse(w.json(h)) == Some(h);
    assert r.inflate(w.deflate(m.payload)) == Some(m.payload);
  }

  /** Either side reads back exactly what the other side wrote, and leaves what follows. */
  lemma RoundTrip<Body(!new)>(from: Side, to: Side, w: Writer<Body>, r: Reader<Body>, m: Message<Body>, rest: Bytes)
    requires Inverse(w, r) && Sendable(from, w, m) && m.header.Plain()
    ensures Decode(to, r, Encode(from, w, m) + rest) == Got(m, rest)
  {
    var text := w.json(Labelled(from, w, m));
    var data := Packed(from, w, m.payload);
    PackedSize(from, w, m.payload);
    Unpacks(from, w, r, m);
    assert text != [] && r.parse(text).Some?;
    Read32Put32(|text|);
    Read32Put32(|data|);
    Parts(Put32(|text|), Put32(|data|), text, data, rest);
    hide Put32, Read32, Unpack, Labelled, Packed, Inverse;
  }

  /** A frame that has not arrived in full is neither a message nor refused. */
  lemma CutShort<Body(!new)>(from: Side, to: Side, w: Writer<Body>, r: Reader<Body>, m: Message<Body>, n: nat)
    requires Inverse(w, r) && Sendable(from, w, m) && m.header.Plain() && n < |Encode(from, w, m)|
    ensures Decode(to, r, Encode(from, w, m)[..n]) == Ended
  {
    var text := w.json(Labelled(from, w, m));
    var data := Packed(from, w, m.payload);
    PackedSize(from, w, m.payload);
    Unpacks(from, w, r, m);
    assert text != [] && r.parse(text).Some?;
    Read32Put32(|text|);
    Read32Put32(|data|);
    var s := Encode(from, w, m);
    Parts(Put32(|text|), Put32(|data|), text, data, []);
    assert s + [] == s;
    hide Put32, Read32, Unpack, Labelled, Packed, Inverse;
    if n >= PREFIX {
      assert s[..n][..4] == s[..4] && s[..n][4..8] == s[4..8];
      if n >= PREFIX + |text| {
        assert s[..n][8..8 + |text|] == s[8..8 + |text|];
      }
    }
  }

  /** A message comes back unchanged exactly when it uses neither of the keys that framing adds. */
  lemma RoundTripExactly<Body(!new)>(from: Side, to: Side, w: Writer<Body>, r: Reader<Body>, m: Message<Body>, rest: Bytes)
    requires Inverse(w, r) && Sendable(from, w, m)
    ensures Decode(to, r, Encode(from, w, m) + rest) == Got(m, rest) <==> m.header.Plain()
  {
    if m.header.Plain() {
      RoundTrip(from, to, w, r, m, rest);
    } else {
      GotPlain(to, r, Encode(from, w, m) + rest);
    }
  }

  lemma GotPlain<Body>(side: Side, r: Reader<Body>, s: Bytes)
    ensures Decode(side, r, s).Got? ==> Decode(side, r, s).message.header.Plain()
  {
    hide Read32;
  }

  /** The two sides differ only in what they say about a frame that is cut short. */
  lemma SidesAgree<Body>(r: Reader<Body>, s: Bytes)
    ensures Decode(Server, r, s) == Decode(Client, r, s) || (Decode(Server, r, s).Refused? && Decode(Client, r, s).Ended?)
  {
    hide Read32;
  }

  // ---------------------------------------------------------------- streams of messages

  function Stream<Body>(side: Side, w: Writer<Body>, ms: seq<Message<Body>>): Bytes
    requires forall i | 0 <= i < |ms| :: Sendable(side, w, ms[i])
  {
    if ms == [] then [] else Encode(side, w, ms[0]) + Stream(side, w, ms[1..])
  }

  lemma GotLess<Body>(side: Side, r: Reader<Body>, s: Bytes)
    ensures Decode(side, r, s).Got? ==> |Decode(side, r, s).rest| < |s|
  {
    hide Read32, Unpack;
  }

  /** Every message that has arrived, up to the first that is incomplete or refused. */
  function DecodeAll<Body>(side: Side, r: Reader<Body>, s: Bytes): seq<Message<Body>>
    decreases |s|
  {
    GotLess(side, r, s);
    match Decode(side, r, s)
    case Got(m, rest) => [m] + DecodeAll(side, r, rest)
    case _ => []
  }

  ghost predicate AllSendable<Body>(side: Side, w: Writer<Body>, ms: seq<Message<Body>>) {
    forall i | 0 <= i < |ms| :: Sendable(side, w, ms[i]) && ms[i].header.Plain()
  }

  /** A stream cut after n bytes holds the frames of the first k messages and not the next one. */
  ghost predicate CutAt<Body(!new)>(from: Side, to: Side, w: Writer<Body>, r: Reader<Body>, ms: seq<Message<Body>>, n: nat, k: nat)
    requires AllSendable(from, w, ms) && n <= |Stream(from, w, ms)|
  {
    && k <= |ms|
    && DecodeAll(to, r, Stream(from, w, ms)[..n]) == ms[..k]
    && |Stream(from, w, ms[..k])| <= n
    && (k < |ms| ==> n < |Stream(from, w, ms[..k + 1])|)
  }

  /** Cutting a stream of messages anywhere leaves exactly the messages whose frames are complete. */
  lemma {:induction false} StreamCut<Body(!new)>(from: Side, to: Side, w: Writer<Body>, r: Reader<Body>, ms: seq<Message<Body>>, n: nat)
    requires Inverse(w, r) && AllSendable(from, w, ms) && n <= |Stream(from, w, ms)|
    ensures exists k: nat :: CutAt(from, to, w, r, ms, n, k)
    decreases |ms|
  {
    hide Decode, Encode, Inverse, Sendable, DecodeAll;
    if ms == [] {
      DecodeNone(to, r);
      assert Stream(from, w, ms)[..n] == [] && ms[..0] == [];
      assert CutAt(from, to, w, r, ms, n, 0);
    } else if n < |Encode(from, w, ms[0])| {
      CutFirst(from, to, w, r, ms, n);
      assert CutAt(from, to, w, r, ms, n, 0);
    } else {
      StreamCut(from, to, w, r, ms[1..], n - |Encode(from, w, ms[0])|);
      var k: nat :| CutAt(from, to, w, r, ms[1..], n - |Encode(from, w, ms[0])|, k);
      CutNext(from, to, w, r, ms, n, k);
    }
  }

  lemma CutNext<Body(!new)>(from: Side, to: Side, w: Writer<Body>, r: Reader<Body>, ms: seq<Message<Body>>, n: nat, k: nat)
    requires Inverse(w, r) && AllSendable(from, w, ms) && ms != [] && |Encode(from, w, ms[0])| <= n <= |Stream(from, w, ms)|
    requires CutAt(from, to, w, r, ms[1..], n - |Encode(from, w, ms[0])|, k)
    ensures CutAt(from, to, w, r, ms, n, k + 1)
  {
    hide Decode, Encode, Inverse, Sendable, DecodeAll;
    CutLater(from, to, w, r, ms, n, k);
    StreamHead(from, w, ms, k);
    if k < |ms| - 1 { StreamHead(from, w, ms, k + 1); }
  }

  lemma CutFirst<Body(!new)>(from: Side, to: Side, w: Writer<Body>, r: Reader<Body>, ms: seq<Message<Body>>, n: nat)
    requires Inverse(w, r) && AllSendable(from, w, ms) && ms != [] && n < |Encode(from, w, ms[0])|
    ensures n <= |Stream(from, w, ms)| && DecodeAll(to, r, Stream(from, w, ms)[..n]) == ms[..0]
    ensures |Stream(from, w, ms[..0])| <= n < |Stream(from, w, ms[..1])|
  {
    hide Decode, Encode, Inverse, Sendable;
    assert Stream(from, w, ms)[..n] == Encode(from, w, ms[0])[..n];
    CutShort(from, to, w, r, ms[0], n);
    StreamOne(from, w, ms);
  }

  lemma CutLater<Body(!new)>(from: Side, to: Side, w: Writer<Body>, r: Reader<Body>, ms: seq<Message<Body>>, n: nat, k: nat)
    requires Inverse(w, r) && AllSendable(from, w, ms) && ms != [] && |Encode(from, w, ms[0])| <= n <= |Stream(from, w, ms)|
    requires k < |ms| && DecodeAll(to, r, Stream(from, w, ms[1..])[..n - |Encode(from, w, ms[0])|]) == ms[1..][..k]
    ensures DecodeAll(to, r, Stream(from, w, ms)[..n]) == ms[..k + 1]
  {
    hide Decode, Encode, Inverse, Sendable;
    var first := Encode(from, w, ms[0]);
    var rest := Stream(from, w, ms[1..])[..n - |first|];
    assert Stream(from, w, ms)[..n] == first + rest;
    RoundTrip(from, to, w, r, ms[0], rest);
    assert [ms[0]] + ms[1..][..k] == ms[..k + 1];
  }

  lemma DecodeNone<Body>(side: Side, r: Reader<Body>)
    ensures DecodeAll(side, r, []) == []
  {
  }

  lemma StreamOne<Body>(side: Side, w: Writer<Body>, ms: seq<Message<Body>>)
    requires ms != [] && forall i | 0 <= i < |ms| :: Sendable(side, w, ms[i])
    ensures Stream(side, w, ms[..0]) == [] && Stream(side, w, ms[..1]) == Encode(side, w, ms[0])
  {
    hide Encode, Sendable;
    assert ms[..1][1..] == [] && Stream(side, w, ms[..1][1..]) == [];
    assert Encode(side, w, ms[0]) + [] == Encode(side, w, ms[0]);
  }

  lemma StreamHead<Body>(side: Side, w: Writer<Body>, ms: seq<Message<Body>>, k: nat)
    requires k < |ms| && forall i | 0 <= i < |ms| :: Sendable(side, w, ms[i])
    ensures Stream(side, w, ms[..k + 1]) == Encode(side, w, ms[0]) + Stream(side, w, ms[1..][..k])
  {
    hide Encode, Sendable;
    assert ms[..k + 1][1..] == ms[1..][..k];
  }

  /** A whole stream gives back the whole list. */
  lemma StreamRoundTrip<Body(!new)>(from: Side, to: Side, w: Writer<Body>, r: Reader<Body>, ms: seq<Message<Body>>)
    requires Inverse(w, r) && AllSendable(from, w, ms)
    ensures DecodeAll(to, r, Stream(from, w, ms)) == ms
  {
    hide Decode, Encode, Inverse, Sendable, DecodeAll;
    var s := Stream(from, w, ms);
    StreamCut(from, to, w, r, ms, |s|);
    assert s[..|s|] == s;
    var k: nat :| CutAt(from, to, w, r, ms, |s|, k);
    if k < |ms| {
      StreamPrefix(from, w, ms, k + 1);
      assert false;
    }
    assert ms[..|ms|] == ms;
  }

  lemma {:induction false} StreamPrefix<Body>(side: Side, w: Writer<Body>, ms: seq<Message<Body>>, k: nat)
    requires k <= |ms| && forall i | 0 <= i < |ms| :: Sendable(side, w, ms[i])
    ensures |Stream(side, w, ms[..k])| <= |Stream(side, w, ms)|
    decreases |ms|
  {
    hide Encode, Sendable;
    if k > 0 {
      StreamHead(side, w, ms, k - 1);
      StreamPrefix(side, w, ms[1..], k - 1);
    }
  }
}
