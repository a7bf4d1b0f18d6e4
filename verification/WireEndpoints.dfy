/** The two ends of the connection as code: reads that may be short, buffers filled in place, frames written in parts. */
module WireEndpoints {
  import opened Base
  import opened Wire

  /** Bytes that arrive in pieces. */
  class ByteSource {
    var pieces: seq<Bytes>

    function Left(): Bytes
      reads this
    {
      Concat(pieces)
    }

    constructor (pieces: seq<Bytes>)
      ensures Left() == Concat(pieces)
    {
      this.pieces := pieces;
    }

    /** Some bytes, as many as asked for at most; none only at the end. */
    method Read(count: nat) returns (block: Bytes)
      requires count > 0
      modifies this
      ensures block + Left() == old(Left()) && |block| <= count
      ensures block == [] <==> old(Left()) == []
    {
      while pieces != [] && pieces[0] == []
        invariant Left() == old(Left())
        decreases |pieces|
      {
        pieces := pieces[1..];
      }
      if pieces == [] { return []; }
      var first, rest := pieces[0], pieces[1..];
      var n := Min(count, |first|);
      block := first[..n];
      pieces := [first[n..]] + rest;
      assert pieces[0] == first[n..] && pieces[1..] == rest;
      assert first[..n] + first[n..] == first;
      Associate(first[..n], first[n..], Concat(rest));
    }
  }

  class ByteSink {
    var sent: Bytes

    constructor ()
      ensures sent == []
    {
      sent := [];
    }

    method Write(data: Bytes)
      modifies this
      ensures sent == old(sent) + data
    {
      sent := sent + data;
    }
  }

  /** Exactly the bytes asked for, however many reads it takes, or nothing when the stream ends first. */
  method ReadExact(stream: ByteSource, count: nat) returns (data: Option<Bytes>)
    modifies stream
    ensures if count <= |old(stream.Left())|
            then data == Some(old(stream.Left())[..count]) && stream.Left() == old(stream.Left())[count..]
            else data == None && stream.Left() == []
  {
    ghost var all := stream.Left();
    var got: Bytes := [];
    while |got| < count
      invariant got + stream.Left() == all && |got| <= count
      decreases count - |got|
    {
      ghost var left := stream.Left();
      var block := stream.Read(count - |got|);
      if block == [] {
        assert got + [] == got;
        return None;
      }
      assert got + left == got + block + stream.Left();
      got := got + block;
    }
    assert all[..count] == got && all[count..] == stream.Left();
    return Some(got);
  }

  datatype Taken<Body> = Took(message: Message<Body>) | AtEnd | Broken

  /** What was taken off a stream is what decoding its bytes gives, and the rest of the bytes is still there. */
  ghost predicate Takes<Body>(o: Incoming<Body>, t: Taken<Body>, left: Bytes) {
    match o
    case Got(m, rest) => t == Took(m) && left == rest
    case Ended => t == AtEnd
    case Refused => t == Broken
  }

  /** The server's half of reading: the header is parsed before the payload is awaited. */
  method ReadMessage<Body>(stream: ByteSource, r: Reader<Body>) returns (t: Taken<Body>)
    modifies stream
    ensures Takes(Decode(Server, r, old(stream.Left())), t, stream.Left())
  {
    hide Read32, Concat, Unpack;
    ghost var s := stream.Left();
    var prefix := ReadExact(stream, PREFIX);
    if prefix.None? { return AtEnd; }
    var n, k := Read32(prefix.value[..4]), Read32(prefix.value[4..8]);
    assert prefix.value[..4] == s[..4] && prefix.value[4..8] == s[4..8];
    if !Lengths(n, k) { return Broken; }
    var text := ReadExact(stream, n);
    if text.None? { return AtEnd; }
    assert text.value == s[8..8 + n] && stream.Left() == s[8 + n..];
    if r.parse(text.value).None? { return Broken; }
    var data := ReadExact(stream, k);
    if data.None? { return AtEnd; }
    assert data.value == s[8 + n..8 + n + k] && stream.Left() == s[8 + n + k..];
    var m := Unpack(r, text.value, data.value);
    return if m.None? then Broken else Took(m.value);
  }

  /** The server's half of writing. */
  method WriteMessage<Body>(out: ByteSink, w: Writer<Body>, m: Message<Body>) returns (ok: bool)
    modifies out
    ensures ok <==> Sendable(Server, w, m)
    ensures out.sent == if ok then old(out.sent) + Encode(Server, w, m) else old(out.sent)
  {
    hide Put32;
    if |m.payload| > PACKET { return false; }
    var header, data := m.header, m.payload;
    if m.payload != [] {
      var compressed := w.deflate(m.payload);
      if 20 * |compressed| < 19 * |m.payload| {
        data, header := compressed, header.(encoding := Some(Zlib));
      }
      header := header.(rawSize := Some(|m.payload|));
    }
    var text := w.json(header);
    if |text| > MAX_JSON { return false; }
    out.Write(Put32(|text|) + Put32(|data|));
    out.Write(text);
    out.Write(data);
    WrittenInParts(old(out.sent), Put32(|text|) + Put32(|data|), text, data);
    return true;
  }

  lemma WrittenInParts(sent: Bytes, prefix: Bytes, text: Bytes, data: Bytes)
    ensures sent + prefix + text + data == sent + (prefix + text + data)
  {
  }

  /** Stores a length into a buffer, most significant byte first. */
  method PutLength(p: array<Byte>, at: nat, v: nat)
    requires at + 4 <= p.Length && v < 0x1_0000_0000
    modifies p
    ensures p[at..at + 4] == Put32(v)
    ensures v == p[at] as int * 0x100_0000 + p[at + 1] as int * 0x1_0000 + p[at + 2] as int * 0x100 + p[at + 3] as int
    ensures p[..at] == old(p[..at]) && p[at + 4..] == old(p[at + 4..])
  {
    LengthBytes(v);
    p[at] := v / 0x100_0000 % 256;
    p[at + 1] := v / 0x1_0000 % 256;
    p[at + 2] := v / 0x100 % 256;
    p[at + 3] := v % 256;
  }

  /** The client's half of writing: both lengths are stored into one prefix buffer. The database that puts the header
      together is opened with a length limit and refuses a longer one (src/platform/sync_files.c:125). */
  method SendRequest<Body>(out: ByteSink, w: Writer<Body>, m: Message<Body>) returns (ok: bool)
    modifies out
    ensures ok <==> Sendable(Client, w, m)
    ensures out.sent == if ok then old(out.sent) + Encode(Client, w, m) else old(out.sent)
  {
    hide Put32;
    if |m.payload| > PACKET { return false; }
    var header, data := m.header, m.payload;
    if m.payload != [] {
      var packed := w.deflate(m.payload);
      if |packed| < |m.payload| * 95 / 100 {
        data, header := packed, header.(encoding := Some(Zlib));
      }
      header := header.(rawSize := Some(|m.payload|));
    }
    var text := w.json(header);
    if |text| > MAX_JSON { return false; }
    var prefix := new Byte[PREFIX];
    PutLength(prefix, 0, |text|);
    PutLength(prefix, 4, |data|);
    assert prefix[..] == prefix[0..4] + prefix[4..8];
    out.Write(prefix[..]);
    out.Write(text);
    if data != [] {
      out.Write(data);
    }
    WrittenInParts(old(out.sent), Put32(|text|) + Put32(|data|), text, data);
    return true;
  }

  /** The client's half of reading: header and payload are both read before either is looked at. */
  method ReceiveReply<Body>(stream: ByteSource, r: Reader<Body>) returns (t: Taken<Body>)
    modifies stream
    ensures Takes(Decode(Client, r, old(stream.Left())), t, stream.Left())
  {
    hide Read32, Concat, Unpack;
    ghost var s := stream.Left();
    var prefix := ReadExact(stream, PREFIX);
    if prefix.None? { return AtEnd; }
    var n, k := Read32(prefix.value[..4]), Read32(prefix.value[4..8]);
    assert prefix.value[..4] == s[..4] && prefix.value[4..8] == s[4..8];
    if !Lengths(n, k) { return Broken; }
    var text := ReadExact(stream, n);
    if text.None? { return AtEnd; }
    assert text.value == s[8..8 + n] && stream.Left() == s[8 + n..];
    var data := ReadExact(stream, k);
    if data.None? { return AtEnd; }
    assert data.value == s[8 + n..8 + n + k] && stream.Left() == s[8 + n + k..];
    var m := Unpack(r, text.value, data.value);
    return if m.None? then Broken else Took(m.value);
  }
}
