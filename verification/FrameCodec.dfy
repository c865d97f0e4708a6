/**
 The TCP envelope: one direction byte, a 16-bit little-endian length, the payload. `Parse` reads
 a whole stream at once; the incremental decoder is proved to agree with it for every way of
 cutting the stream into chunks.
 */
module FrameCodec {
  import opened Wire

  const MAX_SIZE: nat := 176
  const TO_COMPANION: Byte := 60
  const TO_CLIENT: Byte := 62

  predicate IsMarker(m: Byte) {
    m == TO_COMPANION || m == TO_CLIENT
  }

  // ----- Whole streams -----

  /** `rest` is the unfinished frame at the end, `bad` that the stream stops making sense after the
      payloads read so far. */
  datatype Parsed = Parsed(payloads: seq<Bytes>, rest: Bytes, bad: bool)

  function Size(header: Bytes): nat
    requires |header| >= 3
  {
    var low: int, high: int := header[1], header[2];
    low + 256 * high
  }

  function Parse(marker: Byte, stream: Bytes): Parsed
    decreases |stream|
  {
    if stream == [] then Parsed([], [], false)
    else if stream[0] != marker then Parsed([], [], true)
    else if |stream| < 3 then Parsed([], stream, false)
    else if !(1 <= Size(stream) <= MAX_SIZE) then Parsed([], [], true)
    else if |stream| < 3 + Size(stream) then Parsed([], stream, false)
    else
      var n := 3 + Size(stream);
      var later := Parse(marker, stream[n..]);
      later.(payloads := [stream[3..n]] + later.payloads)
  }

  /** Reading on from what a first part left unfinished. */
  ghost function Resume(marker: Byte, first: Parsed, more: Bytes): Parsed {
    if first.bad then first
    else
      var later := Parse(marker, first.rest + more);
      later.(payloads := first.payloads + later.payloads)
  }

  /** The stream starts with a complete frame. */
  ghost predicate Complete(marker: Byte, s: Bytes) {
    |s| >= 3 && s[0] == marker && 1 <= Size(s) <= MAX_SIZE && |s| >= 3 + Size(s)
  }

  /** The stream starts with something that is no frame. */
  ghost predicate Broken(marker: Byte, s: Bytes) {
    s != [] && (s[0] != marker || (|s| >= 3 && !(1 <= Size(s) <= MAX_SIZE)))
  }

  lemma ParseUnfolds(marker: Byte, s: Bytes)
    ensures Broken(marker, s) ==> Parse(marker, s) == Parsed([], [], true)
    ensures !Broken(marker, s) && !Complete(marker, s) ==> Parse(marker, s) == Parsed([], s, false)
    ensures Complete(marker, s) ==>
              var n := 3 + Size(s);
              var later := Parse(marker, s[n..]);
              Parse(marker, s) == Parsed([s[3..n]] + later.payloads, later.rest, later.bad)
  {
  }

  lemma LongerStream(marker: Byte, a: Bytes, b: Bytes)
    ensures Broken(marker, a) ==> Broken(marker, a + b)
    ensures Complete(marker, a) ==>
              var n := 3 + Size(a);
              && Complete(marker, a + b) && Size(a + b) == Size(a)
              && (a + b)[3..n] == a[3..n] && (a + b)[n..] == a[n..] + b
  {
    if |a| >= 3 {
      assert Size(a + b) == Size(a);
    }
  }

  /** Where a stream is cut does not matter. */
  lemma {:induction false} ParseResumes(marker: Byte, a: Bytes, b: Bytes)
    ensures Parse(marker, a + b) == Resume(marker, Parse(marker, a), b)
    decreases |a|
  {
    hide Parse, Size;
    ParseUnfolds(marker, a);
    ParseUnfolds(marker, a + b);
    LongerStream(marker, a, b);
    if Complete(marker, a) {
      var n := 3 + Size(a);
      ParseResumes(marker, a[n..], b);
      var tail := Parse(marker, a[n..]);
      var later := Parse(marker, tail.rest + b);
      assert [a[3..n]] + (tail.payloads + later.payloads) == [a[3..n]] + tail.payloads + later.payloads;
    }
  }

  // ----- Growing by one step -----

  lemma Trickles(marker: Byte, before: Bytes, out: seq<Bytes>, had: Bytes, more: Bytes)
    requires Parse(marker, before) == Parsed(out, had, false)
    requires Parse(marker, had + more) == Parsed([], had + more, false)
    ensures Parse(marker, before + more) == Parsed(out, had + more, false)
  {
    hide Parse;
    ParseResumes(marker, before, more);
  }

  lemma Closes(marker: Byte, before: Bytes, out: seq<Bytes>, had: Bytes, more: Bytes, header: Bytes, p: Bytes)
    requires Parse(marker, before) == Parsed(out, had, false) && had + more == header + p
    requires |header| == 3 && header[0] == marker && Size(header) == |p| && 1 <= |p| <= MAX_SIZE
    ensures Parse(marker, before + more) == Parsed(out + [p], [], false)
  {
    hide Parse;
    ParseResumes(marker, before, more);
    var frame := had + more;
    assert Size(frame) == Size(header) && frame[3..3 + |p|] == p && frame[3 + |p|..] == [];
    ParseUnfolds(marker, frame);
    ParseUnfolds(marker, []);
  }

  lemma Breaks(marker: Byte, before: Bytes, out: seq<Bytes>, had: Bytes, more: Bytes, rest: Bytes)
    requires Parse(marker, before) == Parsed(out, had, false)
    requires Parse(marker, had + more).bad && Parse(marker, had + more).payloads == []
    ensures Parse(marker, before + more + rest).bad && Parse(marker, before + more + rest).payloads == out
  {
    hide Parse;
    ParseResumes(marker, before, more);
    ParseResumes(marker, before + more, rest);
  }

  // ----- Chunks -----

  ghost function Flatten(chunks: seq<Bytes>): Bytes {
    if chunks == [] then [] else Flatten(chunks[..|chunks| - 1]) + chunks[|chunks| - 1]
  }

  ghost function ParseChunks(marker: Byte, chunks: seq<Bytes>): Parsed {
    if chunks == [] then Parsed([], [], false)
    else Resume(marker, ParseChunks(marker, chunks[..|chunks| - 1]), chunks[|chunks| - 1])
  }

  /** Any split of a stream yields the same payloads and the same unfinished frame or error. */
  lemma {:induction false} ChunksDoNotMatter(marker: Byte, chunks: seq<Bytes>)
    ensures ParseChunks(marker, chunks) == Parse(marker, Flatten(chunks))
    decreases |chunks|
  {
    if chunks != [] {
      var n := |chunks| - 1;
      ChunksDoNotMatter(marker, chunks[..n]);
      ParseResumes(marker, Flatten(chunks[..n]), chunks[n]);
    }
  }

  // ----- Encoding -----

  ghost predicate Encodable(p: Bytes) {
    1 <= |p| <= MAX_SIZE
  }

  ghost function Frame(p: Bytes, marker: Byte): Bytes
    requires Encodable(p)
  {
    [marker, |p| % 256, |p| / 256] + p
  }

  ghost function FrameAll(ps: seq<Bytes>, marker: Byte): Bytes
    requires forall i | 0 <= i < |ps| :: Encodable(ps[i])
  {
    if ps == [] then [] else Frame(ps[0], marker) + FrameAll(ps[1..], marker)
  }

  lemma ParseFrame(marker: Byte, p: Bytes, more: Bytes)
    requires Encodable(p)
    ensures Parse(marker, Frame(p, marker) + more) ==
            var later := Parse(marker, more); later.(payloads := [p] + later.payloads)
  {
    var s := Frame(p, marker) + more;
    assert s[3..3 + |p|] == p && s[3 + |p|..] == more;
  }

  /** Decoding what was encoded gives it back. */
  lemma {:induction false} RoundTrip(marker: Byte, ps: seq<Bytes>)
    requires forall i | 0 <= i < |ps| :: Encodable(ps[i])
    ensures Parse(marker, FrameAll(ps, marker)) == Parsed(ps, [], false)
    decreases |ps|
  {
    if ps != [] {
      RoundTrip(marker, ps[1..]);
      ParseFrame(marker, ps[0], FrameAll(ps[1..], marker));
    }
  }

  method Encode(payload: Bytes, marker: Byte) returns (frame: Option<Bytes>)
    ensures frame.Some? <==> IsMarker(marker) && Encodable(payload)
    ensures frame.Some? ==> frame.value == Frame(payload, marker)
  {
    var size := |payload|;
    if !IsMarker(marker) || !(1 <= size <= MAX_SIZE) {
      return None;
    }
    var buffer := new Byte[size + 3];
    buffer[0], buffer[1], buffer[2] := marker, size % 256, size / 256;
    for i := 0 to size
      invariant buffer[0] == marker && buffer[1] == size % 256 && buffer[2] == size / 256
      invariant forall k | 0 <= k < i :: buffer[3 + k] == payload[k]
    {
      buffer[3 + i] := payload[i];
    }
    assert buffer[..] == Frame(payload, marker);
    return Some(buffer[..]);
  }

  // ----- Deadlines -----

  /** The frame being assembled and when its first byte came. */
  datatype Assembly = Assembly(rest: Bytes, started: Option<Time>)

  ghost predicate Overdue(a: Assembly, now: Time, timeout: Time) {
    a.started.Some? && now - a.started.value >= timeout
  }

  /** The assembly after a chunk in time: a frame keeps its start until it is complete. */
  ghost function Fed(marker: Byte, a: Assembly, chunk: Bytes, now: Time): Assembly {
    var p := Parse(marker, a.rest + chunk);
    Assembly(p.rest, if p.rest == [] then None else if p.payloads == [] && a.rest != [] then a.started else Some(now))
  }

  lemma FedRest(marker: Byte, a: Assembly, chunk: Bytes, now: Time)
    ensures Fed(marker, a, chunk, now).rest == Parse(marker, a.rest + chunk).rest
  {
  }

  datatype Chunk = Chunk(bytes: Bytes, at: Time)

  ghost function FedAll(marker: Byte, a: Assembly, chunks: seq<Chunk>): Assembly {
    if chunks == [] then a
    else Fed(marker, FedAll(marker, a, chunks[..|chunks| - 1]), chunks[|chunks| - 1].bytes, chunks[|chunks| - 1].at)
  }

  ghost function BytesOf(chunks: seq<Chunk>): Bytes {
    if chunks == [] then [] else BytesOf(chunks[..|chunks| - 1]) + chunks[|chunks| - 1].bytes
  }

  /** Trickled bytes never move the start of a frame: as long as it stays incomplete its deadline is
      counted from its first byte, however many chunks arrive. */
  lemma {:induction false} TricklingBuysNoTime(marker: Byte, a: Assembly, chunks: seq<Chunk>)
    requires a.rest != [] && Parse(marker, a.rest) == Parsed([], a.rest, false)
    requires Parse(marker, a.rest + BytesOf(chunks)) == Parsed([], a.rest + BytesOf(chunks), false)
    ensures FedAll(marker, a, chunks) == Assembly(a.rest + BytesOf(chunks), a.started)
    decreases |chunks|
  {
    if chunks == [] {
      assert a.rest + [] == a.rest;
    } else {
      var n := |chunks| - 1;
      var before, last := BytesOf(chunks[..n]), chunks[n].bytes;
      assert a.rest + (before + last) == a.rest + before + last;
      PrefixIsUnfinished(marker, a.rest + before, last);
      TricklingBuysNoTime(marker, a, chunks[..n]);
    }
  }

  lemma PrefixIsUnfinished(marker: Byte, a: Bytes, b: Bytes)
    requires Parse(marker, a + b) == Parsed([], a + b, false)
    ensures Parse(marker, a) == Parsed([], a, false)
  {
    ParseResumes(marker, a, b);
    if a != [] && a[0] == marker && |a| >= 3 {
      assert Size(a + b) == Size(a);
    }
  }

  /** The chunk comes when the frame left unfinished by those before it is overdue. */
  ghost predicate Stalls(marker: Byte, a: Assembly, chunks: seq<Chunk>, i: nat, timeout: Time)
    requires i < |chunks|
  {
    && !Parse(marker, a.rest + BytesOf(chunks[..i])).bad
    && Overdue(FedAll(marker, a, chunks[..i]), chunks[i].at, timeout)
  }

  lemma NextChunk(marker: Byte, a: Bytes, chunks: seq<Chunk>, i: nat)
    requires i < |chunks|
    ensures chunks[..i + 1][..i] == chunks[..i]
    ensures Parse(marker, a + BytesOf(chunks[..i + 1])) ==
            Resume(marker, Parse(marker, a + BytesOf(chunks[..i])), chunks[i].bytes)
  {
    hide Parse, Resume;
    assert chunks[..i + 1][..i] == chunks[..i];
    assert a + BytesOf(chunks[..i + 1]) == a + BytesOf(chunks[..i]) + chunks[i].bytes;
    ParseResumes(marker, a + BytesOf(chunks[..i]), chunks[i].bytes);
  }

  /** Nothing after a malformed envelope is read. */
  lemma {:induction false} StaysBad(marker: Byte, a: Bytes, chunks: seq<Chunk>, n: nat, j: nat)
    requires n <= j <= |chunks| && Parse(marker, a + BytesOf(chunks[..n])).bad
    ensures Parse(marker, a + BytesOf(chunks[..j])) == Parse(marker, a + BytesOf(chunks[..n]))
    decreases j
  {
    hide Parse;
    if n < j {
      StaysBad(marker, a, chunks, n, j - 1);
      NextChunk(marker, a, chunks, j - 1);
    }
  }

  // ----- The decoder -----

  datatype Error = Malformed | DeadlineExceeded | Truncated

  class Decoder {
    const marker: Byte
    const timeout: Time
    var header: array<Byte>
    var headerSize: nat
    var payload: array<Byte>      // meaningful while `open`
    var open: bool
    var payloadSize: nat
    var startedAt: Option<Time>

    /** The buffers agree with each other. */
    ghost predicate Framed()
      reads this, header, payload
    {
      && header.Length == 3 && header != payload && headerSize <= 3
      && (headerSize > 0 ==> header[0] == marker)
      && (open <==> headerSize == 3)
      && (open ==>
            payload.Length == Size(header[..]) && 1 <= payload.Length <= MAX_SIZE && payloadSize < payload.Length)
    }

    ghost predicate Valid()
      reads this, header, payload
    {
      Framed() && (startedAt.Some? <==> headerSize > 0)
    }

    /** The bytes of the frame being assembled. */
    ghost function Buffered(): Bytes
      requires Framed()
      reads this, header, payload
    {
      header[..headerSize] + (if open then payload[..payloadSize] else [])
    }

    ghost function View(): Assembly
      requires Valid()
      reads this, header, payload
    {
      Assembly(Buffered(), startedAt)
    }

    constructor (marker: Byte, timeout: Time)
      ensures Valid() && fresh(header) && fresh(payload)
      ensures this.marker == marker && this.timeout == timeout && View() == Assembly([], None)
    {
      this.marker := marker;
      this.timeout := timeout;
      header := new Byte[3];
      payload := new Byte[0];
      headerSize, open, payloadSize, startedAt := 0, false, 0, None;
    }

    predicate Late(now: Time)
      reads this
    {
      startedAt.Some? && now - startedAt.value >= timeout
    }

    method CheckDeadline(now: Time) returns (error: Option<Error>)
      requires Valid()
      ensures error == if Overdue(View(), now, timeout) then Some(DeadlineExceeded) else None
    {
      if Late(now) {
        return Some(DeadlineExceeded);
      }
      return None;
    }

    /** The end of the stream is clean only between frames. */
    method Finish() returns (error: Option<Error>)
      requires Valid()
      ensures error == if Buffered() == [] then None else Some(Truncated)
    {
      if headerSize == 0 && !open {
        return None;
      }
      return Some(Truncated);
    }

    /** One header byte; false if the envelope is malformed. */
    method TakeHeader(b: Byte) returns (ok: bool)
      requires Framed() && headerSize < 3
      modifies this, header
      ensures header == old(header) && (payload == old(payload) || fresh(payload))
      ensures Parse(marker, old(Buffered()) + [b]).bad <==> !ok
      ensures Parse(marker, old(Buffered()) + [b]).payloads == []
      ensures ok ==>
                headerSize == old(headerSize) + 1 && header[..headerSize] == old(header[..headerSize]) + [b]
                && header[0] == marker && (open <==> headerSize == 3) && startedAt == old(startedAt)
                && (open ==> payload.Length == Size(header[..]) && 1 <= payload.Length <= MAX_SIZE)
                && (open ==> payloadSize == 0 && fresh(payload))
    {
      ghost var was := header[..headerSize];
      header[headerSize] := b;
      headerSize := headerSize + 1;
      assert header[..headerSize] == was + [b];
      ghost var now := header[..headerSize];
      if headerSize == 1 && header[0] != marker {
        return false;
      }
      if headerSize == 3 {
        var low: int, high: int := header[1], header[2];
        var size := low + 256 * high;
        assert size == Size(now);
        if !(1 <= size <= MAX_SIZE) {
          return false;
        }
        payload := new Byte[size];
        payloadSize := 0;
        open := true;
        assert header[..] == now;
      }
      return true;
    }

    /** As much of the payload as the chunk holds. */
    method TakePayload(chunk: Bytes) returns (count: nat)
      requires Valid() && open && chunk != []
      modifies this`payloadSize, payload
      ensures 0 < count <= |chunk| && payloadSize == old(payloadSize) + count <= payload.Length
      ensures payloadSize < payload.Length ==> count == |chunk|
      ensures payload[..payloadSize] == old(payload[..payloadSize]) + chunk[..count]
    {
      var needed := payload.Length - payloadSize;
      count := if |chunk| < needed then |chunk| else needed;
      var base := payloadSize;
      for i := 0 to count
        invariant payload[..base] == old(payload[..payloadSize])
        invariant payload[base..base + i] == chunk[..i]
        modifies payload
      {
        payload[base + i] := chunk[i];
        assert payload[base..base + i + 1] == payload[base..base + i] + [chunk[i]];
      }
      payloadSize := base + count;
      assert payload[..payloadSize] == payload[..base] + payload[base..base + count];
    }

    /** The next byte of the stream read as part of a header. `before` is the stream so far and
        `out` its payloads. */
    method FeedHeader(b: Byte, now: Time, ghost before: Bytes, ghost out: seq<Bytes>) returns (ok: bool)
      requires Valid() && headerSize < 3 && Parse(marker, before) == Parsed(out, Buffered(), false)
      modifies this, header
      ensures header == old(header) && (payload == old(payload) || fresh(payload))
      ensures !ok ==> Parse(marker, old(Buffered()) + [b]).bad && Parse(marker, old(Buffered()) + [b]).payloads == []
      ensures ok ==>
                && Valid() && Buffered() == old(Buffered()) + [b]
                && Parse(marker, before + [b]) == Parsed(out, Buffered(), false)
                && startedAt == if old(Buffered()) == [] then Some(now) else old(startedAt)
    {
      hide Parse, Size;
      ghost var had := Buffered();
      if headerSize == 0 && !open {
        startedAt := Some(now);
      }
      ok := TakeHeader(b);
      if ok {
        assert Buffered() == had + [b];
        BufferedIsUnfinished();
        Trickles(marker, before, out, had, [b]);
      }
    }

    /** The next bytes of the stream read as payload: how many, and the payload if it is complete. */
    method FeedPayload(chunk: Bytes, ghost before: Bytes, ghost out: seq<Bytes>)
      returns (count: nat, done: Option<Bytes>)
      requires Valid() && open && chunk != [] && Parse(marker, before) == Parsed(out, Buffered(), false)
      modifies this, payload
      ensures Valid() && header == old(header) && payload == old(payload) && 0 < count <= |chunk|
      ensures done.Some? ==>
                Buffered() == [] && Parse(marker, before + chunk[..count]) == Parsed(out + [done.value], [], false)
      ensures done.None? ==>
                && Buffered() == old(Buffered()) + chunk[..count] && startedAt == old(startedAt)
                && Parse(marker, before + chunk[..count]) == Parsed(out, Buffered(), false)
    {
      hide Parse, Size;
      ghost var had := Buffered();
      assert header[..headerSize] == header[..];
      count := TakePayload(chunk);
      ghost var taken := chunk[..count];
      assert header[..] + payload[..payloadSize] == had + taken;
      if payloadSize == payload.Length {
        assert payload[..payloadSize] == payload[..];
        Closes(marker, before, out, had, taken, header[..], payload[..]);
        done := Some(payload[..]);
        headerSize, open, payloadSize, startedAt := 0, false, 0, None;
      } else {
        done := None;
        BufferedIsUnfinished();
        Trickles(marker, before, out, had, taken);
      }
    }

    /** Any portion of the stream: the payloads it completes, in order, and the state left behind are
        those of the whole-stream parser resumed at the buffered bytes. */
    method Feed(bytes: Bytes, now: Time) returns (out: seq<Bytes>, error: Option<Error>)
      requires Valid()
      modifies this, header, payload
      ensures header == old(header) && (payload == old(payload) || fresh(payload))
      ensures old(Overdue(View(), now, timeout)) ==>
                error == Some(DeadlineExceeded) && out == [] && Valid() && View() == old(View())
      ensures !old(Overdue(View(), now, timeout)) ==>
                var p := Parse(marker, old(Buffered()) + bytes);
                && out == p.payloads
                && (error == if p.bad then Some(Malformed) else None)
                && (error.None? ==> Valid() && View() == Fed(marker, old(View()), bytes, now))
    {
      hide Parse, Size, Framed;
      out := [];
      var late := CheckDeadline(now);
      if late.Some? {
        return [], late;
      }
      ghost var start := Buffered();
      var offset := 0;
      BufferedIsUnfinished();
      StartedWithBytes();
      assert bytes[..0] == [] && start + [] == start;
      while offset < |bytes|
        invariant offset <= |bytes| && Valid()
        invariant header == old(header) && (payload == old(payload) || fresh(payload))
        invariant Parse(marker, start + bytes[..offset]) == Parsed(out, Buffered(), false)
        invariant out == [] && start != [] ==> Buffered() != []
        invariant startedAt == if Buffered() == [] then None
                               else if out == [] && start != [] then old(startedAt) else Some(now)
      {
        ghost var before := start + bytes[..offset];
        if headerSize < 3 {
          var b := bytes[offset];
          ghost var had := Buffered();
          var ok := FeedHeader(b, now, before, out);
          if !ok {
            Breaks(marker, before, out, had, [b], bytes[offset + 1..]);
            assert start + bytes == before + [b] + bytes[offset + 1..];
            return out, Some(Malformed);
          }
          assert start + bytes[..offset + 1] == before + [b];
          offset := offset + 1;
        } else {
          HeaderIsOpen();
          var count, done := FeedPayload(bytes[offset..], before, out);
          assert start + bytes[..offset + count] == before + bytes[offset..][..count];
          offset := offset + count;
          if done.Some? {
            out := out + [done.value];
          }
        }
        StartedWithBytes();
      }
      assert bytes[..offset] == bytes;
      return out, None;
    }

    /** The chunks of a connection, one after the other: the payloads, the error and the unfinished frame
        are those of the whole stream, unless a chunk comes after the deadline of the frame in assembly;
        then they are those of the chunks before it. */
    method FeedAll(chunks: seq<Chunk>) returns (out: seq<Bytes>, error: Option<Error>)
      requires Valid()
      modifies this, header, payload
      ensures header == old(header) && (payload == old(payload) || fresh(payload))
      ensures error == Some(DeadlineExceeded) <==>
                exists i | 0 <= i < |chunks| :: Stalls(marker, old(View()), chunks, i, timeout)
      ensures error == Some(DeadlineExceeded) ==>
                exists i | 0 <= i < |chunks| ::
                  && Stalls(marker, old(View()), chunks, i, timeout)
                  && (forall j | 0 <= j < i :: !Stalls(marker, old(View()), chunks, j, timeout))
                  && out == Parse(marker, old(Buffered()) + BytesOf(chunks[..i])).payloads
      ensures error != Some(DeadlineExceeded) ==>
                var p := Parse(marker, old(Buffered()) + BytesOf(chunks));
                && out == p.payloads
                && (error == if p.bad then Some(Malformed) else None)
                && (error.None? ==> Valid() && Buffered() == p.rest && View() == FedAll(marker, old(View()), chunks))
    {
      hide Parse, Size, Framed, Fed, Overdue;
      ghost var a := View();
      out := [];
      var i := 0;
      BufferedIsUnfinished();
      assert chunks[..0] == [] && a.rest + [] == a.rest;
      while i < |chunks|
        invariant i <= |chunks| && Valid()
        invariant header == old(header) && (payload == old(payload) || fresh(payload))
        invariant View() == FedAll(marker, a, chunks[..i])
        invariant Parse(marker, a.rest + BytesOf(chunks[..i])) == Parsed(out, Buffered(), false)
        invariant forall j | 0 <= j < i :: !Stalls(marker, a, chunks, j, timeout)
      {
        var more;
        ghost var had := Buffered();
        ghost var late := Overdue(View(), chunks[i].at, timeout);
        assert late <==> Stalls(marker, a, chunks, i, timeout);
        FedRest(marker, View(), chunks[i].bytes, chunks[i].at);
        more, error := Feed(chunks[i].bytes, chunks[i].at);
        NextChunk(marker, a.rest, chunks, i);
        if error == Some(DeadlineExceeded) {
          assert late;
          return out, error;
        }
        out := out + more;
        if error.Some? {
          forall j | i < j <= |chunks|
            ensures Parse(marker, a.rest + BytesOf(chunks[..j])).bad
            ensures Parse(marker, a.rest + BytesOf(chunks[..j])).payloads == out
          {
            StaysBad(marker, a.rest, chunks, i + 1, j);
          }
          assert chunks[..|chunks|] == chunks;
          return out, error;
        }
        i := i + 1;
      }
      assert chunks[..|chunks|] == chunks;
      return out, None;
    }

    lemma StartedWithBytes()
      requires Valid()
      ensures startedAt.Some? <==> Buffered() != []
    {
    }

    lemma HeaderIsOpen()
      requires Framed()
      ensures headerSize >= 3 ==> open
    {
    }

    /** A partial frame reads as itself. */
    lemma BufferedIsUnfinished()
      requires Valid()
      ensures Parse(marker, Buffered()) == Parsed([], Buffered(), false)
    {
      if headerSize == 3 {
        assert Buffered()[..3] == header[..];
        assert Size(Buffered()) == Size(header[..]);
      }
    }
  }
}
