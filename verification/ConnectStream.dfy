/** Connect streaming frames and the follower of a run's log
  * (execution/agentcompose/execution.go).
  *
  * JSON decoding and redaction are parameters. The stream is a sequence of bytes
  * that ends cleanly or, when `fault` is set, in a transport failure. */
module ConnectStream {
  import opened Base

  newtype byte = x: int | 0 <= x < 256

  type Bytes = seq<byte>

  const MAX_FRAME_BYTES: nat := 4 * 1024 * 1024

  datatype Frame = Frame(flag: byte, payload: Bytes)

  datatype Error =
    | EndOfInput | UnexpectedEof | Transport | Malformed | StreamDropped
    | Rejected | Cancelled | Timeout | Unavailable | Incompatible | AgentFailed

  // ---- Frames ---------------------------------------------------------------

  function BigEndian(n: nat): (b: Bytes)
    ensures |b| == 4
  {
    var n1 := n / 256;
    var n2 := n1 / 256;
    var n3 := n2 / 256;
    [(n3 % 256) as byte, (n2 % 256) as byte, (n1 % 256) as byte, (n % 256) as byte]
  }

  function FromBigEndian(b: Bytes): nat
    requires |b| == 4
  {
    ((b[0] as nat * 256 + b[1] as nat) * 256 + b[2] as nat) * 256 + b[3] as nat
  }

  lemma BigEndianRoundTrip(n: nat)
    ensures FromBigEndian(BigEndian(n)) == n % 0x1_0000_0000
  {
    var n1 := n / 256;
    var n2 := n1 / 256;
    var n3 := n2 / 256;
    RemainderIs(n, n3 / 256, FromBigEndian(BigEndian(n)));
  }

  lemma RemainderIs(n: nat, q: nat, r: nat)
    requires n == 0x1_0000_0000 * q + r && r < 0x1_0000_0000
    ensures n % 0x1_0000_0000 == r
  {
  }

  lemma BigEndianInverse(b: Bytes)
    requires |b| == 4
    ensures FromBigEndian(b) < 0x1_0000_0000 && BigEndian(FromBigEndian(b)) == b
  {
    var n := FromBigEndian(b);
    var n3 := b[0] as nat;
    var n2 := n3 * 256 + b[1] as nat;
    var n1 := n2 * 256 + b[2] as nat;
    assert n / 256 == n1 && n1 / 256 == n2 && n2 / 256 == n3;
  }

  /** The header stores the payload's length modulo 2 to the 32. */
  function Encode(f: Frame): Bytes {
    [f.flag] + BigEndian(|f.payload|) + f.payload
  }

  datatype Read = Got(frame: Frame, rest: Bytes) | Stop(error: Error)

  function ReadFrame(b: Bytes, fault: bool): Read {
    if |b| < 5 then
      Stop(if fault then Transport else if b == [] then EndOfInput else UnexpectedEof)
    else
      var size := FromBigEndian(b[1..5]);
      if size > MAX_FRAME_BYTES then Stop(Malformed)
      else if |b| - 5 < size then Stop(StreamDropped)
      else Got(Frame(b[0], b[5..5 + size]), b[5 + size..])
  }

  /** At most four mebibytes. */
  predicate Fits(f: Frame) { |f.payload| <= 4194304 }

  /** A frame is read back exactly when it is within the limit; one that is too large
    * is never read back, even if its length wraps around. */
  lemma FrameRoundTrip(f: Frame, rest: Bytes, fault: bool)
    ensures ReadFrame(Encode(f) + rest, fault) == Got(f, rest) <==> Fits(f)
  {
    var b := Encode(f) + rest;
    var size := FromBigEndian(b[1..5]);
    assert size == |f.payload| % 0x1_0000_0000 by {
      assert b[1..5] == BigEndian(|f.payload|);
      BigEndianRoundTrip(|f.payload|);
    }
    if Fits(f) {
      assert size == |f.payload|;
      assert b[5..5 + |f.payload|] == f.payload;
      assert b[5 + |f.payload|..] == rest;
    } else {
      assert size > MAX_FRAME_BYTES || size < |f.payload|;
    }
  }

  /** Reading takes apart only what encoding puts together. */
  lemma ReadingInvertsEncoding(b: Bytes, fault: bool)
    requires ReadFrame(b, fault).Got?
    ensures var r := ReadFrame(b, fault); Fits(r.frame) && b == Encode(r.frame) + r.rest
  {
    var r := ReadFrame(b, fault);
    BigEndianInverse(b[1..5]);
    assert b == [b[0]] + b[1..5] + b[5..5 + |r.frame.payload|] + r.rest;
  }

  function EncodeAll(fs: seq<Frame>): Bytes {
    if fs == [] then [] else Encode(fs[0]) + EncodeAll(fs[1..])
  }

  /** All whole frames of a stream, and why reading stopped. */
  function ReadAll(b: Bytes, fault: bool): (seq<Frame>, Error)
    decreases |b|
  {
    match ReadFrame(b, fault)
    case Stop(e) => ([], e)
    case Got(f, rest) => var (fs, e) := ReadAll(rest, fault); ([f] + fs, e)
  }

  /** Any list of frames within the limit is read back as the same list. */
  lemma {:induction false} StreamRoundTrip(fs: seq<Frame>)
    requires forall i :: 0 <= i < |fs| ==> Fits(fs[i])
    ensures ReadAll(EncodeAll(fs), false) == (fs, EndOfInput)
  {
    if fs != [] {
      FrameRoundTrip(fs[0], EncodeAll(fs[1..]), false);
      StreamRoundTrip(fs[1..]);
      assert [fs[0]] + fs[1..] == fs;
    }
  }

  // ---- Log chunks and events ---------------------------------------------------

  datatype LogChunk = LogChunk(data: string, offset: nat, isFinal: bool, runStatus: string, run: string)

  datatype EventKind = LogEvent | StatusEvent | CompletedEvent

  datatype Event = Event(sequence: nat, runId: Id, kind: EventKind, stream: string, message: string, terminal: bool)

  datatype EndStream = NoError | Failed(code: string)

  /** The JSON decoders and the redactor. */
  datatype Codec = Codec(chunk: Bytes -> Option<LogChunk>, end: Bytes -> Option<EndStream>, redact: string -> string)

  function NormaliseStatus(status: string): string {
    Lower(if HasPrefix(status, "RUN_STATUS_") then status[|"RUN_STATUS_"|..] else status)
  }

  function NormaliseChunk(runId: Id, c: LogChunk, redact: string -> string): Event {
    var status := NormaliseStatus(if c.run != "" then c.run else c.runStatus);
    if c.isFinal then Event(c.offset, runId, CompletedEvent, "stdout", status, true)
    else if c.data == "" then Event(c.offset, runId, StatusEvent, "stdout", status, false)
    else Event(c.offset, runId, LogEvent, "stdout", redact(c.data), false)
  }

  function MapCode(code: string): Error {
    var c := Lower(Trim(code));
    if c == "canceled" then Cancelled
    else if c == "deadline_exceeded" then Timeout
    else if c == "unavailable" || c == "resource_exhausted" then Unavailable
    else if c == "unauthenticated" || c == "permission_denied" || c == "invalid_argument"
         || c == "not_found" || c == "already_exists" then Rejected
    else if c == "failed_precondition" || c == "unimplemented" then Incompatible
    else AgentFailed
  }

  /** A chunk that says nothing is skipped. */
  predicate Kept(c: LogChunk) {
    c.data != "" || c.isFinal || c.run != ""
  }

  predicate IsEnd(flag: byte) { flag as int / 2 % 2 == 1 }

  function ChunkOf(f: Frame, codec: Codec): Option<LogChunk> {
    codec.chunk(f.payload)
  }

  /** An empty end-stream payload means no error. */
  function EndOf(f: Frame, codec: Codec): Option<EndStream> {
    if f.payload == [] then Some(NoError) else codec.end(f.payload)
  }

  // ---- What a good stream is -----------------------------------------------------

  predicate DataFrame(f: Frame, codec: Codec) {
    Fits(f) && f.flag == 0 && ChunkOf(f, codec).Some?
  }

  predicate CleanEnd(f: Frame, codec: Codec) {
    Fits(f) && IsEnd(f.flag) && EndOf(f, codec) == Some(NoError)
  }

  /** The kept data frames, as events, in order. */
  function Events(fs: seq<Frame>, runId: Id, codec: Codec): seq<Event>
    requires forall i :: 0 <= i < |fs| ==> DataFrame(fs[i], codec)
  {
    if fs == [] then []
    else
      assert DataFrame(fs[0], codec);
      var c := ChunkOf(fs[0], codec).value;
      (if Kept(c) then [NormaliseChunk(runId, c, codec.redact)] else []) + Events(fs[1..], runId, codec)
  }

  predicate IsFinal(f: Frame, codec: Codec) {
    ChunkOf(f, codec).Some? && ChunkOf(f, codec).value.isFinal
  }

  predicate SawFinal(fs: seq<Frame>, codec: Codec) {
    exists i :: 0 <= i < |fs| && IsFinal(fs[i], codec)
  }

  /** `b` is the data frames `fs`, then either nothing or a clean end-stream frame
    * (whatever follows it). */
  ghost predicate Stream(b: Bytes, fault: bool, fs: seq<Frame>, codec: Codec) {
    && (forall i :: 0 <= i < |fs| ==> DataFrame(fs[i], codec))
    && |EncodeAll(fs)| <= |b| && b[..|EncodeAll(fs)|] == EncodeAll(fs)
    && Ending(b[|EncodeAll(fs)|..], fault, codec)
  }

  ghost predicate Ending(b: Bytes, fault: bool, codec: Codec) {
    || (b == [] && !fault)
    || exists f: Frame, rest: Bytes :: CleanEnd(f, codec) && b == Encode(f) + rest
  }

  // ---- The follower -----------------------------------------------------------------

  datatype Outcome = Outcome(events: seq<Event>, error: Option<Error>)

  /** What one frame does: end the stream, or add at most one event and go on. */
  datatype Turn = Finish(error: Option<Error>) | Continue(events: seq<Event>, terminal: bool)

  function Handle(f: Frame, terminal: bool, runId: Id, codec: Codec): Turn {
    if IsEnd(f.flag) then Finish(AtEnd(f, terminal, codec))
    else if f.flag != 0 || ChunkOf(f, codec).None? then Finish(Some(Malformed))
    else
      var c := ChunkOf(f, codec).value;
      Continue(if Kept(c) then [NormaliseChunk(runId, c, codec.redact)] else [], terminal || c.isFinal)
  }

  function Follow(b: Bytes, fault: bool, terminal: bool, runId: Id, codec: Codec): Outcome
    decreases |b|
  {
    match ReadFrame(b, fault)
    case Stop(e) => Outcome([], if e == EndOfInput then Closing(terminal) else Some(e))
    case Got(f, rest) =>
      match Handle(f, terminal, runId, codec)
      case Finish(e) => Outcome([], e)
      case Continue(events, seen) =>
        Prepend(events, Follow(rest, fault, seen, runId, codec))
  }

  function Closing(terminal: bool): Option<Error> {
    if terminal then None else Some(StreamDropped)
  }

  function AtEnd(f: Frame, terminal: bool, codec: Codec): Option<Error> {
    match EndOf(f, codec)
    case None => Some(Malformed)
    case Some(Failed(code)) => Some(MapCode(code))
    case Some(NoError) => Closing(terminal)
  }

  function Prepend(events: seq<Event>, o: Outcome): Outcome {
    Outcome(events + o.events, o.error)
  }

  lemma EndingIsFollowed(b: Bytes, fault: bool, terminal: bool, runId: Id, codec: Codec)
    requires Ending(b, fault, codec)
    ensures Follow(b, fault, terminal, runId, codec) == Outcome([], Closing(terminal))
  {
    if b != [] || fault {
      var f: Frame, rest: Bytes :| CleanEnd(f, codec) && b == Encode(f) + rest;
      FrameRoundTrip(f, rest, fault);
    }
  }

  lemma DataIsFollowed(f: Frame, rest: Bytes, fault: bool, terminal: bool, runId: Id, codec: Codec)
    requires DataFrame(f, codec)
    ensures var c := ChunkOf(f, codec).value;
      Follow(Encode(f) + rest, fault, terminal, runId, codec)
      == Prepend(if Kept(c) then [NormaliseChunk(runId, c, codec.redact)] else [],
                 Follow(rest, fault, terminal || c.isFinal, runId, codec))
  {
    FrameRoundTrip(f, rest, fault);
  }

  /** A good stream is followed without error if a final chunk was seen, and the events
    * are its kept frames. */
  lemma {:induction false} GoodStreamSucceeds(b: Bytes, fault: bool, fs: seq<Frame>, terminal: bool, runId: Id, codec: Codec)
    requires Stream(b, fault, fs, codec)
    ensures Follow(b, fault, terminal, runId, codec) == Outcome(Events(fs, runId, codec), Closing(terminal || SawFinal(fs, codec)))
    decreases |fs|
  {
    if fs == [] {
      assert b[0..] == b;
      EndingIsFollowed(b, fault, terminal, runId, codec);
    } else {
      var rest := b[|Encode(fs[0])|..];
      StreamTail(b, fault, fs, codec);
      assert DataFrame(fs[0], codec);
      DataIsFollowed(fs[0], rest, fault, terminal, runId, codec);
      GoodStreamSucceeds(rest, fault, fs[1..], terminal || ChunkOf(fs[0], codec).value.isFinal, runId, codec);
      SawFinalSplit(fs, codec);
    }
  }

  lemma SawFinalSplit(fs: seq<Frame>, codec: Codec)
    requires fs != []
    ensures SawFinal(fs, codec) <==> IsFinal(fs[0], codec) || SawFinal(fs[1..], codec)
  {
    if SawFinal(fs[1..], codec) {
      var i :| 0 <= i < |fs| - 1 && IsFinal(fs[1..][i], codec);
      assert fs[i + 1] == fs[1..][i];
    }
    if SawFinal(fs, codec) {
      var i :| 0 <= i < |fs| && IsFinal(fs[i], codec);
      assert i > 0 ==> fs[1..][i - 1] == fs[i];
    }
  }

  lemma StreamTail(b: Bytes, fault: bool, fs: seq<Frame>, codec: Codec)
    requires Stream(b, fault, fs, codec) && fs != []
    ensures |Encode(fs[0])| <= |b| && b == Encode(fs[0]) + b[|Encode(fs[0])|..]
    ensures Stream(b[|Encode(fs[0])|..], fault, fs[1..], codec)
  {
    var head, tail := Encode(fs[0]), EncodeAll(fs[1..]);
    var rest := b[|head|..];
    assert EncodeAll(fs) == head + tail;
    var all := b[..|head + tail|];
    assert b[..|head|] == all[..|head|] == head;
    assert rest[..|tail|] == all[|head|..] == tail;
    assert rest[|tail|..] == b[|head + tail|..];
  }

  /** Conversely, a success comes from a good stream. */
  lemma {:induction false} SuccessIsGoodStream(b: Bytes, fault: bool, terminal: bool, runId: Id, codec: Codec) returns (fs: seq<Frame>)
    requires Follow(b, fault, terminal, runId, codec).error.None?
    ensures Stream(b, fault, fs, codec)
    decreases |b|
  {
    match ReadFrame(b, fault) {
      case Stop(_) =>
        fs := [];
      case Got(f, rest) =>
        ReadingInvertsEncoding(b, fault);
        if IsEnd(f.flag) {
          fs := [];
          assert b[0..] == b;
          assert CleanEnd(f, codec);
        } else {
          var c := codec.chunk(f.payload).value;
          var more := SuccessIsGoodStream(rest, fault, terminal || c.isFinal, runId, codec);
          fs := [f] + more;
          assert fs[1..] == more;
          StreamCons(f, rest, fault, more, codec);
        }
    }
  }

  lemma StreamCons(f: Frame, rest: Bytes, fault: bool, fs: seq<Frame>, codec: Codec)
    requires DataFrame(f, codec) && Stream(rest, fault, fs, codec)
    ensures Stream(Encode(f) + rest, fault, [f] + fs, codec)
  {
    var b, all := Encode(f) + rest, [f] + fs;
    assert all[1..] == fs;
    assert EncodeAll(all) == Encode(f) + EncodeAll(fs);
    assert b[..|EncodeAll(all)|] == EncodeAll(all);
    assert b[|EncodeAll(all)|..] == rest[|EncodeAll(fs)|..];
  }

  /** The follower succeeds exactly on the good streams in which a final chunk was seen. */
  lemma FollowerSucceedsExactly(b: Bytes, fault: bool, runId: Id, codec: Codec)
    ensures Follow(b, fault, false, runId, codec).error.None?
      <==> exists fs: seq<Frame> :: Stream(b, fault, fs, codec) && SawFinal(fs, codec)
    ensures forall fs: seq<Frame> :: Stream(b, fault, fs, codec) ==>
      Follow(b, fault, false, runId, codec).events == Events(fs, runId, codec)
  {
    if Follow(b, fault, false, runId, codec).error.None? {
      var fs := SuccessIsGoodStream(b, fault, false, runId, codec);
      GoodStreamSucceeds(b, fault, fs, false, runId, codec);
    }
    forall fs: seq<Frame> | Stream(b, fault, fs, codec)
      ensures Follow(b, fault, false, runId, codec) == Outcome(Events(fs, runId, codec), Closing(SawFinal(fs, codec)))
    {
      GoodStreamSucceeds(b, fault, fs, false, runId, codec);
    }
  }

  /** On every stream, good or not, the events sent are the kept ones of the data frames
    * with which the stream begins. */
  lemma {:induction false} EventsAreKeptFrames(b: Bytes, fault: bool, terminal: bool, runId: Id, codec: Codec)
    returns (fs: seq<Frame>, tail: Bytes)
    ensures forall i :: 0 <= i < |fs| ==> DataFrame(fs[i], codec)
    ensures b == EncodeAll(fs) + tail
    ensures Follow(b, fault, terminal, runId, codec).events == Events(fs, runId, codec)
    decreases |b|
  {
    fs, tail := [], b;
    if ReadFrame(b, fault).Got? {
      var f := ReadFrame(b, fault).frame;
      ReadingInvertsEncoding(b, fault);
      var turn := Handle(f, terminal, runId, codec);
      if turn.Continue? {
        var more;
        more, tail := EventsAreKeptFrames(ReadFrame(b, fault).rest, fault, turn.terminal, runId, codec);
        fs := [f] + more;
        assert fs[1..] == more;
      }
    }
  }

  // ---- Cancellation -------------------------------------------------------------------

  /** What the frames of a stream do, one after the other, up to the turn that ends it. */
  function Turns(b: Bytes, fault: bool, terminal: bool, runId: Id, codec: Codec): seq<Turn>
    decreases |b|
  {
    match ReadFrame(b, fault)
    case Stop(e) => [Finish(if e == EndOfInput then Closing(terminal) else Some(e))]
    case Got(f, rest) =>
      match Handle(f, terminal, runId, codec)
      case Finish(e) => [Finish(e)]
      case Continue(events, seen) => [Continue(events, seen)] + Turns(rest, fault, seen, runId, codec)
  }

  function Play(turns: seq<Turn>): Outcome {
    if turns == [] then Outcome([], None)
    else
      match turns[0]
      case Finish(e) => Outcome([], e)
      case Continue(events, _) => Prepend(events, Play(turns[1..]))
  }

  /** The same when the context ends after `waits` waits, one for each frame that is read and one for each
    * event that is sent: the next wait gives up with `stop`. */
  function PlayUntil(turns: seq<Turn>, waits: nat, stop: Error): Outcome {
    if waits == 0 then Outcome([], Some(stop))
    else if turns == [] then Outcome([], None)
    else
      match turns[0]
      case Finish(e) => Outcome([], e)
      case Continue(events, _) =>
        if waits - 1 < |events| then Outcome([], Some(stop))
        else Prepend(events, PlayUntil(turns[1..], waits - 1 - |events|, stop))
  }

  function WaitsOf(turns: seq<Turn>): nat {
    if turns == [] then 1
    else
      match turns[0]
      case Finish(_) => 1
      case Continue(events, _) => 1 + |events| + WaitsOf(turns[1..])
  }

  lemma {:induction false} FollowPlays(b: Bytes, fault: bool, terminal: bool, runId: Id, codec: Codec)
    ensures Follow(b, fault, terminal, runId, codec) == Play(Turns(b, fault, terminal, runId, codec))
    decreases |b|
  {
    if ReadFrame(b, fault).Got? {
      var rest, turn := ReadFrame(b, fault).rest, Handle(ReadFrame(b, fault).frame, terminal, runId, codec);
      if turn.Continue? {
        FollowPlays(rest, fault, turn.terminal, runId, codec);
        assert ([turn] + Turns(rest, fault, turn.terminal, runId, codec))[1..] == Turns(rest, fault, turn.terminal, runId, codec);
      }
    }
  }

  lemma {:induction false} CutPlayIsAPrefix(turns: seq<Turn>, waits: nat, stop: Error)
    ensures waits >= WaitsOf(turns) ==> PlayUntil(turns, waits, stop) == Play(turns)
    ensures waits < WaitsOf(turns) ==> PlayUntil(turns, waits, stop).error == Some(stop) && PlayUntil(turns, waits, stop).events <= Play(turns).events
  {
    if waits > 0 && turns != [] && turns[0].Continue? && waits - 1 >= |turns[0].events| {
      var left := waits - 1 - |turns[0].events|;
      CutPlayIsAPrefix(turns[1..], left, stop);
      PrependKeepsPrefix(turns[0].events, PlayUntil(turns[1..], left, stop), Play(turns[1..]));
    }
  }

  function Waits(b: Bytes, fault: bool, terminal: bool, runId: Id, codec: Codec): nat {
    WaitsOf(Turns(b, fault, terminal, runId, codec))
  }

  function FollowUntil(b: Bytes, fault: bool, terminal: bool, runId: Id, codec: Codec, waits: nat, stop: Error): Outcome {
    PlayUntil(Turns(b, fault, terminal, runId, codec), waits, stop)
  }

  /** A context that outlives every wait changes nothing; one that does not ends the follower with its own
    * error after a prefix of the events. */
  lemma CancelledFollowsAPrefix(b: Bytes, fault: bool, terminal: bool, runId: Id, codec: Codec, waits: nat, stop: Error)
    ensures var whole, cut := Follow(b, fault, terminal, runId, codec), FollowUntil(b, fault, terminal, runId, codec, waits, stop);
      && (waits >= Waits(b, fault, terminal, runId, codec) ==> cut == whole)
      && (waits < Waits(b, fault, terminal, runId, codec) ==> cut.error == Some(stop) && cut.events <= whole.events)
  {
    FollowPlays(b, fault, terminal, runId, codec);
    CutPlayIsAPrefix(Turns(b, fault, terminal, runId, codec), waits, stop);
  }

  lemma PrependKeepsPrefix(events: seq<Event>, cut: Outcome, whole: Outcome)
    ensures cut.events <= whole.events ==> Prepend(events, cut).events <= Prepend(events, whole).events
  {
  }

  predicate Enough(left: Option<nat>, n: nat) {
    left.Some? ==> n <= left.value
  }

  function Less(left: Option<nat>, n: nat): Option<nat>
    requires Enough(left, n)
  {
    match left
    case None => None
    case Some(waits) => Some(waits - n)
  }

  /** The rest of a follower whose context ends after `left` more waits, or not at all. */
  function FollowLeft(b: Bytes, fault: bool, terminal: bool, runId: Id, codec: Codec, left: Option<nat>, stop: Error): Outcome {
    match left
    case None => Follow(b, fault, terminal, runId, codec)
    case Some(n) => FollowUntil(b, fault, terminal, runId, codec, n, stop)
  }

  // ---- The code that reads and writes ---------------------------------------------------

  method EncodeConnectFrame(flag: byte, payload: Bytes) returns (frame: array<byte>)
    ensures frame[..] == Encode(Frame(flag, payload))
  {
    frame := new byte[5 + |payload|];
    frame[0] := flag;
    var header := BigEndian(|payload|);
    frame[1], frame[2], frame[3], frame[4] := header[0], header[1], header[2], header[3];
    for i := 0 to |payload|
      invariant frame[0] == flag && frame[1..5] == header
      invariant frame[5..5 + i] == payload[..i]
    {
      frame[5 + i] := payload[i];
    }
    assert frame[..] == [frame[0]] + frame[1..5] + frame[5..];
  }

  class Reader {
    var rest: Bytes
    const fault: bool

    constructor (input: Bytes, fault: bool)
      ensures rest == input && this.fault == fault
    {
      rest := input;
      this.fault := fault;
    }

    /** io.ReadFull: all `n` bytes, or an error after taking what there was. */
    method ReadFull(n: nat) returns (r: Result<Bytes, Error>)
      modifies this
      ensures |old(rest)| >= n ==> r == Ok(old(rest)[..n]) && rest == old(rest)[n..]
      ensures |old(rest)| < n ==> rest == []
      ensures |old(rest)| < n ==> r == Err(if fault then Transport else if old(rest) == [] then EndOfInput else UnexpectedEof)
    {
      if |rest| >= n {
        r := Ok(rest[..n]);
        rest := rest[n..];
      } else {
        r := Err(if fault then Transport else if rest == [] then EndOfInput else UnexpectedEof);
        rest := [];
      }
    }
  }

  method ReadConnectFrame(reader: Reader) returns (r: Result<Frame, Error>)
    modifies reader
    ensures match ReadFrame(old(reader.rest), reader.fault)
      case Got(f, rest) => r == Ok(f) && reader.rest == rest
      case Stop(e) => r == Err(e)
  {
    ghost var input := reader.rest;
    var header := reader.ReadFull(5);
    if header.Err? {
      return Err(header.error);
    }
    assert header.value[1..5] == input[1..5];
    var size := FromBigEndian(header.value[1..5]);
    if size > MAX_FRAME_BYTES {
      return Err(Malformed);
    }
    var payload := reader.ReadFull(size);
    if payload.Err? {
      return Err(StreamDropped);
    }
    assert input[5..][..size] == input[5..5 + size];
    assert input[5..][size..] == input[5 + size..];
    return Ok(Frame(header.value[0], payload.value));
  }

  method HandleFrame(frame: Frame, terminal: bool, runId: Id, codec: Codec) returns (turn: Turn)
    ensures turn == Handle(frame, terminal, runId, codec)
  {
    if IsEnd(frame.flag) {
      var envelope := EndOf(frame, codec);
      if envelope.None? {
        return Finish(Some(Malformed));
      }
      if envelope.value.Failed? {
        return Finish(Some(MapCode(envelope.value.code)));
      }
      return Finish(if terminal then None else Some(StreamDropped));
    }
    if frame.flag != 0 {
      return Finish(Some(Malformed));
    }
    var decoded := ChunkOf(frame, codec);
    if decoded.None? {
      return Finish(Some(Malformed));
    }
    var chunk := decoded.value;
    var event := NormaliseChunk(runId, chunk, codec.redact);
    if chunk.data == "" && !chunk.isFinal && chunk.run == "" {
      return Continue([], terminal);
    }
    return Continue([event], if chunk.isFinal then true else terminal);
  }

  lemma PrependTwice(xs: seq<Event>, ys: seq<Event>, o: Outcome)
    ensures Prepend(xs, Prepend(ys, o)) == Prepend(xs + ys, o)
  {
  }

  /** Reads and handles one frame. */
  method NextTurn(reader: Reader, terminal: bool, runId: Id, codec: Codec) returns (turn: Turn)
    modifies reader
    ensures match ReadFrame(old(reader.rest), reader.fault)
      case Stop(e) => turn == Finish(if e == EndOfInput then Closing(terminal) else Some(e))
      case Got(f, rest) => turn == Handle(f, terminal, runId, codec) && reader.rest == rest
  {
    var read := ReadConnectFrame(reader);
    if read == Err(EndOfInput) {
      return Finish(Closing(terminal));
    }
    if read.Err? {
      return Finish(Some(read.error));
    }
    turn := HandleFrame(read.value, terminal, runId, codec);
  }

  /** What one turn leaves to follow. */
  lemma TurnTaken(b: Bytes, fault: bool, terminal: bool, runId: Id, codec: Codec, left: Option<nat>, stop: Error, turn: Turn)
    requires Enough(left, 1)
    requires match ReadFrame(b, fault)
      case Stop(e) => turn == Finish(if e == EndOfInput then Closing(terminal) else Some(e))
      case Got(f, rest) => turn == Handle(f, terminal, runId, codec)
    ensures turn.Finish? ==> FollowLeft(b, fault, terminal, runId, codec, left, stop) == Outcome([], turn.error)
    ensures turn.Continue? ==> ReadFrame(b, fault).Got? && |ReadFrame(b, fault).rest| < |b|
    ensures turn.Continue? ==>
      FollowLeft(b, fault, terminal, runId, codec, left, stop)
      == if !Enough(left, 1 + |turn.events|) then Outcome([], Some(stop))
         else Prepend(turn.events, FollowLeft(ReadFrame(b, fault).rest, fault, turn.terminal, runId, codec, Less(left, 1 + |turn.events|), stop))
  {
  }

  /** `followEvents`, without the HTTP exchange around it; its context ends after `waits` waits, or not at all. */
  method FollowEvents(runId: Id, reader: Reader, codec: Codec, waits: Option<nat>, stop: Error) returns (events: seq<Event>, error: Option<Error>)
    modifies reader
    ensures runId == "" ==> events == [] && error == Some(Rejected)
    ensures runId != "" ==> Outcome(events, error) == FollowLeft(old(reader.rest), reader.fault, false, runId, codec, waits, stop)
  {
    events := [];
    if runId == "" {
      return [], Some(Rejected);
    }
    ghost var goal := FollowLeft(reader.rest, reader.fault, false, runId, codec, waits, stop);
    var terminal := false;
    var left: Option<nat> := waits;
    while true
      invariant goal == Prepend(events, FollowLeft(reader.rest, reader.fault, terminal, runId, codec, left, stop))
      decreases |reader.rest|
    {
      if !Enough(left, 1) {
        error := Some(stop);
        return;
      }
      ghost var sent, b := events, reader.rest;
      var turn := NextTurn(reader, terminal, runId, codec);
      TurnTaken(b, reader.fault, terminal, runId, codec, left, stop, turn);
      if turn.Finish? {
        error := turn.error;
        return;
      }
      if !Enough(left, 1 + |turn.events|) {
        error := Some(stop);
        return;
      }
      left := Less(left, 1 + |turn.events|);
      events := events + turn.events;
      terminal := turn.terminal;
      PrependTwice(sent, turn.events, FollowLeft(reader.rest, reader.fault, terminal, runId, codec, left, stop));
    }
  }
}
