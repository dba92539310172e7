/**
  The recognition WebSocket (server/internal/recognition/handler.go). The
  handler keeps an audio buffer and a sample rate. A binary message appends
  little-endian float32 samples; "start[:rate]" empties the buffer and may
  set the rate; "stop" or "analyze" resamples the buffer to 11200 Hz when
  needed, frames it, asks the recognition service, sends one JSON reply and
  empties the buffer. The connection ends when a read fails, which here is
  the end of the message sequence.

  The float32 decoding of a bit pattern, ffmpeg resampling, the Hamming
  window, the FFT, the complex modulus and the recognition service are
  parameters.
 */
module RecognitionHandler {
  import opened Base
  import opened Text
  import Audio
  import Recognition

  const DefaultSampleRate: int := 44100

  /** A data message as gorilla/websocket's ReadMessage returns it. */
  datatype Message = Binary(data: seq<Byte>) | TextMessage(text: string)

  /** One JSON reply: an error, `{"found": false}`, or the match. */
  datatype Reply =
    | ErrorReply(error: string)
    | NotFound
    | Found(song: Recognition.SongEntity, timeOffset: real, score: int)

  /** The handler's two local variables, `audioData` and `sampleRate`. */
  datatype State = State(audioData: seq<real>, sampleRate: int)

  const Initial: State := State([], DefaultSampleRate)

  /** The code the handler calls but that is not modelled here. */
  datatype Deps = Deps(
    fromBits: Word -> real,
    resample: (seq<real>, int) -> Result<seq<real>, string>,
    win: seq<real>,
    fft: seq<real> -> seq<Audio.Complex>,
    abs: Audio.Complex -> real,
    identify: seq<Audio.ProcessedFragment> -> Result<Option<Recognition.MatchResult>, string>)

  // ---------------------------------------------------------------------------
  // bytesToFloats
  // ---------------------------------------------------------------------------

  /** binary.LittleEndian.Uint32. */
  function Le32(b: seq<Byte>): Word
    requires |b| == 4
  {
    var b0: int, b1: int, b2: int, b3: int := b[0], b[1], b[2], b[3];
    b0 + 0x100 * b1 + 0x1_0000 * b2 + 0x100_0000 * b3
  }

  /** binary.LittleEndian.PutUint32: the four bytes of a word, least significant first. */
  function Le32Bytes(w: Word): (b: seq<Byte>)
    ensures |b| == 4
  {
    [w % 0x100, w / 0x100 % 0x100, w / 0x1_0000 % 0x100, w / 0x100_0000]
  }

  /** Reading back the bytes of a word gives the word. */
  lemma Le32RoundTrip(w: Word)
    ensures Le32(Le32Bytes(w)) == w
  {
    var b := Le32Bytes(w);
    var b1: int, b2: int, b3: int := b[1], b[2], b[3];
    assert w / 0x100 == b1 + 0x100 * (w / 0x1_0000);
    assert w / 0x1_0000 == b2 + 0x100 * b3;
  }

  /** Four bytes are the bytes of the word they encode. */
  lemma Le32Unique(b: seq<Byte>)
    requires |b| == 4
    ensures Le32Bytes(Le32(b)) == b
  {
    var w := Le32(b);
    var b0: int, b1: int, b2: int, b3: int := b[0], b[1], b[2], b[3];
    var hi2 := b2 + 0x100 * b3;
    var hi1 := b1 + 0x100 * hi2;
    ByteSplit(w, b0, hi1);
    ByteSplit(hi1, b1, hi2);
    ByteSplit(hi2, b2, b3);
    assert w / 0x1_0000 == hi1 / 0x100;
    assert w / 0x100_0000 == hi2 / 0x100;
  }

  /** x is lo + 0x100 * hi with lo a byte: lo is its low byte and hi the rest. */
  lemma ByteSplit(x: int, lo: int, hi: int)
    requires 0 <= lo < 0x100 && 0 <= hi && x == lo + 0x100 * hi
    ensures x % 0x100 == lo && x / 0x100 == hi
  {
  }

  /** The samples of a binary message: one per whole group of four bytes; a shorter tail is dropped. */
  function Floats(b: seq<Byte>, fromBits: Word -> real): (fs: seq<real>)
    ensures |fs| == |b| / 4
  {
    seq(|b| / 4, i requires 0 <= i < |b| / 4 => fromBits(Le32(b[4 * i..4 * i + 4])))
  }

  /** `bytesToFloats`. */
  method BytesToFloats(b: seq<Byte>, fromBits: Word -> real) returns (floats: seq<real>)
    ensures |floats| == |b| / 4
    ensures forall i :: 0 <= i < |b| / 4 ==> floats[i] == fromBits(Le32(b[4 * i..4 * i + 4]))
  {
    var out := new real[|b| / 4];
    for i := 0 to out.Length
      invariant forall k :: 0 <= k < i ==> out[k] == fromBits(Le32(b[4 * k..4 * k + 4]))
    {
      var bits := Le32(b[i * 4..(i + 1) * 4]);
      out[i] := fromBits(bits);
    }
    floats := out[..];
  }

  /**
    Messages cut at four-byte boundaries decode to the samples of the whole:
    how the client splits its stream into messages does not matter.
   */
  lemma FloatsAppend(a: seq<Byte>, b: seq<Byte>, fromBits: Word -> real)
    requires |a| % 4 == 0
    ensures Floats(a + b, fromBits) == Floats(a, fromBits) + Floats(b, fromBits)
  {
    var n := |a| / 4;
    forall i | 0 <= i < |(a + b)| / 4
      ensures Floats(a + b, fromBits)[i] == (Floats(a, fromBits) + Floats(b, fromBits))[i]
    {
      if i < n {
        assert (a + b)[4 * i..4 * i + 4] == a[4 * i..4 * i + 4];
      } else {
        var k := i - n;
        assert 4 * i == |a| + 4 * k;
        SliceRight(a, b, 4 * k, 4 * k + 4);
      }
    }
  }

  /** A slice that lies in the right part of a concatenation is a slice of that part. */
  lemma SliceRight(a: seq<Byte>, b: seq<Byte>, lo: nat, hi: nat)
    requires lo <= hi <= |b|
    ensures (a + b)[|a| + lo..|a| + hi] == b[lo..hi]
  {
  }

  /** Encoding words and decoding them gives back their float values, in order. */
  lemma FloatsOfWords(ws: seq<Word>, fromBits: Word -> real)
    ensures |Floats(Flat(ws), fromBits)| == |ws|
    ensures forall i :: 0 <= i < |ws| ==> Floats(Flat(ws), fromBits)[i] == fromBits(ws[i])
  {
    FlatLength(ws);
    forall i | 0 <= i < |ws|
      ensures Floats(Flat(ws), fromBits)[i] == fromBits(ws[i])
    {
      FlatSlice(ws, i);
      Le32RoundTrip(ws[i]);
    }
  }

  /** The little-endian encoding of a list of words. */
  function Flat(ws: seq<Word>): seq<Byte> {
    if ws == [] then [] else Le32Bytes(ws[0]) + Flat(ws[1..])
  }

  lemma {:induction false} FlatLength(ws: seq<Word>)
    ensures |Flat(ws)| == 4 * |ws|
  {
    if ws != [] {
      FlatLength(ws[1..]);
    }
  }

  lemma {:induction false} FlatSlice(ws: seq<Word>, i: nat)
    requires i < |ws|
    ensures |Flat(ws)| == 4 * |ws| && Flat(ws)[4 * i..4 * i + 4] == Le32Bytes(ws[i])
  {
    FlatLength(ws);
    FlatLength(ws[1..]);
    if i > 0 {
      FlatSlice(ws[1..], i - 1);
      assert Flat(ws)[4 * i..4 * i + 4] == Flat(ws[1..])[4 * (i - 1)..4 * (i - 1) + 4];
    }
  }

  // ---------------------------------------------------------------------------
  // The message state machine
  // ---------------------------------------------------------------------------

  /** The fragments `ProcessAudio` makes of samples at the target rate. */
  function Fragments(samples: seq<real>, deps: Deps): (fs: seq<Audio.ProcessedFragment>)
    requires |deps.win| == Audio.WindowSize
    ensures |fs| == Audio.FragmentCount(|samples|)
  {
    Audio.FragmentCountIsExact(|samples|);
    seq(Audio.FragmentCount(|samples|), k requires 0 <= k < Audio.FragmentCount(|samples|) =>
      Audio.FragmentAt(samples, Audio.TargetSampleRate, k, deps.win, deps.fft, deps.abs))
  }

  /** The rate a "start" message asks for: the integer after the first ':', if there is one and it parses. */
  function RequestedRate(msg: string): Option<int> {
    var parts := Split(msg, ':');
    if |parts| > 1 then Atoi(parts[1]) else None
  }

  /** The reply to the recognition service's answer. */
  function ReplyOf(answer: Result<Option<Recognition.MatchResult>, string>): Reply {
    match answer
    case Err(e) => ErrorReply("recognition error: " + e)
    case Ok(None) => NotFound
    case Ok(Some(m)) => Found(m.song, m.timeOffset, m.score)
  }

  /**
    "stop" or "analyze": an empty buffer is an error and changes nothing;
    otherwise the buffer is resampled if its rate is not the target rate.
    A resampling error is replied and leaves the buffer as Resample left
    it, which is empty; otherwise the service's answer is replied and the
    buffer is emptied. The rate is never changed.
   */
  function Analyze(s: State, deps: Deps): (State, seq<Reply>)
    requires |deps.win| == Audio.WindowSize
  {
    if s.audioData == [] then (s, [ErrorReply("no audio data received")])
    else
      var resampled := if s.sampleRate != Audio.TargetSampleRate then deps.resample(s.audioData, s.sampleRate) else Ok(s.audioData);
      match resampled
      case Err(e) => (State([], s.sampleRate), [ErrorReply("resampling error: " + e)])
      case Ok(samples) => (State([], s.sampleRate), [ReplyOf(deps.identify(Fragments(samples, deps)))])
  }

  /** One message: the new state and the replies sent. */
  function Step(s: State, m: Message, deps: Deps): (State, seq<Reply>)
    requires |deps.win| == Audio.WindowSize
  {
    match m
    case Binary(data) => (State(s.audioData + Floats(data, deps.fromBits), s.sampleRate), [])
    case TextMessage(msg) =>
      if HasPrefix(msg, "start") then
        (State([], match RequestedRate(msg) case Some(rate) => rate case None => s.sampleRate), [])
      else if msg == "stop" || msg == "analyze" then Analyze(s, deps)
      else (s, [])
  }

  /** The state after the messages and every reply sent, in order. */
  function Run(s: State, messages: seq<Message>, deps: Deps): (State, seq<Reply>)
    requires |deps.win| == Audio.WindowSize
  {
    if messages == [] then (s, [])
    else
      var (before, replies) := Run(s, messages[..|messages| - 1], deps);
      var (after, more) := Step(before, messages[|messages| - 1], deps);
      (after, replies + more)
  }

  predicate IsAnalyze(m: Message) {
    m.TextMessage? && !HasPrefix(m.text, "start") && (m.text == "stop" || m.text == "analyze")
  }

  /** The number of "stop" and "analyze" messages. */
  function AnalyzeCount(messages: seq<Message>): nat {
    if messages == [] then 0
    else AnalyzeCount(messages[..|messages| - 1]) + (if IsAnalyze(messages[|messages| - 1]) then 1 else 0)
  }

  // ---------------------------------------------------------------------------
  // The handler
  // ---------------------------------------------------------------------------

  /** The "stop"/"analyze" branch of the loop. */
  method AnalyzeBuffer(audioData: seq<real>, sampleRate: int, deps: Deps) returns (audioData': seq<real>, reply: Reply)
    requires |deps.win| == Audio.WindowSize
    ensures Analyze(State(audioData, sampleRate), deps) == (State(audioData', sampleRate), [reply])
  {
    if |audioData| == 0 {
      return audioData, ErrorReply("no audio data received");
    }
    audioData' := audioData;
    if sampleRate != Audio.TargetSampleRate {
      var resampled := deps.resample(audioData', sampleRate);
      if resampled.Err? {
        return [], ErrorReply("resampling error: " + resampled.error);
      }
      audioData' := resampled.value;
    }
    var fragments, _ := Audio.ProcessAudio(audioData', Audio.TargetSampleRate, deps.win, deps.fft, deps.abs);
    assert fragments == Fragments(audioData', deps);
    var answer := deps.identify(fragments);
    if answer.Err? {
      reply := ErrorReply("recognition error: " + answer.error);
    } else if answer.value.None? {
      reply := NotFound;
    } else {
      var m := answer.value.value;
      reply := Found(m.song, m.timeOffset, m.score);
    }
    audioData' := [];
  }

  /** `HandleWebSocket`: the read loop over the messages, returning every reply written. */
  method HandleWebSocket(messages: seq<Message>, deps: Deps) returns (replies: seq<Reply>)
    requires |deps.win| == Audio.WindowSize
    ensures replies == Run(Initial, messages, deps).1
  {
    var audioData: seq<real> := [];
    var sampleRate := DefaultSampleRate;
    replies := [];
    for i := 0 to |messages|
      invariant (State(audioData, sampleRate), replies) == Run(Initial, messages[..i], deps)
    {
      RunStep(messages, i, deps);
      ghost var next := Step(State(audioData, sampleRate), messages[i], deps);
      ghost var sent := replies;
      match messages[i] {
      case Binary(p) =>
        var floats := BytesToFloats(p, deps.fromBits);
        assert floats == Floats(p, deps.fromBits);
        audioData := audioData + floats;
      case TextMessage(msg) =>
        if HasPrefix(msg, "start") {
          audioData := [];
          var parts := Split(msg, ':');
          if |parts| > 1 {
            var rate := Atoi(parts[1]);
            if rate.Some? {
              sampleRate := rate.value;
            }
          }
        } else if msg == "stop" || msg == "analyze" {
          var reply;
          audioData, reply := AnalyzeBuffer(audioData, sampleRate, deps);
          replies := replies + [reply];
        }
      }
      assert sent + [] == sent;
      assert (State(audioData, sampleRate), replies) == (next.0, sent + next.1);
    }
    assert messages[..|messages|] == messages;
  }

  lemma RunStep(messages: seq<Message>, i: nat, deps: Deps)
    requires i < |messages| && |deps.win| == Audio.WindowSize
    ensures var (before, replies) := Run(Initial, messages[..i], deps);
      var (after, more) := Step(before, messages[i], deps);
      Run(Initial, messages[..i + 1], deps) == (after, replies + more)
  {
    assert messages[..i + 1][..i] == messages[..i];
  }

  // ---------------------------------------------------------------------------
  // Properties
  // ---------------------------------------------------------------------------

  /** A binary message appends its samples after the buffer, keeps the rate and sends nothing. */
  lemma BinaryAppends(s: State, data: seq<Byte>, deps: Deps)
    requires |deps.win| == Audio.WindowSize
    ensures var (t, replies) := Step(s, Binary(data), deps);
      && t.audioData[..|s.audioData|] == s.audioData
      && |t.audioData| == |s.audioData| + |data| / 4
      && t.sampleRate == s.sampleRate && replies == []
  {
  }

  /** "start:<digits>" empties the buffer and sets the rate to that number. */
  lemma StartWithRate(s: State, digits: string, deps: Deps)
    requires |deps.win| == Audio.WindowSize
    requires digits != [] && AllDigits(digits)
    ensures Step(s, TextMessage("start:" + digits), deps) == (State([], DigitsValue(digits)), [])
  {
    assert ':' !in digits by {
      assert forall k :: 0 <= k < |digits| ==> digits[k] != ':';
    }
    assert Join(["start", digits], [':']) == "start:" + digits by {
      assert Join([digits], [':']) == digits;
    }
    SplitJoin(["start", digits], ':');
    assert ("start:" + digits)[..5] == "start";
  }

  /** "start" alone, or with a rate that does not parse, empties the buffer and keeps the rate. */
  lemma StartKeepsRate(s: State, msg: string, deps: Deps)
    requires |deps.win| == Audio.WindowSize
    requires HasPrefix(msg, "start") && RequestedRate(msg).None?
    ensures Step(s, TextMessage(msg), deps) == (State([], s.sampleRate), [])
  {
  }

  /** "stop" or "analyze" on an empty buffer replies with an error and changes nothing. */
  lemma StopOnEmptyBuffer(rate: int, msg: string, deps: Deps)
    requires |deps.win| == Audio.WindowSize
    requires msg == "stop" || msg == "analyze"
    ensures Step(State([], rate), TextMessage(msg), deps) == (State([], rate), [ErrorReply("no audio data received")])
  {
    assert !HasPrefix(msg, "start") by {
      if msg == "stop" {
        assert |msg| < |"start"|;
      } else {
        assert msg[0] != 's';
      }
    }
  }

  /**
    A recognition attempt sends exactly one reply, empties the buffer and
    keeps the rate; at the target rate the buffer is framed as it is, with
    no resampling, at another rate the resampled buffer is framed, and a
    resampling error or an empty buffer is answered with its error message.
   */
  lemma AnalyzeOutcome(s: State, deps: Deps)
    requires |deps.win| == Audio.WindowSize
    ensures |Analyze(s, deps).1| == 1 && Analyze(s, deps).0 == State([], s.sampleRate)
    ensures s.audioData != [] && s.sampleRate == Audio.TargetSampleRate ==>
      Analyze(s, deps).1 == [ReplyOf(deps.identify(Fragments(s.audioData, deps)))]
    ensures s.audioData != [] && s.sampleRate != Audio.TargetSampleRate && deps.resample(s.audioData, s.sampleRate).Err? ==>
      Analyze(s, deps).1 == [ErrorReply("resampling error: " + deps.resample(s.audioData, s.sampleRate).error)]
    ensures s.audioData != [] && s.sampleRate != Audio.TargetSampleRate && deps.resample(s.audioData, s.sampleRate).Ok? ==>
      Analyze(s, deps).1 == [ReplyOf(deps.identify(Fragments(deps.resample(s.audioData, s.sampleRate).value, deps)))]
    ensures s.audioData == [] ==> Analyze(s, deps).1 == [ErrorReply("no audio data received")]
  {
  }

  /** Text messages other than "start...", "stop" and "analyze" are ignored. */
  lemma OtherTextIgnored(s: State, msg: string, deps: Deps)
    requires |deps.win| == Audio.WindowSize
    requires !HasPrefix(msg, "start") && msg != "stop" && msg != "analyze"
    ensures Step(s, TextMessage(msg), deps) == (s, [])
  {
  }

  /** Over a whole connection, exactly one reply is sent per "stop" or "analyze" message, and none otherwise. */
  lemma {:induction false} OneReplyPerAnalyze(s: State, messages: seq<Message>, deps: Deps)
    requires |deps.win| == Audio.WindowSize
    ensures |Run(s, messages, deps).1| == AnalyzeCount(messages)
    decreases |messages|
  {
    if messages != [] {
      OneReplyPerAnalyze(s, messages[..|messages| - 1], deps);
      var before := Run(s, messages[..|messages| - 1], deps).0;
      var m := messages[|messages| - 1];
      if IsAnalyze(m) {
        AnalyzeOutcome(before, deps);
      }
    }
  }
}
