/** The agent-runner's standard output: a capped capture of everything, and a
    streaming parser that cuts payloads out from between marker pairs. */
module StdoutFrames {
  import opened Common
  import opened Text

  const OUTPUT_START_MARKER := "---EJCLAW_OUTPUT_START---"
  const OUTPUT_END_MARKER := "---EJCLAW_OUTPUT_END---"

  /** The payloads cut from a stream and the tail still waiting for more text. */
  datatype Frames = Frames(payloads: seq<string>, rest: string)

  datatype Markers = Markers(start: string, end: string)

  datatype Cut = Cut(payload: string, after: string)

  /** The first complete frame of `s` and the text behind it, if there is one. */
  function NextFrame(m: Markers, s: string): (r: Option<Cut>)
    ensures r.Some? && m.end != "" ==> |r.value.after| < |s|
  {
    match IndexOf(s, m.start, 0)
    case None => None
    case Some(i) =>
      match IndexOf(s, m.end, i)
      case None => None
      case Some(e) => Some(Cut(Trim(Slice(s, i + |m.start|, e)), s[e + |m.end|..]))
  }

  /** Parsing the whole of `s` at once. */
  function Parse(m: Markers, s: string): (r: Frames)
    requires m.end != ""
    ensures |r.rest| <= |s|
    decreases |s|
  {
    match NextFrame(m, s)
    case None => Frames([], s)
    case Some(c) =>
      var tail := Parse(m, c.after);
      Frames([c.payload] + tail.payloads, tail.rest)
  }

  function Concat(chunks: seq<string>): string {
    if chunks == [] then "" else Concat(chunks[..|chunks| - 1]) + chunks[|chunks| - 1]
  }

  /** Parsing on from a buffer, behind what was already emitted. */
  function Resume(m: Markers, f: Frames): Frames
    requires m.end != ""
  {
    var g := Parse(m, f.rest);
    Frames(f.payloads + g.payloads, g.rest)
  }

  /** One more chunk: what is left over from before is parsed again with it. */
  function Feed(m: Markers, f: Frames, chunk: string): Frames
    requires m.end != ""
  {
    Resume(m, Frames(f.payloads, f.rest + chunk))
  }

  function FeedAll(m: Markers, chunks: seq<string>): Frames
    requires m.end != ""
  {
    if chunks == [] then Frames([], "")
    else Feed(m, FeedAll(m, chunks[..|chunks| - 1]), chunks[|chunks| - 1])
  }

  /** A complete frame stays the same frame when more text arrives. */
  lemma NextFrameExtension(m: Markers, a: string, b: string)
    requires NextFrame(m, a).Some?
    ensures NextFrame(m, a + b) == Some(Cut(NextFrame(m, a).value.payload, NextFrame(m, a).value.after + b))
  {
    hide IndexOf, IsFirst, Trim;
    var i := IndexOf(a, m.start, 0).value;
    var e := IndexOf(a, m.end, i).value;
    IndexOfExtension(a, b, m.start, 0);
    IndexOfExtension(a, b, m.end, i);
    var k, lo := e + |m.end|, i + |m.start|;
    assert (a + b)[k..] == a[k..] + b;
    assert Slice(a + b, lo, e) == Slice(a, lo, e);
  }

  /** One turn of the handler's loop. */
  lemma ResumeStep(m: Markers, f: Frames)
    requires m.end != ""
    ensures match NextFrame(m, f.rest)
            case None => Resume(m, f) == f
            case Some(c) => Resume(m, f) == Resume(m, Frames(f.payloads + [c.payload], c.after))
  {
    hide NextFrame;
    match NextFrame(m, f.rest)
    case None =>
      assert f.payloads + [] == f.payloads;
    case Some(c) =>
      var t := Parse(m, c.after);
      assert f.payloads + ([c.payload] + t.payloads) == (f.payloads + [c.payload]) + t.payloads;
  }

  /** Text that arrives later changes nothing that was already emitted. */
  lemma {:induction false} ParseExtension(m: Markers, a: string, b: string)
    requires m.end != ""
    ensures Parse(m, a + b) == Feed(m, Parse(m, a), b)
    decreases |a|
  {
    hide NextFrame;
    var next := NextFrame(m, a);
    if next.Some? {
      var p, after := next.value.payload, next.value.after;
      NextFrameExtension(m, a, b);
      ParseExtension(m, after, b);
      assert Parse(m, a) == Frames([p] + Parse(m, after).payloads, Parse(m, after).rest);
      assert Parse(m, a + b) == Frames([p] + Parse(m, after + b).payloads, Parse(m, after + b).rest);
      hide Parse;
      var g := Parse(m, Parse(m, after).rest + b);
      assert [p] + (Parse(m, after).payloads + g.payloads) == ([p] + Parse(m, after).payloads) + g.payloads;
    } else {
      assert Parse(m, a) == Frames([], a);
      hide Parse;
    }
  }

  /** Chunk invariance: however the stream is split, the payloads and the
      unconsumed tail are those of parsing it whole. */
  lemma {:induction false} ChunkInvariance(m: Markers, chunks: seq<string>)
    requires m.end != ""
    ensures FeedAll(m, chunks) == Parse(m, Concat(chunks))
  {
    if chunks != [] {
      var front := chunks[..|chunks| - 1];
      ChunkInvariance(m, front);
      ParseExtension(m, Concat(front), chunks[|chunks| - 1]);
    }
  }

  /** `parseLegacyAgentOutput`: the text between the first start marker and the
      first end marker, or `None` where it falls back to the last line. */
  function LegacyFrame(m: Markers, stdout: string): Option<string> {
    match (IndexOf(stdout, m.start, 0), IndexOf(stdout, m.end, 0))
    case (Some(i), Some(e)) =>
      if e > i then Some(Trim(Slice(stdout, i + |m.start|, e))) else None
    case _ => None
  }

  /** The legacy parser reads a frame exactly when the first end marker follows
      the first start marker; it is then the streaming parser's first payload. */
  lemma LegacyAgreesOnFirstFrame(m: Markers, stdout: string)
    requires m.end != ""
    ensures LegacyFrame(m, stdout).Some? <==>
              (exists i: nat, e: nat :: i < e && IsFirst(stdout, m.start, 0, i) && IsFirst(stdout, m.end, 0, e))
    ensures LegacyFrame(m, stdout).Some? ==>
              && Parse(m, stdout).payloads != []
              && Parse(m, stdout).payloads[0] == LegacyFrame(m, stdout).value
  {
    hide IndexOf, Trim, Slice, OccursAt, NextFrame;
    if j: nat, f: nat :| j < f && IsFirst(stdout, m.start, 0, j) && IsFirst(stdout, m.end, 0, f) {
      IndexOfIs(stdout, m.start, 0, j);
      IndexOfIs(stdout, m.end, 0, f);
    }
    if LegacyFrame(m, stdout).Some? { LegacyIsNextFrame(m, stdout); }
  }

  lemma LegacyIsNextFrame(m: Markers, stdout: string)
    requires LegacyFrame(m, stdout).Some?
    ensures NextFrame(m, stdout).Some? && NextFrame(m, stdout).value.payload == LegacyFrame(m, stdout).value
  {
    hide IndexOf, Trim, Slice, OccursAt;
    IndexOfIs(stdout, m.end, IndexOf(stdout, m.start, 0).value, IndexOf(stdout, m.end, 0).value);
  }

  /** Where the first end marker precedes the first start marker the two parsers
      part: the streaming one may still emit, the legacy one never does. */
  lemma LegacyMissesLateFrame()
    ensures var m := Markers("<", ">");
            LegacyFrame(m, "><1>").None? && Parse(m, "><1>") == Frames(["1"], "")
  {
    var m, s := Markers("<", ">"), "><1>";
    assert forall i :: 0 <= i < 4 ==> (OccursAt(s, "<", i) <==> s[i] == '<') && (OccursAt(s, ">", i) <==> s[i] == '>');
    IndexOfIs(s, "<", 0, 1);
    IndexOfIs(s, ">", 0, 0);
    IndexOfIs(s, ">", 1, 3);
    assert s[4..] == "" && Slice(s, 2, 3) == "1";
    assert IndexOf("", "<", 0).None?;
    assert TrimLeft("1") == "1" && TrimRight("1") == "1";
  }

  // ----- the writing side -----

  /** One message as the runner writes it: three lines, after any other output. */
  datatype Message = Message(noise: string, json: string)

  function Written(m: Markers, msg: Message): string {
    msg.noise + m.start + "\n" + msg.json + "\n" + m.end + "\n"
  }

  function WrittenAll(m: Markers, msgs: seq<Message>): string {
    if msgs == [] then "" else Written(m, msgs[0]) + WrittenAll(m, msgs[1..])
  }

  /** Markers are one line each, the end marker does not begin with white space and
      is no part of the start marker. */
  predicate GoodMarkers(m: Markers) {
    && m.start != "" && m.end != ""
    && '\n' !in m.start && '\n' !in m.end
    && !Contains(m.start, m.end) && !IsSpace(m.end[0])
  }

  /** Foreign output stays on lines of its own and prints no start marker. */
  predicate GoodNoise(m: Markers, msg: Message) {
    && (msg.noise == "" || msg.noise[|msg.noise| - 1] == '\n')
    && !Contains(msg.noise, m.start)
  }

  /** A one-line pattern cannot straddle a newline: an occurrence in
      `a` + newline + `b` that starts in `a` or on the newline lies in `a`. */
  lemma LinePattern(a: string, b: string, p: string, j: int)
    requires p != "" && '\n' !in p
    requires OccursAt(a + "\n" + b, p, j) && j <= |a|
    ensures OccursAt(a, p, j)
  {
    var s := a + "\n" + b;
    assert p == s[j..j + |p|];
    assert forall k :: j <= k < j + |p| ==> s[k] == p[k - j];
    assert s[|a|] == '\n';
    assert s[j..j + |p|] == a[j..j + |p|];
  }

  /** A line without the pattern delays its first occurrence by one line. */
  lemma FirstAfterLine(a: string, z: string, p: string, k: nat)
    requires p != "" && '\n' !in p && !Contains(a, p)
    requires IsFirst(z, p, 0, k)
    ensures IsFirst(a + "\n" + z, p, 0, |a| + 1 + k)
  {
    OccursShifted(a + "\n", z, p, k);
    forall j | 0 <= j < |a| + 1 + k ensures !OccursAt(a + "\n" + z, p, j) {
      if j > |a| {
        OccursShifted(a + "\n", z, p, j - |a| - 1);
      } else if OccursAt(a + "\n" + z, p, j) {
        LinePattern(a, z, p, j);
      }
    }
  }

  /** What a message puts behind its noise. */
  function Framed(m: Markers, msg: Message, more: string): string {
    m.start + "\n" + (msg.json + "\n" + (m.end + "\n" + more))
  }

  lemma WrittenIsNoiseAndFrame(m: Markers, msg: Message, more: string)
    ensures Written(m, msg) + more == msg.noise + Framed(m, msg, more)
  {
  }

  /** The start marker is first seen where the noise ends. */
  lemma StartIsAfterNoise(m: Markers, msg: Message, more: string)
    requires GoodMarkers(m) && GoodNoise(m, msg)
    ensures IndexOf(Written(m, msg) + more, m.start, 0) == Some(|msg.noise|)
  {
    hide IndexOf;
    WrittenIsNoiseAndFrame(m, msg, more);
    var n, x := msg.noise, Framed(m, msg, more);
    assert IsFirst(x, m.start, 0, 0) by {
      assert x[..|m.start|] == m.start;
    }
    hide Written, Framed;
    if n == "" {
      assert n + x == x;
    } else {
      var head := n[..|n| - 1];
      assert n == head + "\n";
      assert !Contains(head, m.start) by {
        forall i | 0 <= i <= |head| ensures !OccursAt(head, m.start, i) {
          OccursInExtension(head, "\n", m.start, i);
        }
      }
      FirstAfterLine(head, x, m.start, 0);
    }
    IndexOfIs(n + x, m.start, 0, |n|);
  }

  /** Where in the frame the end marker is first seen: in the payload if that
      contains it, else where the payload's line ends. */
  function EndAt(m: Markers, msg: Message): nat {
    match IndexOf(msg.json, m.end, 0)
    case Some(k) => |m.start| + 1 + k
    case None => |m.start| + 1 + |msg.json| + 1
  }

  lemma EndInPayload(m: Markers, msg: Message, more: string, k: nat)
    requires GoodMarkers(m) && IndexOf(msg.json, m.end, 0) == Some(k)
    ensures IsFirst(Framed(m, msg, more), m.end, 0, |m.start| + 1 + k)
  {
    var behind := "\n" + (m.end + "\n" + more);
    IndexOfExtension(msg.json, behind, m.end, 0);
    hide IndexOf, Contains;
    assert msg.json + "\n" + (m.end + "\n" + more) == msg.json + behind;
    FirstAfterLine(m.start, msg.json + behind, m.end, k);
  }

  lemma EndBehindPayload(m: Markers, msg: Message, more: string)
    requires GoodMarkers(m) && !Contains(msg.json, m.end)
    ensures IsFirst(Framed(m, msg, more), m.end, 0, |m.start| + 1 + |msg.json| + 1)
  {
    hide Contains;
    var z := m.end + "\n" + more;
    assert IsFirst(z, m.end, 0, 0) by {
      assert z[..|m.end|] == m.end;
    }
    FirstAfterLine(msg.json, z, m.end, 0);
    FirstAfterLine(m.start, msg.json + "\n" + z, m.end, |msg.json| + 1);
  }

  lemma EndOfFrame(m: Markers, msg: Message, more: string)
    requires GoodMarkers(m)
    ensures IsFirst(Framed(m, msg, more), m.end, 0, EndAt(m, msg))
  {
    var inPayload := IndexOf(msg.json, m.end, 0);
    hide IsFirst, Framed, GoodMarkers, OccursAt;
    if inPayload.Some? {
      EndInPayload(m, msg, more, inPayload.value);
    } else {
      EndBehindPayload(m, msg, more);
    }
  }

  lemma EndIsSeen(m: Markers, msg: Message, more: string)
    requires GoodMarkers(m)
    ensures IndexOf(Written(m, msg) + more, m.end, |msg.noise|) == Some(|msg.noise| + EndAt(m, msg))
  {
    hide *;
    WrittenIsNoiseAndFrame(m, msg, more);
    EndOfFrame(m, msg, more);
    IndexOfIs(Framed(m, msg, more), m.end, 0, EndAt(m, msg));
    IndexOfShifted(msg.noise, Framed(m, msg, more), m.end, 0);
  }

  /** Round trip of one message, whatever follows it. */
  lemma ParseWritten(m: Markers, msg: Message, more: string)
    requires GoodMarkers(m) && GoodNoise(m, msg) && !Contains(msg.json, m.end)
    ensures NextFrame(m, Written(m, msg) + more) == Some(Cut(Trim(msg.json), "\n" + more))
  {
    hide IndexOf, Trim;
    var s := Written(m, msg) + more;
    StartIsAfterNoise(m, msg, more);
    EndIsSeen(m, msg, more);
    var lo := |msg.noise| + |m.start|;
    var e := lo + 1 + |msg.json| + 1;
    assert Slice(s, lo, e) == "\n" + msg.json + "\n";
    TrimNewlines(msg.json);
    assert s[e + |m.end|..] == "\n" + more;
  }

  /** A payload that contains the end marker is cut off there. */
  lemma ParseBroken(m: Markers, msg: Message, more: string)
    requires GoodMarkers(m) && GoodNoise(m, msg) && Contains(msg.json, m.end)
    ensures var k := IndexOf(msg.json, m.end, 0);
            var frame := NextFrame(m, Written(m, msg) + more);
            && k.Some? && frame.Some? && frame.value.payload == Trim(msg.json[..k.value])
            && |frame.value.payload| < |Trim(msg.json)|
  {
    hide IndexOf, Trim;
    var s := Written(m, msg) + more;
    StartIsAfterNoise(m, msg, more);
    EndIsSeen(m, msg, more);
    var k := IndexOf(msg.json, m.end, 0).value;
    var lo := |msg.noise| + |m.start|;
    assert Slice(s, lo, lo + 1 + k) == "\n" + msg.json[..k];
    TrimNewlineBefore(msg.json[..k]);
    assert msg.json[k..k + |m.end|][0] == m.end[0];
    TrimShorter(msg.json, k);
  }

  function Payloads(msgs: seq<Message>): seq<string> {
    if msgs == [] then [] else [Trim(msgs[0].json)] + Payloads(msgs[1..])
  }

  /** No payload contains the end marker. */
  ghost predicate EndFree(m: Markers, msgs: seq<Message>) {
    forall i :: 0 <= i < |msgs| ==> !Contains(msgs[i].json, m.end)
  }

  lemma EndFreeStep(m: Markers, msgs: seq<Message>)
    requires msgs != []
    ensures EndFree(m, msgs) <==> !Contains(msgs[0].json, m.end) && EndFree(m, msgs[1..])
  {
    hide Contains;
    assert forall i :: 1 <= i < |msgs| ==> msgs[i] == msgs[1..][i - 1];
  }

  /** The first message of a stream is read back if it is free of the end marker. */
  lemma FirstWritten(m: Markers, msgs: seq<Message>)
    requires GoodMarkers(m) && msgs != [] && GoodNoise(m, msgs[0])
    ensures var read := Parse(m, WrittenAll(m, msgs)).payloads;
            if Contains(msgs[0].json, m.end) then read != [] && read[0] != Trim(msgs[0].json)
            else read == [Trim(msgs[0].json)] + Parse(m, WrittenAll(m, msgs[1..])).payloads
  {
    hide NextFrame, Written, Trim, Contains, GoodNoise, IndexOf;
    var more := WrittenAll(m, msgs[1..]);
    assert WrittenAll(m, msgs) == Written(m, msgs[0]) + more;
    if Contains(msgs[0].json, m.end) {
      ParseBroken(m, msgs[0], more);
    } else {
      ParseWritten(m, msgs[0], more);
      NewlineIsNoise(m, more);
    }
  }

  /** The payloads a reader gets from a stream of messages are the messages,
      nothing lost, nothing invented, in order, if and only if none of them
      contains the end marker, which is not escaped on writing. */
  lemma {:induction false} RoundTrip(m: Markers, msgs: seq<Message>)
    requires GoodMarkers(m) && forall i :: 0 <= i < |msgs| ==> GoodNoise(m, msgs[i])
    ensures Parse(m, WrittenAll(m, msgs)).payloads == Payloads(msgs) <==> EndFree(m, msgs)
  {
    hide GoodNoise;
    if msgs == [] {
      assert IndexOf("", m.start, 0).None?;
    } else {
      hide NextFrame, Written, Trim, Contains, EndFree, Parse, WrittenAll, Payloads, GoodMarkers;
      FirstWritten(m, msgs);
      EndFreeStep(m, msgs);
      PayloadsOf(msgs);
      RoundTrip(m, msgs[1..]);
      Cancel(Trim(msgs[0].json), Parse(m, WrittenAll(m, msgs[1..])).payloads, Payloads(msgs[1..]));
    }
  }

  lemma PayloadsOf(msgs: seq<Message>)
    requires msgs != []
    ensures Payloads(msgs) == [Trim(msgs[0].json)] + Payloads(msgs[1..])
  {
  }

  lemma Cancel(x: string, a: seq<string>, b: seq<string>)
    ensures [x] + a == [x] + b <==> a == b
  {
    if [x] + a == [x] + b {
      assert a == ([x] + a)[1..] && b == ([x] + b)[1..];
    }
  }

  /** A newline in front of a stream delays its first frame and no more. */
  lemma NewlineBeforeFrame(m: Markers, s: string)
    requires GoodMarkers(m)
    ensures NextFrame(m, "\n" + s) == NextFrame(m, s)
  {
    hide IndexOf, IsFirst, OccursAt, Trim, Slice;
    NewlineBeforeStart(m, s);
    var i := IndexOf(s, m.start, 0);
    if i.Some? {
      IndexOfShifted("\n", s, m.end, i.value);
      var e := IndexOf(s, m.end, i.value);
      if e.Some? {
        SliceShifted("\n", s, e.value + |m.end|, 0);
        SliceShifted("\n", s, i.value + |m.start|, e.value);
      }
    }
  }

  lemma NewlineBeforeStart(m: Markers, s: string)
    requires GoodMarkers(m)
    ensures IndexOf("\n" + s, m.start, 0)
            == match IndexOf(s, m.start, 0) case None => None case Some(i) => Some(1 + i)
  {
    hide IndexOf;
    var t := "\n" + s;
    assert !OccursAt(t, m.start, 0) by {
      assert m.start[0] in m.start;
      assert |m.start| <= |t| ==> t[0..|m.start|][0] == '\n';
    }
    IndexOfShifted("\n", s, m.start, 0);
    match IndexOf(s, m.start, 0)
    case None => assert IndexOf(t, m.start, 0).None?;
    case Some(i) => IndexOfIs(t, m.start, 0, i + 1);
  }

  lemma NewlineIsNoise(m: Markers, s: string)
    requires GoodMarkers(m)
    ensures Parse(m, "\n" + s).payloads == Parse(m, s).payloads
  {
    hide NextFrame;
    NewlineBeforeFrame(m, s);
  }

  lemma EndMarkerIsApart()
    ensures !Contains(OUTPUT_START_MARKER, OUTPUT_END_MARKER)
  {
    hide Contains;
    assert OUTPUT_END_MARKER[18] == 'N';
    AbsentCharacter(OUTPUT_START_MARKER, OUTPUT_END_MARKER, 18);
  }

  /** The markers of the protocol qualify. */
  lemma ProtocolMarkersAreGood()
    ensures GoodMarkers(Markers(OUTPUT_START_MARKER, OUTPUT_END_MARKER))
  {
    hide Contains;
    EndMarkerIsApart();
    assert OUTPUT_END_MARKER[0] == '-';
  }

  /** End to end: however the runner's output is chunked, the reader emits
      exactly the messages written, in order, unless one contains the end marker. */
  lemma StreamedMessagesArrive(msgs: seq<Message>, chunks: seq<string>)
    requires var m := Markers(OUTPUT_START_MARKER, OUTPUT_END_MARKER);
             && (forall i :: 0 <= i < |msgs| ==> GoodNoise(m, msgs[i]))
             && Concat(chunks) == WrittenAll(m, msgs)
    ensures FeedAll(Markers(OUTPUT_START_MARKER, OUTPUT_END_MARKER), chunks).payloads == Payloads(msgs)
            <==> EndFree(Markers(OUTPUT_START_MARKER, OUTPUT_END_MARKER), msgs)
  {
    hide GoodNoise;
    var m := Markers(OUTPUT_START_MARKER, OUTPUT_END_MARKER);
    ProtocolMarkersAreGood();
    ChunkInvariance(m, chunks);
    RoundTrip(m, msgs);
  }

  /** The closure state of the stdout handler. */
  class StdoutReader {
    const markers: Markers
    const maxOutput: nat     // AGENT_MAX_OUTPUT_SIZE
    const streaming: bool    // whether an `onOutput` callback was given
    var stdout: string
    var stdoutTruncated: bool
    var parseBuffer: string
    var emitted: seq<string>
    ghost var received: string  // everything that has arrived

    /** Capture is the first `maxOutput` characters of the stream. */
    ghost predicate Captured(stream: string)
      reads `stdout, `stdoutTruncated
    {
      && stdout == stream[..Min(|stream|, maxOutput)]
      && (stdoutTruncated <==> |stream| > maxOutput)
    }

    /** And what has been emitted is what a parse of the whole stream would
        have emitted. */
    ghost predicate Valid()
      reads this
    {
      && markers.end != ""
      && Captured(received)
      && (if streaming then Parse(markers, received) == Frames(emitted, parseBuffer)
          else emitted == [] && parseBuffer == "")
    }

    constructor (markers: Markers, maxOutput: nat, streaming: bool)
      requires markers.end != ""
      ensures Valid() && received == "" && this.markers == markers
      ensures this.maxOutput == maxOutput && this.streaming == streaming
    {
      this.markers, this.maxOutput, this.streaming := markers, maxOutput, streaming;
      stdout, stdoutTruncated, parseBuffer, emitted, received := "", false, "", [], "";
    }

    method OnData(chunk: string)
      requires Valid()
      modifies this
      ensures Valid() && received == old(received) + chunk
    {
      if streaming { ParseExtension(markers, received, chunk); }
      hide Parse;
      Capture(chunk, received);
      received := received + chunk;
      if !streaming { return; }
      parseBuffer := parseBuffer + chunk;
      DrainBuffer();
    }

    method Capture(chunk: string, ghost before: string)
      requires Captured(before)
      modifies `stdout, `stdoutTruncated
      ensures Captured(before + chunk)
    {
      if !stdoutTruncated {
        var remaining := maxOutput - |stdout|;
        if |chunk| > remaining {
          stdout := stdout + chunk[..remaining];
          stdoutTruncated := true;
        } else {
          stdout := stdout + chunk;
        }
      }
    }

    /** The handler's loop: emit every complete frame in the buffer. */
    method DrainBuffer()
      requires markers.end != ""
      modifies `parseBuffer, `emitted
      ensures Frames(emitted, parseBuffer) == Resume(markers, Frames(old(emitted), old(parseBuffer)))
    {
      hide IndexOf, IsFirst, OccursAt, Slice, Trim, Parse, Resume;
      while true
        invariant Resume(markers, Frames(old(emitted), old(parseBuffer))) ==
                    Resume(markers, Frames(emitted, parseBuffer))
        decreases |parseBuffer|
      {
        ResumeStep(markers, Frames(emitted, parseBuffer));
        var startIdx := IndexOf(parseBuffer, markers.start, 0);
        if startIdx.None? { break; }
        var endIdx := IndexOf(parseBuffer, markers.end, startIdx.value);
        if endIdx.None? { break; }
        var payload := Trim(Slice(parseBuffer, startIdx.value + |markers.start|, endIdx.value));
        parseBuffer := parseBuffer[endIdx.value + |markers.end|..];
        emitted := emitted + [payload];
      }
    }
  }
}
