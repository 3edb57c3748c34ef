/**
  What the adapter's stream means: its output read back, and its handling of
  event names against server-sent events (WHATWG HTML, section 9.2).
 */
module StreamMeaning {
  import opened Options
  import opened ChatTypes
  import opened Int64
  import opened OpenAIStream
  import opened StreamRoundTrip
  import opened ClaudeStream

  // ---- Reading the output back ----

  ghost predicate CountsSane(u: Usage) {
    0 <= u.prompt <= MAX_INT64 && 0 <= u.completion <= MAX_INT64 && u.total == 0
  }

  /** So far the reader has the adapter's text and no usage. */
  ghost predicate Mirrored(decode: Decoder, s: Seen) {
    WholeLines(s.sent) && ReadStream(decode, s.sent) == Got(s.text, ZERO_USAGE) && CountsSane(s.usage)
  }

  lemma AbsorbMirrored(decode: Decoder, events: EventDecoder, s: Seen, line: string)
    requires DecodesPrinted(decode) && Mirrored(decode, s)
    ensures Mirrored(decode, Absorb(events, s, line))
  {
    hide ReadStream, TrimSpace, DeltaFrame, WholeLines, DecodesPrinted;
    var trimmed := TrimSpace(line);
    if !("event:" <= trimmed) && "data:" <= trimmed {
      DeltaFrameIsRead(decode, s.sent, ParseEvent(events, s.event, TrimSpace(trimmed[5..])).0);
    }
  }

  lemma {:induction false} AllMirrored(decode: Decoder, events: EventDecoder, s: Seen, lines: seq<string>)
    requires DecodesPrinted(decode) && Mirrored(decode, s)
    ensures Mirrored(decode, AbsorbAll(events, s, lines))
    decreases |lines|
  {
    hide Mirrored, Absorb, DecodesPrinted;
    if lines != [] {
      AbsorbMirrored(decode, events, s, lines[0]);
      AllMirrored(decode, events, Absorb(events, s, lines[0]), lines[1..]);
    }
  }

  lemma Utf8Positive(s: string)
    ensures s != "" ==> ByteLength(s) > 0
  {
  }

  /** Settling the usage once more changes nothing. */
  lemma OutcomeSettles(u: Usage, text: string)
    requires CountsSane(u)
    ensures var o := UsageOrEstimate(u, text);
            UsageOrEstimate(if o.total > 0 || o.completion > 0 then o else ZERO_USAGE, text) == o
  {
    Utf8Positive(text);
    hide ByteLength;
  }

  /**
    Round trip: whatever the upstream sent, the emitted stream read by the
    repository's own line reader gives back exactly the text, and exactly the
    usage that ChatStream returned. A text's length in bytes fits 64 bits, as
    any string's does.
   */
  lemma OutputReadsBack(decode: Decoder, events: EventDecoder, lines: seq<string>)
    requires DecodesPrinted(decode) && ByteLength(AbsorbAll(events, START, lines).text) + 3 <= MAX_INT64
    ensures var s := AbsorbAll(events, START, lines);
            var g := ReadStream(decode, s.sent + Trailer(s));
            g.text == s.text && UsageOrEstimate(g.usage, g.text) == Outcome(s)
  {
    hide AbsorbAll, ReadStream, WholeLines, UsageOrEstimate, DecodesPrinted, Trailer;
    var s := AbsorbAll(events, START, lines);
    StartMirrored(decode);
    AllMirrored(decode, events, START, lines);
    OutcomeFits(s.usage, s.text);
    TrailerIsRead(decode, s);
    OutcomeSettles(s.usage, s.text);
  }

  lemma OutcomeFits(u: Usage, text: string)
    requires CountsSane(u) && ByteLength(text) + 3 <= MAX_INT64
    ensures Int64Usage(UsageOrEstimate(u, text))
  {
    hide ByteLength, WrapInt64;
  }

  lemma TrailerIsRead(decode: Decoder, s: Seen)
    requires DecodesPrinted(decode) && WholeLines(s.sent) && Int64Usage(Outcome(s))
    ensures var g, o := ReadStream(decode, s.sent), Outcome(s);
            ReadStream(decode, s.sent + Trailer(s)) == if o.total > 0 || o.completion > 0 then g.(usage := o) else g
  {
    hide ReadStream, Frame, UsageJson, WholeLines, UsageOrEstimate, DecodesPrinted, Int64Usage;
    var usage := Frame(UsageJson(Outcome(s)));
    UsageFrameIsRead(decode, s.sent, Outcome(s));
    DoneFrameIsRead(decode, s.sent + usage);
    assert s.sent + (usage + Frame(DONE)) == s.sent + usage + Frame(DONE);
  }

  lemma StartMirrored(decode: Decoder)
    ensures Mirrored(decode, START)
  {
  }

  // ---- Event names ----

  /** One event of the upstream stream: an event line, if any, one data line, and a blank line. */
  datatype SseFrame = SseFrame(name: Option<string>, payload: string)

  ghost predicate WellFormed(frames: seq<SseFrame>) {
    forall f :: f in frames ==> Solid(f.payload) && (f.name.Some? ==> f.name.value == "" || Solid(f.name.value))
  }

  function LinesOfFrame(f: SseFrame): seq<string> {
    (if f.name.Some? then ["event: " + f.name.value + "\n"] else []) + ["data: " + f.payload + "\n", "\n"]
  }

  function LinesOfFrames(frames: seq<SseFrame>, n: nat): seq<string>
    requires n <= |frames|
  {
    if n == 0 then [] else LinesOfFrames(frames, n - 1) + LinesOfFrame(frames[n - 1])
  }

  datatype Heard = Heard(usage: Usage, text: string)

  function Hear(events: EventDecoder, h: Heard, name: string, payload: string): Heard {
    var (text, u) := ParseEvent(events, name, payload);
    Heard(Merge(h.usage, u), h.text + text)
  }

  /** What the stream says: each event is known by the name on its own frame, or by its kind. */
  function Meant(events: EventDecoder, frames: seq<SseFrame>, n: nat): Heard
    requires n <= |frames|
  {
    if n == 0 then Heard(ZERO_USAGE, "") else
      var f := frames[n - 1];
      Hear(events, Meant(events, frames, n - 1), if f.name.Some? then f.name.value else "", f.payload)
  }

  /** The name in force once n frames are read: the last one given. */
  function Current(frames: seq<SseFrame>, n: nat): string
    requires n <= |frames|
  {
    if n == 0 then ""
    else if frames[n - 1].name.Some? then frames[n - 1].name.value
    else Current(frames, n - 1)
  }

  /** What the adapter hears: each event under the name in force. */
  function Heeded(events: EventDecoder, frames: seq<SseFrame>, n: nat): Heard
    requires n <= |frames|
  {
    if n == 0 then Heard(ZERO_USAGE, "")
    else Hear(events, Heeded(events, frames, n - 1), Current(frames, n), frames[n - 1].payload)
  }

  lemma AbsorbFrame(events: EventDecoder, s: Seen, f: SseFrame)
    requires Solid(f.payload) && (f.name.Some? ==> f.name.value == "" || Solid(f.name.value))
    ensures var name := if f.name.Some? then f.name.value else s.event;
            var s' := AbsorbAll(events, s, LinesOfFrame(f));
            s'.event == name && Heard(s'.usage, s'.text) == Hear(events, Heard(s.usage, s.text), name, f.payload)
  {
    var data, blank := "data: " + f.payload + "\n", "\n";
    var named := if f.name.Some? then s.(event := f.name.value) else s;
    if f.name.Some? {
      EventLine(events, s, f.name.value);
    }
    DataLine(events, named, f.payload);
    BlankLine(events, Heed(events, named, f.payload));
    hide Absorb, ParseEvent, DeltaFrame;
    assert [data, blank][1..] == [blank] && [blank][1..] == [];
    assert AbsorbAll(events, Heed(events, named, f.payload), [blank]) == AbsorbAll(events, Heed(events, named, f.payload), []);
    assert AbsorbAll(events, named, [data, blank]) == Heed(events, named, f.payload);
    if f.name.Some? {
      assert LinesOfFrame(f)[1..] == [data, blank];
    } else {
      assert LinesOfFrame(f) == [data, blank];
    }
  }

  lemma DataLine(events: EventDecoder, s: Seen, payload: string)
    requires Solid(payload)
    ensures Absorb(events, s, "data: " + payload + "\n") == Heed(events, s, payload)
  {
    var line := "data: " + payload;
    TrimAround("", line, "\n");
    TrimAround(" ", payload, "");
    assert "" + line + "\n" == "data: " + payload + "\n";
    assert line[0] == 'd' && line[5..] == " " + payload + "";
    hide TrimSpace, Heed;
  }

  lemma EventLine(events: EventDecoder, s: Seen, name: string)
    requires name == "" || Solid(name)
    ensures Absorb(events, s, "event: " + name + "\n") == s.(event := name)
  {
    hide TrimSpace, TrimLeft, TrimRight;
    if name == "" {
      TrimAround("", "event:", " \n");
      TrimAround("", "", "");
      assert "event: " + name + "\n" == "" + "event:" + " \n";
      assert "event:"[6..] == "" + "" + "";
    } else {
      var line := "event: " + name;
      assert line[|line| - 1] == name[|name| - 1];
      TrimAround("", line, "\n");
      TrimAround(" ", name, "");
      assert "event: " + name + "\n" == "" + line + "\n";
      assert line[..6] == "event:" && line[6..] == " " + name + "";
    }
  }

  lemma BlankLine(events: EventDecoder, s: Seen)
    ensures Absorb(events, s, "\n") == s
  {
    assert "\n"[1..] == "";
    assert TrimLeft("\n") == "";
    EmptyTrim();
  }

  /** The adapter hears every frame under the name in force. */
  lemma {:induction false} AdapterHeeds(events: EventDecoder, frames: seq<SseFrame>, n: nat)
    requires n <= |frames| && WellFormed(frames)
    ensures var s := AbsorbAll(events, START, LinesOfFrames(frames, n));
            s.event == Current(frames, n) && Heard(s.usage, s.text) == Heeded(events, frames, n)
  {
    hide AbsorbAll, LinesOfFrame, Hear, Solid;
    if n == 0 {
      AbsorbNone(events, []);
    } else {
      var earlier, f := LinesOfFrames(frames, n - 1), frames[n - 1];
      AdapterHeeds(events, frames, n - 1);
      AbsorbAppend(events, START, earlier, LinesOfFrame(f));
      assert f in frames;
      AbsorbFrame(events, AbsorbAll(events, START, earlier), f);
    }
  }

  /** No frame without a name follows one with a name. */
  ghost predicate NoStaleName(frames: seq<SseFrame>) {
    forall i :: 0 <= i < |frames| && frames[i].name.None? ==> Current(frames, i) == ""
  }

  lemma {:induction false} HeededIsMeant(events: EventDecoder, frames: seq<SseFrame>, n: nat)
    requires n <= |frames| && NoStaleName(frames)
    ensures Heeded(events, frames, n) == Meant(events, frames, n)
  {
    hide Hear, NoStaleName;
    if n > 0 {
      HeededIsMeant(events, frames, n - 1);
      NotStale(frames, n - 1);
    }
  }

  lemma NotStale(frames: seq<SseFrame>, i: nat)
    requires i < |frames| && NoStaleName(frames)
    ensures frames[i].name.None? ==> Current(frames, i) == ""
  {
    hide Current;
  }

  // ---- Decoders that tell a stale name apart ----

  /** Every payload is an event of this kind with text x. */
  function Always(kind: string): EventDecoder {
    payload => Some(Event(kind, "x", 0, 0))
  }

  const DELTA := "content_block_delta"

  /** Whether an event of the given kind under this name adds text. */
  function Adds(name: string, kind: string): nat {
    if name == DELTA || (name == "" && kind == DELTA) then 1 else 0
  }

  lemma HearAlways(kind: string, h: Heard, name: string, payload: string)
    ensures |Hear(Always(kind), h, name, payload).text| == |h.text| + Adds(name, kind)
  {
  }

  lemma {:induction false} StaleOtherName(frames: seq<SseFrame>, i: nat, n: nat)
    requires n <= |frames| && i < |frames| && frames[i].name.None? && Current(frames, i) != "" && Current(frames, i) != DELTA
    ensures var heeded, meant := Heeded(Always(DELTA), frames, n).text, Meant(Always(DELTA), frames, n).text;
            |heeded| + (if i < n then 1 else 0) <= |meant|
  {
    hide Hear, Always;
    if n > 0 {
      StaleOtherName(frames, i, n - 1);
      var f := frames[n - 1];
      HearAlways(DELTA, Heeded(Always(DELTA), frames, n - 1), Current(frames, n), f.payload);
      HearAlways(DELTA, Meant(Always(DELTA), frames, n - 1), if f.name.Some? then f.name.value else "", f.payload);
    }
  }

  lemma {:induction false} StaleDeltaName(frames: seq<SseFrame>, i: nat, n: nat)
    requires n <= |frames| && i < |frames| && frames[i].name.None? && Current(frames, i) == DELTA
    ensures var heeded, meant := Heeded(Always("ping"), frames, n).text, Meant(Always("ping"), frames, n).text;
            |heeded| >= |meant| + if i < n then 1 else 0
  {
    hide Hear, Always;
    if n > 0 {
      StaleDeltaName(frames, i, n - 1);
      var f := frames[n - 1];
      HearAlways("ping", Heeded(Always("ping"), frames, n - 1), Current(frames, n), f.payload);
      HearAlways("ping", Meant(Always("ping"), frames, n - 1), if f.name.Some? then f.name.value else "", f.payload);
    }
  }

  /** The adapter takes every event for what it is, whatever the events hold, exactly when no name goes stale. */
  lemma MeansWhatItSaysIffNoStaleName(frames: seq<SseFrame>)
    ensures (forall events: EventDecoder :: Heeded(events, frames, |frames|) == Meant(events, frames, |frames|))
            <==> NoStaleName(frames)
  {
    if NoStaleName(frames) {
      forall events: EventDecoder ensures Heeded(events, frames, |frames|) == Meant(events, frames, |frames|) {
        HeededIsMeant(events, frames, |frames|);
      }
    } else {
      var i :| 0 <= i < |frames| && frames[i].name.None? && Current(frames, i) != "";
      if Current(frames, i) == DELTA {
        StaleDeltaName(frames, i, |frames|);
        assert Heeded(Always("ping"), frames, |frames|) != Meant(Always("ping"), frames, |frames|);
      } else {
        StaleOtherName(frames, i, |frames|);
        assert Heeded(Always(DELTA), frames, |frames|) != Meant(Always(DELTA), frames, |frames|);
      }
    }
  }

  // ---- The meaning in terms of the wire ----

  /** The frame decodes to an event of this kind, by its own name or else by the type it carries. */
  predicate IsKind(events: EventDecoder, f: SseFrame, kind: string) {
    match events(f.payload)
    case None => false
    case Some(ev) => (if f.name.Some? && f.name.value != "" then f.name.value else ev.kind) == kind
  }

  /** The concatenated delta texts. */
  function DeltaTexts(events: EventDecoder, frames: seq<SseFrame>, n: nat): string
    requires n <= |frames|
  {
    if n == 0 then ""
    else DeltaTexts(events, frames, n - 1) + if IsKind(events, frames[n - 1], DELTA) then events(frames[n - 1].payload).value.text else ""
  }

  /** The last positive input count of a message_start, or zero. */
  function InputCount(events: EventDecoder, frames: seq<SseFrame>, n: nat): int
    requires n <= |frames|
  {
    if n == 0 then 0
    else if IsKind(events, frames[n - 1], "message_start") && events(frames[n - 1].payload).value.inputTokens > 0
    then events(frames[n - 1].payload).value.inputTokens
    else InputCount(events, frames, n - 1)
  }

  /** The last positive output count of a message_delta, or zero. */
  function OutputCount(events: EventDecoder, frames: seq<SseFrame>, n: nat): int
    requires n <= |frames|
  {
    if n == 0 then 0
    else if IsKind(events, frames[n - 1], "message_delta") && events(frames[n - 1].payload).value.outputTokens > 0
    then events(frames[n - 1].payload).value.outputTokens
    else OutputCount(events, frames, n - 1)
  }

  function Said(events: EventDecoder, frames: seq<SseFrame>, n: nat): Heard
    requires n <= |frames|
  {
    Heard(Usage(InputCount(events, frames, n), OutputCount(events, frames, n), 0), DeltaTexts(events, frames, n))
  }

  lemma {:induction false} MeantIsSaid(events: EventDecoder, frames: seq<SseFrame>, n: nat)
    requires n <= |frames|
    ensures Meant(events, frames, n) == Said(events, frames, n)
  {
    if n > 0 {
      MeantIsSaid(events, frames, n - 1);
    }
  }

  /**
    With no stale name, reading the adapter's output back gives the
    concatenated delta texts and the counts the events carry.
   */
  lemma NamedFramesAreTranslated(decode: Decoder, events: EventDecoder, frames: seq<SseFrame>)
    requires DecodesPrinted(decode) && WellFormed(frames) && NoStaleName(frames)
    requires ByteLength(Said(events, frames, |frames|).text) + 3 <= MAX_INT64
    ensures var s := AbsorbAll(events, START, LinesOfFrames(frames, |frames|));
            var said := Said(events, frames, |frames|);
            var g := ReadStream(decode, s.sent + Trailer(s));
            && g.text == said.text
            && Outcome(s) == UsageOrEstimate(said.usage, said.text)
            && UsageOrEstimate(g.usage, g.text) == Outcome(s)
  {
    hide AbsorbAll, UsageOrEstimate, ByteLength, ReadStream, Trailer, Heeded, Meant, Said, LinesOfFrames, WellFormed, NoStaleName, DecodesPrinted;
    AdapterHeeds(events, frames, |frames|);
    HeededIsMeant(events, frames, |frames|);
    MeantIsSaid(events, frames, |frames|);
    OutputReadsBack(decode, events, LinesOfFrames(frames, |frames|));
  }
}
