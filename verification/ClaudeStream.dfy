/**
  The Anthropic adapter's stream loop (internal/provider/claude/adapter.go):
  a transducer from Anthropic events to the OpenAI stream format.
 */
module ClaudeStream {
  import opened Options
  import opened ChatTypes
  import opened Int64
  import opened OpenAIStream
  import opened StreamRoundTrip

  /** The fields parseEvent reads from a decoded event. */
  datatype Event = Event(kind: string, text: string, inputTokens: int64, outputTokens: int64)

  /** json.Unmarshal into a stream event. */
  type EventDecoder = string -> Option<Event>

  function ParseEvent(decode: EventDecoder, event: string, payload: string): (string, Usage) {
    match decode(payload)
    case None => ("", ZERO_USAGE)
    case Some(ev) =>
      var name := if event == "" then ev.kind else event;
      if name == "content_block_delta" then (ev.text, ZERO_USAGE)
      else if name == "message_start" then ("", Usage(ev.inputTokens, 0, 0))
      else if name == "message_delta" then ("", Usage(0, ev.outputTokens, 0))
      else ("", ZERO_USAGE)
  }

  /** Only positive counts replace what was seen before. */
  function Merge(seen: Usage, u: Usage): Usage {
    Usage(if u.prompt > 0 then u.prompt else seen.prompt, if u.completion > 0 then u.completion else seen.completion, seen.total)
  }

  /** The loop's state, and what it has sent while no write failed. */
  datatype Seen = Seen(event: string, usage: Usage, text: string, sent: string)

  const START := Seen("", ZERO_USAGE, "", "")

  function Heed(decode: EventDecoder, s: Seen, payload: string): Seen {
    var (text, u) := ParseEvent(decode, s.event, payload);
    s.(usage := Merge(s.usage, u), text := s.text + text, sent := s.sent + DeltaFrame(text))
  }

  function Absorb(decode: EventDecoder, s: Seen, line: string): Seen {
    var trimmed := TrimSpace(line);
    if "event:" <= trimmed then s.(event := TrimSpace(trimmed[6..]))
    else if "data:" <= trimmed then Heed(decode, s, TrimSpace(trimmed[5..]))
    else s
  }

  function AbsorbAll(decode: EventDecoder, s: Seen, lines: seq<string>): Seen
    decreases |lines|
  {
    if lines == [] then s else AbsorbAll(decode, Absorb(decode, s, lines[0]), lines[1..])
  }

  lemma {:induction false} AbsorbAppend(decode: EventDecoder, s: Seen, a: seq<string>, b: seq<string>)
    ensures AbsorbAll(decode, s, a + b) == AbsorbAll(decode, AbsorbAll(decode, s, a), b)
    decreases |a|
  {
    if a == [] {
      assert a + b == b;
    } else {
      assert (a + b)[1..] == a[1..] + b;
      AbsorbAppend(decode, Absorb(decode, s, a[0]), a[1..], b);
    }
  }

  lemma AbsorbOneMore(decode: EventDecoder, lines: seq<string>, n: nat)
    requires n < |lines|
    ensures AbsorbAll(decode, START, lines[..n + 1]) == Absorb(decode, AbsorbAll(decode, START, lines[..n]), lines[n])
  {
    hide Absorb;
    assert lines[..n + 1] == lines[..n] + [lines[n]];
    AbsorbAppend(decode, START, lines[..n], [lines[n]]);
    assert [lines[n]][1..] == [];
  }

  lemma AbsorbNone(decode: EventDecoder, lines: seq<string>)
    ensures AbsorbAll(decode, START, lines[..0]) == START
  {
  }

  /** What the adapter returns and, after a complete stream, sends last. */
  function Outcome(s: Seen): Usage {
    UsageOrEstimate(s.usage, s.text)
  }

  function Trailer(s: Seen): string {
    Frame(UsageJson(Outcome(s))) + Frame(DONE)
  }

  /** One line: the local state of the loop moves as Absorb says, and the delta goes to the client. */
  method TakeLine(decode: EventDecoder, line: string, event: string, usage: Usage, generated: string, w: Client, open: bool,
                  ghost s: Seen, ghost before: string)
    returns (event': string, usage': Usage, generated': string, stillOpen: bool)
    requires s.event == event && s.usage == usage && s.text == generated
    requires w.out <= before + s.sent && (open ==> w.out == before + s.sent)
    modifies w
    ensures var s' := Absorb(decode, s, line);
            && s'.event == event' && s'.usage == usage' && s'.text == generated'
            && w.out <= before + s'.sent && (stillOpen ==> w.out == before + s'.sent)
    ensures w.failures >= old(w.failures) && (open && w.failures == old(w.failures) ==> stillOpen)
  {
    hide TrimSpace, ParseEvent, DeltaFrame;
    event', usage', generated', stillOpen := event, usage, generated, open;
    var trimmed := TrimSpace(line);
    if "event:" <= trimmed {
      event' := TrimSpace(trimmed[6..]);
    } else if "data:" <= trimmed {
      var (text, u) := ParseEvent(decode, event, TrimSpace(trimmed[5..]));
      if u.prompt > 0 {
        usage' := usage'.(prompt := u.prompt);
      }
      if u.completion > 0 {
        usage' := usage'.(completion := u.completion);
      }
      EmptyFrame();
      if text != "" {
        generated' := generated' + text;
        if open {
          var failed := WriteOpenAIDelta(w, text);
          stillOpen := !failed;
        }
      }
      assert before + (s.sent + DeltaFrame(text)) == (before + s.sent) + DeltaFrame(text);
    }
  }

  lemma EmptyFrame()
    ensures DeltaFrame("") == ""
  {
  }

  /** sent is what there is when the end marker is written, which happens last whether or not the usage got through. */
  method WriteTrailer(w: Client, usage: Usage) returns (ghost sent: string)
    modifies w
    ensures old(w.out) <= sent <= old(w.out) + Frame(UsageJson(usage)) && sent <= w.out <= sent + Frame(DONE)
    ensures w.writes > old(w.writes) && (w.accepts(w.writes - 1) >= |Frame(DONE)| ==> w.out == sent + Frame(DONE))
    ensures w.failures >= old(w.failures) && old(w.out) <= w.out
    ensures w.failures == old(w.failures) ==> w.out == old(w.out) + (Frame(UsageJson(usage)) + Frame(DONE))
  {
    hide UsageJson, Frame;
    var usageFailed := WriteOpenAIUsage(w, usage);
    sent := w.out;
    var doneFailed := WriteOpenAIDone(w);
  }

  /**
    ChatStream after the upstream answered: the usage returned depends on the
    lines alone; while no write fails the client gets the deltas in order and,
    unless the read broke off, the usage and the end marker.
   */
  method ChatStream(decode: EventDecoder, input: seq<Read>, w: Client) returns (usage: Usage, failed: bool)
    modifies w
    ensures var s := AbsorbAll(decode, START, LinesOf(input)[..Consumed(input, 0)]);
            && usage == Outcome(s)
            && (failed <==> Consumed(input, 0) > 0 && input[Consumed(input, 0) - 1].end.Broken?)
            && (w.failures == old(w.failures) ==> w.out == old(w.out) + s.sent + if failed then "" else Trailer(s))
            && (w.out <= old(w.out) + s.sent || old(w.out) + s.sent <= w.out)
  {
    hide AbsorbAll, Absorb, UsageOrEstimate, LinesOf, UsageJson, Frame;
    var lines := LinesOf(input);
    AbsorbNone(decode, lines);
    var event, counted, generated, open, i := "", ZERO_USAGE, "", true, 0;
    failed := false;
    ghost var n, before, s := Consumed(input, 0), w.out, START;
    while i < |input|
      invariant 0 <= i <= |input| && !failed
      invariant Consumed(input, i) == n && (i > 0 ==> input[i - 1].end.More?)
      invariant s == AbsorbAll(decode, START, lines[..i])
      invariant s.event == event && s.usage == counted && s.text == generated
      invariant w.out <= before + s.sent && (open ==> w.out == before + s.sent)
      invariant w.failures >= old(w.failures) && (w.failures == old(w.failures) ==> open)
      decreases |input| - i
    {
      var read := input[i];
      event, counted, generated, open := TakeLine(decode, read.line, event, counted, generated, w, open, s, before);
      AbsorbOneMore(decode, lines, i);
      s := Absorb(decode, s, read.line);
      i := i + 1;
      if !read.end.More? {
        failed := read.end.Broken?;
        break;
      }
      if read.ctxDone {
        break;
      }
    }
    usage := UsageOrEstimate(counted, generated);
    if open && !failed {
      ghost var sent := WriteTrailer(w, usage);
    }
    assert (before + s.sent) + Trailer(s) == before + s.sent + Trailer(s);
  }
}
