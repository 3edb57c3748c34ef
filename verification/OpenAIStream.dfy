/**
  The OpenAI chat stream format (internal/provider/openaicompat/compat.go):
  its line reader, its writers, and the proxy loop that copies one stream.
 */
module OpenAIStream {
  import opened Options
  import opened ChatTypes
  import opened Int64
  import opened JsonValues
  import Utf8

  const ZERO_USAGE := Usage(0, 0, 0)

  // ---- White space and lines ----

  /** White space as Unicode defines it. */
  predicate IsSpace(c: char) {
    var n := c as int;
    9 <= n <= 13 || n == 0x20 || n == 0x85 || n == 0xA0 || n == 0x1680 || 0x2000 <= n <= 0x200A
    || n == 0x2028 || n == 0x2029 || n == 0x202F || n == 0x205F || n == 0x3000
  }

  function TrimLeft(s: string): string {
    if s != "" && IsSpace(s[0]) then TrimLeft(s[1..]) else s
  }

  function TrimRight(s: string): string {
    if s != "" && IsSpace(s[|s| - 1]) then TrimRight(s[..|s| - 1]) else s
  }

  function TrimSpace(s: string): string {
    TrimRight(TrimLeft(s))
  }

  /** A text with no white space at its ends. */
  predicate Solid(s: string) {
    s != "" && !IsSpace(s[0]) && !IsSpace(s[|s| - 1])
  }

  ghost predicate Blank(s: string) {
    forall c :: c in s ==> IsSpace(c)
  }

  lemma {:induction false} TrimLeftBlank(a: string, s: string)
    requires Blank(a)
    ensures TrimLeft(a + s) == TrimLeft(s)
  {
    if a == "" {
      assert a + s == s;
    } else {
      assert (a + s)[1..] == a[1..] + s && a[0] in a;
      TrimLeftBlank(a[1..], s);
    }
  }

  lemma {:induction false} TrimRightBlank(s: string, b: string)
    requires Blank(b)
    ensures TrimRight(s + b) == TrimRight(s)
  {
    if b == "" {
      assert s + b == s;
    } else {
      assert (s + b)[..|s + b| - 1] == s + b[..|b| - 1] && b[|b| - 1] in b;
      TrimRightBlank(s, b[..|b| - 1]);
    }
  }

  /** White space around a text is trimmed, and nothing else. */
  lemma TrimAround(a: string, s: string, b: string)
    requires Blank(a) && Blank(b) && (s == "" || Solid(s))
    ensures TrimSpace(a + s + b) == s
  {
    assert a + s + b == a + (s + b);
    TrimLeftBlank(a, s + b);
    if s == "" {
      assert s + b == b + "" && TrimLeft("") == "" && TrimRight("") == "";
      TrimLeftBlank(b, "");
    } else {
      assert TrimLeft(s + b) == s + b;
      TrimRightBlank(s, b);
    }
  }

  /** The position of the first line feed, or the length. */
  function LineEnd(s: string): (k: nat)
    ensures k <= |s|
    ensures k < |s| ==> s[k] == '\n'
    ensures forall i :: 0 <= i < k ==> s[i] != '\n'
  {
    if s == "" || s[0] == '\n' then 0 else 1 + LineEnd(s[1..])
  }

  /** The lines of a stream, each with its line feed, the last one perhaps without. */
  function SplitLines(s: string): seq<string>
    decreases |s|
  {
    if s == "" then [] else
      var (line, rest) := CutLine(s);
      [line] + SplitLines(rest)
  }

  function CutLine(s: string): (r: (string, string))
    requires s != ""
    ensures |r.1| < |s|
  {
    var k := LineEnd(s);
    if k == |s| then (s, "") else (s[..k + 1], s[k + 1..])
  }

  predicate WholeLines(s: string) {
    s == "" || s[|s| - 1] == '\n'
  }

  lemma {:induction false} SplitAppend(a: string, b: string)
    requires WholeLines(a)
    ensures SplitLines(a + b) == SplitLines(a) + SplitLines(b)
    decreases |a|
  {
    hide CutLine, WholeLines;
    if a == "" {
      assert a + b == b;
    } else {
      var (line, rest) := CutLine(a);
      CutAppend(a, b);
      SplitAppend(rest, b);
      assert [line] + (SplitLines(rest) + SplitLines(b)) == ([line] + SplitLines(rest)) + SplitLines(b);
    }
  }

  lemma CutAppend(a: string, b: string)
    requires a != "" && WholeLines(a)
    ensures CutLine(a + b) == (CutLine(a).0, CutLine(a).1 + b) && WholeLines(CutLine(a).1)
  {
    var whole, k := a + b, LineEnd(a);
    assert forall i :: 0 <= i < |a| ==> whole[i] == a[i];
    assert a[|a| - 1] == '\n';
    assert LineEnd(whole) == k;
    assert whole[..k + 1] == a[..k + 1] && whole[k + 1..] == a[k + 1..] + b;
  }

  lemma SplitOne(line: string)
    requires '\n' !in line
    ensures SplitLines(line + "\n") == [line + "\n"]
  {
    var s := line + "\n";
    assert forall i :: 0 <= i < |line| ==> s[i] == line[i];
    assert s[|line|] == '\n';
    assert LineEnd(s) == |line|;
    assert s[..|line| + 1] == s && s[|line| + 1..] == "";
  }

  // ---- The reader ----

  /** The text fields of one choice of a chunk. */
  datatype Choice = Choice(delta: string, text: string, message: string)

  datatype Chunk = Chunk(choices: seq<Choice>, usage: Usage)

  /** json.Unmarshal into a stream chunk. */
  type Decoder = string -> Option<Chunk>

  function Contents(choices: seq<Choice>): string {
    if choices == [] then "" else choices[0].delta + choices[0].text + choices[0].message + Contents(choices[1..])
  }

  /** Every choice adds its delta, its text and its message, in this order. */
  lemma {:induction false} ContentsAppend(choices: seq<Choice>, c: Choice)
    ensures Contents(choices + [c]) == Contents(choices) + (c.delta + c.text + c.message)
  {
    var own := c.delta + c.text + c.message;
    if choices == [] {
      assert [c][1..] == [];
      assert choices + [c] == [c];
      assert own + "" == own == "" + own;
    } else {
      var first, rest := choices[0].delta + choices[0].text + choices[0].message, choices[1..];
      assert (choices + [c])[1..] == rest + [c] && (choices + [c])[0] == choices[0];
      ContentsAppend(rest, c);
      Associate(first, Contents(rest), own);
    }
  }

  lemma Associate(a: string, b: string, c: string)
    ensures a + (b + c) == (a + b) + c
  {
  }

  datatype Got = Got(text: string, usage: Usage)

  const DONE := "[DONE]"

  /** A payload that is not JSON, or not of this shape, is passed over. */
  function ReadPayload(decode: Decoder, g: Got, payload: string): Got {
    if payload == "" || payload == DONE then g
    else
      match decode(payload)
      case None => g
      case Some(chunk) =>
        Got(g.text + Contents(chunk.choices), if chunk.usage.total > 0 || chunk.usage.completion > 0 then chunk.usage else g.usage)
  }

  function ReadLine(decode: Decoder, g: Got, line: string): Got {
    var trimmed := TrimSpace(line);
    ReadPayload(decode, g, TrimSpace(if "data:" <= trimmed then trimmed[5..] else trimmed))
  }

  function ReadLines(decode: Decoder, g: Got, lines: seq<string>): Got
    decreases |lines|
  {
    if lines == [] then g else ReadLines(decode, ReadLine(decode, g, lines[0]), lines[1..])
  }

  /** What the line reader makes of a whole stream. */
  function ReadStream(decode: Decoder, s: string): Got {
    ReadLines(decode, Got("", ZERO_USAGE), SplitLines(s))
  }

  lemma {:induction false} ReadAppend(decode: Decoder, g: Got, a: seq<string>, b: seq<string>)
    ensures ReadLines(decode, g, a + b) == ReadLines(decode, ReadLines(decode, g, a), b)
    decreases |a|
  {
    if a == [] {
      assert a + b == b;
    } else {
      assert (a + b)[1..] == a[1..] + b;
      ReadAppend(decode, ReadLine(decode, g, a[0]), a[1..], b);
    }
  }

  lemma {:induction false} ReadOneMore(decode: Decoder, g: Got, lines: seq<string>, n: nat)
    requires n < |lines|
    ensures ReadLines(decode, g, lines[..n + 1]) == ReadLine(decode, ReadLines(decode, g, lines[..n]), lines[n])
  {
    assert lines[..n + 1] == lines[..n] + [lines[n]];
    ReadAppend(decode, g, lines[..n], [lines[n]]);
    assert [lines[n]][1..] == [];
  }

  lemma EmptyTrim()
    ensures TrimSpace("") == "" && !("data:" <= "")
  {
  }

  /**
    A payload is read the same with or without the field name before it, with
    or without a space after the name, and whichever way its line ends; without
    the name it must not itself begin with one.
   */
  lemma LineForms(decode: Decoder, g: Got, name: string, payload: string, eol: string)
    requires Solid(payload) && (name == "" ==> !("data:" <= payload))
    requires name in {"", "data:", "data: "} && eol in {"", "\n", "\r\n"}
    ensures ReadLine(decode, g, name + payload + eol) == ReadPayload(decode, g, payload)
  {
    hide ReadPayload, TrimSpace, TrimLeft, TrimRight;
    NamedIsSolid(name, payload);
    AfterName(name, payload);
    TrimAround("", name + payload, eol);
    assert "" + (name + payload) + eol == name + payload + eol;
  }

  lemma NamedIsSolid(name: string, payload: string)
    requires Solid(payload) && name in {"", "data:", "data: "}
    ensures Solid(name + payload)
  {
    var line := name + payload;
    assert line[|line| - 1] == payload[|payload| - 1];
    assert line[0] == if name == "" then payload[0] else 'd';
  }

  /** What is left of a trimmed line once the field name is cut off and the rest trimmed. */
  lemma AfterName(name: string, payload: string)
    requires Solid(payload) && (name == "" ==> !("data:" <= payload)) && name in {"", "data:", "data: "}
    ensures TrimSpace(if "data:" <= name + payload then (name + payload)[5..] else name + payload) == payload
  {
    var space := if name == "data: " then " " else "";
    assert Blank(space);
    hide TrimSpace, TrimLeft, TrimRight, Solid, IsSpace, Blank;
    TrimAround(space, payload, "");
    assert space + payload + "" == space + payload;
    if name == "" {
      assert name + payload == payload;
    } else {
      AfterField(space, payload);
      assert name + payload == "data:" + space + payload;
    }
  }

  lemma AfterField(space: string, payload: string)
    ensures var line := "data:" + space + payload; "data:" <= line && line[5..] == space + payload
  {
    var line := "data:" + space + payload;
    assert line == "data:" + (space + payload);
  }

  class Reader {
    var generated: string
    var usage: Usage

    constructor ()
      ensures generated == "" && usage == ZERO_USAGE
    {
      generated, usage := "", ZERO_USAGE;
    }

    method ParseSSELine(decode: Decoder, line: string)
      modifies this
      ensures Got(generated, usage) == ReadLine(decode, old(Got(generated, usage)), line)
    {
      hide TrimSpace, Contents;
      var trimmed := TrimSpace(line);
      if trimmed == "" {
        EmptyTrim();
        return;
      }
      var payload := trimmed;
      if "data:" <= trimmed {
        payload := trimmed[5..];
      }
      payload := TrimSpace(payload);
      if payload == "" || payload == DONE {
        return;
      }
      var chunk := decode(payload);
      if chunk.None? {
        return;
      }
      TakeChunk(chunk.value);
    }

    method TakeChunk(chunk: Chunk)
      modifies this
      ensures generated == old(generated) + Contents(chunk.choices)
      ensures usage == if chunk.usage.total > 0 || chunk.usage.completion > 0 then chunk.usage else old(usage)
    {
      var choices := chunk.choices;
      for i := 0 to |choices|
        invariant generated + Contents(choices[i..]) == old(generated) + Contents(choices)
        invariant usage == old(usage)
      {
        assert choices[i..][1..] == choices[i + 1..];
        generated := generated + choices[i].delta + choices[i].text + choices[i].message;
      }
      if chunk.usage.total > 0 || chunk.usage.completion > 0 {
        usage := chunk.usage;
      }
    }
  }

  /** The length of a text in bytes. */
  function ByteLength(s: string): (n: nat)
    ensures s != "" ==> n > 0
  {
    |Utf8.Encode(s)|
  }

  /** A reported total stands; otherwise the parts are summed, the completion estimated when it is missing. */
  function UsageOrEstimate(u: Usage, generated: string): Usage {
    if u.total > 0 then u
    else
      var completion := if u.completion == 0 && generated != "" then (ByteLength(generated) + 3) / 4 else u.completion;
      Usage(u.prompt, completion, WrapInt64(u.prompt + completion))
  }

  /**
    Usage with a total is kept as reported, whatever its parts. Without one a
    missing completion count is the least number of tokens that covers the
    text at four bytes each, and the total is the sum of the parts.
   */
  lemma EstimateCoversText(u: Usage, text: string)
    ensures var r, bytes := UsageOrEstimate(u, text), |Utf8.Encode(text)|;
            && r.prompt == u.prompt
            && (u.total > 0 ==> r == u)
            && (u.total <= 0 ==> r.total == WrapInt64(r.prompt + r.completion))
            && (u.total <= 0 && u.completion == 0 ==> bytes <= 4 * r.completion < bytes + 4)
            && (u.completion != 0 ==> r.completion == u.completion)
  {
    hide WrapInt64;
    if text == "" {
      assert |Utf8.Encode(text)| == 0;
    }
  }

  // ---- The writers ----

  /**
    The client side of a response. The i-th write passes accepts(i) characters
    at most, and fails when that is not all of it.
   */
  class Client {
    const accepts: nat -> nat
    var writes: nat
    var failures: nat
    var out: string

    constructor (accepts: nat -> nat)
      ensures this.accepts == accepts && writes == 0 && failures == 0 && out == ""
    {
      this.accepts := accepts;
      writes, failures, out := 0, 0, "";
    }

    method Write(s: string) returns (failed: bool)
      modifies this
      ensures writes == old(writes) + 1 && (failed <==> accepts(old(writes)) < |s|)
      ensures failures == old(failures) + if failed then 1 else 0
      ensures !failed ==> out == old(out) + s
      ensures old(out) <= out <= old(out) + s
    {
      var n := accepts(writes);
      writes := writes + 1;
      if n < |s| {
        out, failures := out + s[..n], failures + 1;
        return true;
      }
      out := out + s;
      return false;
    }
  }

  function DeltaValue(text: string): Value {
    Obj(Member("choices", Arr(Item(Obj(Member("delta", Obj(Member("content", Str(text), NoMembers)), NoMembers)), NoItems)), NoMembers))
  }

  function DeltaJson(text: string): string {
    Print(DeltaValue(text))
  }

  function UsageValue(u: Usage): Value {
    Obj(Member("usage",
               Obj(Member("prompt_tokens", Num(u.prompt),
                   Member("completion_tokens", Num(u.completion),
                   Member("total_tokens", Num(u.total), NoMembers)))),
               NoMembers))
  }

  function UsageJson(u: Usage): string {
    Print(UsageValue(u))
  }

  function Frame(payload: string): string {
    "data: " + payload + "\n\n"
  }

  function DeltaFrame(text: string): string {
    if text == "" then "" else Frame(DeltaJson(text))
  }

  method WriteFrame(w: Client, payload: string) returns (failed: bool)
    modifies w
    ensures w.failures >= old(w.failures) && (failed <==> w.failures > old(w.failures)) && w.writes >= old(w.writes)
    ensures !failed ==> w.out == old(w.out) + Frame(payload)
    ensures old(w.out) <= w.out <= old(w.out) + Frame(payload)
  {
    failed := w.Write("data: ");
    if failed {
      return;
    }
    failed := w.Write(payload);
    if failed {
      return;
    }
    failed := w.Write("\n\n");
  }

  method WriteOpenAIDelta(w: Client, text: string) returns (failed: bool)
    modifies w
    ensures w.failures >= old(w.failures) && (failed <==> w.failures > old(w.failures)) && w.writes >= old(w.writes)
    ensures !failed ==> w.out == old(w.out) + DeltaFrame(text)
    ensures old(w.out) <= w.out <= old(w.out) + DeltaFrame(text)
  {
    if text == "" {
      return false;
    }
    failed := WriteFrame(w, DeltaJson(text));
  }

  method WriteOpenAIUsage(w: Client, usage: Usage) returns (failed: bool)
    modifies w
    ensures w.failures >= old(w.failures) && (failed <==> w.failures > old(w.failures)) && w.writes >= old(w.writes)
    ensures !failed ==> w.out == old(w.out) + Frame(UsageJson(usage))
    ensures old(w.out) <= w.out <= old(w.out) + Frame(UsageJson(usage))
  {
    failed := WriteFrame(w, UsageJson(usage));
  }

  method WriteOpenAIDone(w: Client) returns (failed: bool)
    modifies w
    ensures w.failures >= old(w.failures) && (failed <==> w.failures > old(w.failures))
    ensures Frame(DONE) == "data: [DONE]\n\n"
    ensures !failed ==> w.out == old(w.out) + Frame(DONE)
    ensures old(w.out) <= w.out <= old(w.out) + Frame(DONE)
    ensures w.writes == old(w.writes) + 1 && (failed <==> w.accepts(old(w.writes)) < |Frame(DONE)|)
  {
    failed := w.Write("data: [DONE]\n\n");
  }

  // ---- Copying a stream ----

  datatype End = More | Eof | Broken

  /** One ReadBytes call: the line, how the read ended, and whether the context was done after it. */
  datatype Read = Read(line: string, end: End, ctxDone: bool)

  /** The reads a stream loop makes, from the i-th on; running out of reads is the end of the stream. */
  function Consumed(input: seq<Read>, i: nat): (n: nat)
    requires i <= |input|
    ensures i <= n <= |input|
    ensures forall k :: i <= k < n - 1 ==> input[k].end.More? && !input[k].ctxDone
    ensures n < |input| ==> n > i && (!input[n - 1].end.More? || input[n - 1].ctxDone)
    decreases |input| - i
  {
    if i == |input| then i
    else if !input[i].end.More? || input[i].ctxDone then i + 1
    else Consumed(input, i + 1)
  }

  function LinesOf(input: seq<Read>): (lines: seq<string>)
    ensures |lines| == |input| && forall i :: 0 <= i < |input| ==> lines[i] == input[i].line
  {
    seq(|input|, i requires 0 <= i < |input| => input[i].line)
  }

  function Concat(lines: seq<string>, n: nat): string
    requires n <= |lines|
  {
    if n == 0 then "" else Concat(lines, n - 1) + lines[n - 1]
  }

  /** Nothing but the last character of a line can be a line feed, and only the last line can do without. */
  ghost predicate IsLine(line: string, last: bool) {
    line != "" && '\n' !in line[..|line| - 1] && (line[|line| - 1] == '\n' || last)
  }

  lemma CutParts(s: string)
    requires s != ""
    ensures CutLine(s).0 + CutLine(s).1 == s && IsLine(CutLine(s).0, CutLine(s).1 == "")
  {
  }

  /** Splitting loses nothing, and cuts after each line feed and nowhere else. */
  lemma {:induction false} LinesPartition(s: string)
    ensures Concat(SplitLines(s), |SplitLines(s)|) == s
    ensures forall i :: 0 <= i < |SplitLines(s)| ==> IsLine(SplitLines(s)[i], i == |SplitLines(s)| - 1)
    decreases |s|
  {
    hide CutLine, IsLine, Concat;
    if s == "" {
      ConcatNone([]);
    } else {
      var (line, rest) := CutLine(s);
      var lines := SplitLines(rest);
      CutParts(s);
      LinesPartition(rest);
      ConcatHead(line, lines, |lines|);
      assert SplitLines(s) == [line] + lines;
      assert rest == "" ==> lines == [];
      forall i | 0 <= i < |SplitLines(s)| ensures IsLine(SplitLines(s)[i], i == |SplitLines(s)| - 1) {
        assert i > 0 ==> SplitLines(s)[i] == lines[i - 1];
      }
    }
  }

  lemma {:induction false} ConcatHead(line: string, lines: seq<string>, n: nat)
    requires n <= |lines|
    ensures Concat([line] + lines, n + 1) == line + Concat(lines, n)
  {
    hide Concat;
    var all := [line] + lines;
    ConcatOneMore(all, n);
    if n == 0 {
      ConcatNone(all);
      ConcatNone(lines);
    } else {
      ConcatOneMore(lines, n - 1);
      ConcatHead(line, lines, n - 1);
      assert all[n] == lines[n - 1];
      Associate(line, Concat(lines, n - 1), lines[n - 1]);
    }
  }

  lemma ConcatNone(lines: seq<string>)
    ensures Concat(lines, 0) == ""
  {
  }

  lemma ConcatOneMore(lines: seq<string>, i: nat)
    requires i < |lines|
    ensures Concat(lines, i + 1) == Concat(lines, i) + lines[i]
  {
  }

  lemma ConcatStep(before: string, lines: seq<string>, i: nat)
    requires i < |lines|
    ensures before + Concat(lines, i + 1) == (before + Concat(lines, i)) + lines[i]
  {
  }

  /** Write a line that is not empty to the client unless an earlier write failed. */
  method PassOn(w: Client, line: string, open: bool, ghost sent: string) returns (stillOpen: bool)
    requires w.out <= sent && (open ==> w.out == sent)
    modifies w
    ensures w.out <= sent + line && (stillOpen ==> w.out == sent + line)
    ensures w.failures >= old(w.failures) && (open && w.failures == old(w.failures) ==> stillOpen)
  {
    stillOpen := open;
    if line != "" && open {
      var broken := w.Write(line);
      stillOpen := !broken;
    }
  }

  lemma NothingRead(decode: Decoder, lines: seq<string>)
    ensures lines[..0] == [] && Concat(lines, 0) == "" && ReadLines(decode, Got("", ZERO_USAGE), []) == Got("", ZERO_USAGE)
  {
  }

  /** The client sees the upstream's lines; the usage returned is what they say, whether or not writes fail. */
  method CopyStream(decode: Decoder, input: seq<Read>, w: Client) returns (usage: Usage, failed: bool)
    modifies w
    ensures var n := Consumed(input, 0);
            var g := ReadLines(decode, Got("", ZERO_USAGE), LinesOf(input)[..n]);
            && usage == UsageOrEstimate(g.usage, g.text)
            && (failed <==> n > 0 && input[n - 1].end.Broken?)
            && w.out <= old(w.out) + Concat(LinesOf(input), n)
            && (w.failures == old(w.failures) ==> w.out == old(w.out) + Concat(LinesOf(input), n))
  {
    hide ReadLines, ReadLine, TrimSpace, UsageOrEstimate, Concat, LinesOf;
    var lines := LinesOf(input);
    var r := new Reader();
    NothingRead(decode, lines);
    var open, i := true, 0;
    failed := false;
    ghost var n, before, sent := Consumed(input, 0), w.out, w.out;
    while i < |input|
      invariant 0 <= i <= |input| && fresh(r) && !failed
      invariant Consumed(input, i) == n && (i > 0 ==> input[i - 1].end.More?)
      invariant Got(r.generated, r.usage) == ReadLines(decode, Got("", ZERO_USAGE), lines[..i])
      invariant sent == before + Concat(lines, i) && w.out <= sent && (open ==> w.out == sent)
      invariant w.failures >= old(w.failures) && (w.failures == old(w.failures) ==> open)
      decreases |input| - i
    {
      var read := input[i];
      open := PassOn(w, read.line, open, sent);
      ConcatStep(before, lines, i);
      sent := sent + read.line;
      r.ParseSSELine(decode, read.line);
      ReadOneMore(decode, Got("", ZERO_USAGE), lines, i);
      i := i + 1;
      if !read.end.More? {
        failed := read.end.Broken?;
        break;
      }
      if read.ctxDone {
        break;
      }
    }
    usage := UsageOrEstimate(r.usage, r.generated);
  }
}
