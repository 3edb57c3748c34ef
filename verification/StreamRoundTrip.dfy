/** What the stream writers print, the line reader reads back. */
module StreamRoundTrip {
  import opened Options
  import opened ChatTypes
  import opened Int64
  import opened Json
  import opened JsonValues
  import opened OpenAIStream

  // ---- Decoding a chunk ----

  /** The last member of this name. */
  function Find(members: Members, name: string): Option<Value> {
    match members
    case NoMembers => None
    case Member(n, v, rest) => if Find(rest, name).Some? then Find(rest, name) else if n == name then Some(v) else None
  }

  /** A text field of an object; one that is absent is empty. */
  function TextField(v: Value, name: string): Option<string> {
    if !v.Obj? then None
    else
      match Find(v.members, name)
      case None => Some("")
      case Some(Str(text)) => Some(text)
      case Some(_) => None
  }

  /** A text field of an object that is itself a field. */
  function InnerText(v: Value, outer: string, name: string): Option<string> {
    if !v.Obj? then None
    else
      match Find(v.members, outer)
      case None => Some("")
      case Some(inner) => TextField(inner, name)
  }

  /** A 64-bit integer field of an object; one that is absent is zero. */
  function CountField(v: Value, name: string): Option<int> {
    if !v.Obj? then None
    else
      match Find(v.members, name)
      case None => Some(0)
      case Some(Num(n)) => if -MAX_INT64 - 1 <= n <= MAX_INT64 then Some(n) else None
      case Some(_) => None
  }

  function ChoiceOf(v: Value): Option<Choice> {
    match (InnerText(v, "delta", "content"), TextField(v, "text"), InnerText(v, "message", "content"))
    case (Some(delta), Some(text), Some(message)) => Some(Choice(delta, text, message))
    case _ => None
  }

  function ChoicesOf(items: Items): Option<seq<Choice>> {
    match items
    case NoItems => Some([])
    case Item(v, rest) =>
      match (ChoiceOf(v), ChoicesOf(rest))
      case (Some(c), Some(more)) => Some([c] + more)
      case _ => None
  }

  function UsageOf(v: Value): Option<Usage> {
    match (CountField(v, "prompt_tokens"), CountField(v, "completion_tokens"), CountField(v, "total_tokens"))
    case (Some(prompt), Some(completion), Some(total)) => Some(Usage(prompt, completion, total))
    case _ => None
  }

  function ChunkOf(members: Members): Option<Chunk> {
    var choices := match Find(members, "choices")
                   case None => Some([])
                   case Some(Arr(items)) => ChoicesOf(items)
                   case Some(_) => None;
    var usage := match Find(members, "usage") case None => Some(ZERO_USAGE) case Some(v) => UsageOf(v);
    match (choices, usage)
    case (Some(cs), Some(u)) => Some(Chunk(cs, u))
    case _ => None
  }

  /** A payload read as JSON and taken apart by the field names of a stream chunk. */
  function DecodeChunk(payload: string): Option<Chunk> {
    match ParseValue(payload)
    case Some((Obj(members), "")) => ChunkOf(members)
    case _ => None
  }

  ghost predicate Int64Usage(u: Usage) {
    && -MAX_INT64 - 1 <= u.prompt <= MAX_INT64 && -MAX_INT64 - 1 <= u.completion <= MAX_INT64
    && -MAX_INT64 - 1 <= u.total <= MAX_INT64
  }

  /** A decoder that decodes what the writers print, usage counts in 64 bits, as JSON says; nothing is asked of it on other payloads. */
  ghost predicate DecodesPrinted(decode: Decoder) {
    && (forall text :: decode(DeltaJson(text)) == Some(Chunk([Choice(text, "", "")], ZERO_USAGE)))
    && (forall u :: Int64Usage(u) ==> decode(UsageJson(u)) == Some(Chunk([], u)))
  }

  /** What a JSON reader makes of a delta payload: one choice whose delta has the text as its content. */
  lemma DeltaIsRead(text: string)
    ensures ParseValue(DeltaJson(text)) == Some((
              Obj(Member("choices",
                         Arr(Item(Obj(Member("delta", Obj(Member("content", Str(text), NoMembers)), NoMembers)), NoItems)),
                         NoMembers)), ""))
    ensures DecodeChunk(DeltaJson(text)) == Some(Chunk([Choice(text, "", "")], ZERO_USAGE))
  {
    ValueRoundTrip(DeltaValue(text), "");
    assert Print(DeltaValue(text)) + "" == DeltaJson(text);
    hide Print, ParseValue, ChunkOf;
    DeltaChunk(text);
  }

  lemma DeltaChunk(text: string)
    ensures ChunkOf(DeltaValue(text).members) == Some(Chunk([Choice(text, "", "")], ZERO_USAGE))
  {
    var choices := DeltaValue(text).members;
    assert choices.value.items.first.members == Member("delta", choices.value.items.first.members.value, NoMembers);
    FindOnly("choices", choices.value, "usage");
    DeltaChoice(text);
    hide Find, ChoiceOf;
    assert ChoicesOf(choices.value.items) == Some([Choice(text, "", "")] + []);
    assert [Choice(text, "", "")] + [] == [Choice(text, "", "")];
  }

  lemma DeltaChoice(text: string)
    ensures ChoiceOf(DeltaValue(text).members.value.items.first) == Some(Choice(text, "", ""))
  {
    var content := Obj(Member("content", Str(text), NoMembers));
    FindOnly("content", Str(text), "content");
    FindOnly("delta", content, "text");
    FindOnly("delta", content, "message");
    hide Find;
    assert InnerText(Obj(Member("delta", content, NoMembers)), "delta", "content") == Some(text);
  }

  lemma FindOnly(name: string, v: Value, other: string)
    ensures Find(Member(name, v, NoMembers), name) == Some(v)
    ensures other != name ==> Find(Member(name, v, NoMembers), other) == None
  {
  }

  /** What a JSON reader makes of a usage payload: a usage object of exactly three counts. */
  lemma UsageIsRead(u: Usage)
    ensures ParseValue(UsageJson(u)) == Some((
              Obj(Member("usage",
                         Obj(Member("prompt_tokens", Num(u.prompt),
                             Member("completion_tokens", Num(u.completion),
                             Member("total_tokens", Num(u.total), NoMembers)))),
                         NoMembers)), ""))
    ensures Int64Usage(u) ==> DecodeChunk(UsageJson(u)) == Some(Chunk([], u))
  {
    ValueRoundTrip(UsageValue(u), "");
    assert Print(UsageValue(u)) + "" == UsageJson(u);
    hide Print, ParseValue, UsageOf;
    FindOnly("usage", UsageValue(u).members.value, "choices");
    UsageCounts(u);
  }

  lemma UsageCounts(u: Usage)
    ensures Int64Usage(u) ==> UsageOf(UsageValue(u).members.value) == Some(u)
  {
    var counts := UsageValue(u).members.value.members;
    assert "prompt_tokens"[0] != "completion_tokens"[0] && "prompt_tokens"[0] != "total_tokens"[0];
    assert "completion_tokens"[0] != "total_tokens"[0];
    FindOnly("total_tokens", Num(u.total), "completion_tokens");
    FindOnly("total_tokens", Num(u.total), "prompt_tokens");
    assert Find(counts.rest.rest, "total_tokens") == Some(Num(u.total));
    assert Find(counts.rest, "total_tokens") == Find(counts, "total_tokens") == Some(Num(u.total));
    assert Find(counts.rest, "completion_tokens") == Find(counts, "completion_tokens") == Some(Num(u.completion));
    assert Find(counts.rest, "prompt_tokens") == None && Find(counts, "prompt_tokens") == Some(Num(u.prompt));
    hide Find;
  }

  /** Reading JSON by the field names of a chunk decodes what the writers print. */
  lemma ChunkDecoderDecodes()
    ensures DecodesPrinted(DecodeChunk)
  {
    hide DecodeChunk, DeltaJson, UsageJson, Int64Usage, ParseValue;
    forall text ensures DecodeChunk(DeltaJson(text)) == Some(Chunk([Choice(text, "", "")], ZERO_USAGE)) {
      DeltaIsRead(text);
    }
    forall u | Int64Usage(u) ensures DecodeChunk(UsageJson(u)) == Some(Chunk([], u)) {
      UsageIsRead(u);
    }
  }

  // ---- Reading frames ----

  lemma SplitFrame(payload: string)
    requires '\n' !in payload
    ensures SplitLines(Frame(payload)) == ["data: " + payload + "\n", "" + "\n"]
  {
    hide SplitLines;
    var line, blank := "data: " + payload, "";
    SplitOne(line);
    SplitOne(blank);
    SplitAppend(line + "\n", blank + "\n");
    assert Frame(payload) == (line + "\n") + (blank + "\n");
    assert [line + "\n"] + [blank + "\n"] == [line + "\n", blank + "\n"];
  }

  lemma ReadTwo(decode: Decoder, g: Got, a: string, b: string)
    ensures ReadLines(decode, g, [a, b]) == ReadLine(decode, ReadLine(decode, g, a), b)
  {
    hide ReadLine;
    var g' := ReadLine(decode, g, a);
    assert [a, b][1..] == [b] && [b][1..] == [];
    assert ReadLines(decode, g, [a, b]) == ReadLines(decode, g', [b]);
    assert ReadLines(decode, g', [b]) == ReadLines(decode, ReadLine(decode, g', b), []);
  }

  lemma FrameIsWhole(s: string, payload: string)
    ensures WholeLines(s + Frame(payload))
  {
  }

  /** The reader takes one frame as its payload. */
  lemma FrameIsRead(decode: Decoder, s: string, payload: string)
    requires WholeLines(s) && Solid(payload) && '\n' !in payload
    ensures ReadStream(decode, s + Frame(payload)) == ReadPayload(decode, ReadStream(decode, s), payload)
    ensures decode(payload).None? ==> ReadStream(decode, s + Frame(payload)) == ReadStream(decode, s)
    ensures WholeLines(s + Frame(payload))
  {
    hide Frame, SplitLines, ReadLines, ReadLine, ReadPayload, WholeLines, Solid;
    FrameIsWhole(s, payload);
    SplitAppend(s, Frame(payload));
    SplitFrame(payload);
    var g := ReadStream(decode, s);
    ReadAppend(decode, Got("", ZERO_USAGE), SplitLines(s), SplitLines(Frame(payload)));
    ReadTwo(decode, g, "data: " + payload + "\n", "" + "\n");
    LineIsRead(decode, g, payload);
    NotDecoded(decode, g, payload);
    BlankIsSkipped(decode, ReadPayload(decode, g, payload));
  }

  lemma NotDecoded(decode: Decoder, g: Got, payload: string)
    ensures decode(payload).None? ==> ReadPayload(decode, g, payload) == g
  {
  }

  lemma LineIsRead(decode: Decoder, g: Got, payload: string)
    requires Solid(payload)
    ensures ReadLine(decode, g, "data: " + payload + "\n") == ReadPayload(decode, g, payload)
  {
    LineForms(decode, g, "data: ", payload, "\n");
  }

  lemma BlankIsSkipped(decode: Decoder, g: Got)
    ensures ReadLine(decode, g, "" + "\n") == g
  {
    assert ("" + "\n")[1..] == "";
    assert TrimLeft("" + "\n") == "";
    EmptyTrim();
  }

  /** A printed object is a payload on one line. */
  lemma PrintedIsSolid(v: Value)
    requires v.Obj?
    ensures Solid(Print(v)) && '\n' !in Print(v) && Print(v) != DONE
  {
    PrintIsPlain(v);
    hide PrintMembers;
    assert Print(v)[0] == '{' && Print(v)[|Print(v)| - 1] == '}';
  }

  lemma OneDelta(text: string)
    ensures Contents([Choice(text, "", "")]) == text
  {
    ContentsAppend([], Choice(text, "", ""));
    assert [] + [Choice(text, "", "")] == [Choice(text, "", "")];
  }

  /** Reading one more delta frame appends exactly its text. */
  lemma DeltaFrameIsRead(decode: Decoder, s: string, text: string)
    requires DecodesPrinted(decode) && WholeLines(s)
    ensures ReadStream(decode, s + DeltaFrame(text)) == ReadStream(decode, s).(text := ReadStream(decode, s).text + text)
    ensures WholeLines(s + DeltaFrame(text))
  {
    if text == "" {
      assert s + DeltaFrame(text) == s;
    } else {
      PrintedIsSolid(DeltaValue(text));
      FrameIsRead(decode, s, DeltaJson(text));
      hide DeltaJson, ReadStream, Frame, Contents;
      OneDelta(text);
    }
  }

  lemma UsageFrameIsRead(decode: Decoder, s: string, u: Usage)
    requires DecodesPrinted(decode) && WholeLines(s) && Int64Usage(u)
    ensures ReadStream(decode, s + Frame(UsageJson(u)))
         == if u.total > 0 || u.completion > 0 then ReadStream(decode, s).(usage := u) else ReadStream(decode, s)
    ensures WholeLines(s + Frame(UsageJson(u)))
  {
    PrintedIsSolid(UsageValue(u));
    FrameIsRead(decode, s, UsageJson(u));
    hide UsageJson, ReadStream, Frame;
  }

  lemma DoneFrameIsRead(decode: Decoder, s: string)
    requires WholeLines(s)
    ensures ReadStream(decode, s + Frame(DONE)) == ReadStream(decode, s)
  {
    FrameIsRead(decode, s, DONE);
  }
}
