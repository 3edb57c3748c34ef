/**
  JSON values without insignificant white space (sections 3 to 7 of RFC 8259):
  how Go's encoding/json prints them, and a reader that knows nothing but the
  grammar. Numbers are integers; the literals true, false and null are left out.
 */
module JsonValues {
  import opened Options
  import opened Json

  datatype Value =
    | Str(text: string)
    | Num(n: int)
    | Arr(items: Items)
    | Obj(members: Members)

  datatype Items = NoItems | Item(first: Value, rest: Items)

  datatype Members = NoMembers | Member(name: string, value: Value, rest: Members)

  // ---- Printing ----

  function Quote(s: string): string {
    "\"" + Escape(s) + "\""
  }

  function Print(v: Value): (s: string)
    ensures s != ""
  {
    match v
    case Str(text) => Quote(text)
    case Num(n) => PrintInt(n)
    case Arr(items) => "[" + PrintItems(items) + "]"
    case Obj(members) => "{" + PrintMembers(members) + "}"
  }

  function PrintItems(items: Items): string {
    match items
    case NoItems => ""
    case Item(v, NoItems) => Print(v)
    case Item(v, more) => Print(v) + "," + PrintItems(more)
  }

  function PrintMembers(members: Members): string {
    match members
    case NoMembers => ""
    case Member(name, v, NoMembers) => Quote(name) + ":" + Print(v)
    case Member(name, v, more) => Quote(name) + ":" + Print(v) + "," + PrintMembers(more)
  }

  // ---- Reading ----

  function ParseValue(s: string): (r: Option<(Value, string)>)
    ensures r.Some? ==> |r.value.1| < |s|
    decreases |s|, 0
  {
    if s == "" then None
    else if s[0] == '"' then
      match ScanString(s[1..])
      case Some((text, rest)) => Some((Str(text), rest))
      case None => None
    else if s[0] == '[' then
      if "]" <= s[1..] then Some((Arr(NoItems), s[2..])) else
        match ParseItems(s[1..])
        case Some((items, rest)) => Some((Arr(items), rest))
        case None => None
    else if s[0] == '{' then
      if "}" <= s[1..] then Some((Obj(NoMembers), s[2..])) else
        match ParseMembers(s[1..])
        case Some((members, rest)) => Some((Obj(members), rest))
        case None => None
    else
      match ReadInt(s)
      case Some((n, rest)) => Some((Num(n), rest))
      case None => None
  }

  /** One or more items, up to and with the closing bracket. */
  function ParseItems(s: string): (r: Option<(Items, string)>)
    ensures r.Some? ==> |r.value.1| < |s|
    decreases |s|, 1
  {
    match ParseValue(s)
    case None => None
    case Some((v, tail)) =>
      if "]" <= tail then Some((Item(v, NoItems), tail[1..]))
      else if "," <= tail then
        match ParseItems(tail[1..])
        case Some((more, rest)) => Some((Item(v, more), rest))
        case None => None
      else None
  }

  /** A quoted name and a colon: the name, and what follows. */
  function ParseName(s: string): (r: Option<(string, string)>)
    ensures r.Some? ==> |r.value.1| < |s|
  {
    if !("\"" <= s) then None else
      match ScanString(s[1..])
      case None => None
      case Some((name, tail)) => if ":" <= tail then Some((name, tail[1..])) else None
  }

  /** One or more members, up to and with the closing brace. */
  function ParseMembers(s: string): (r: Option<(Members, string)>)
    ensures r.Some? ==> |r.value.1| < |s|
    decreases |s|, 1
  {
    match ParseName(s)
    case None => None
    case Some((name, after)) =>
      match ParseValue(after)
      case None => None
      case Some((v, tail)) =>
        if "}" <= tail then Some((Member(name, v, NoMembers), tail[1..]))
        else if "," <= tail then
          match ParseMembers(tail[1..])
          case Some((more, rest)) => Some((Member(name, v, more), rest))
          case None => None
        else None
  }

  // ---- Round trip ----

  predicate NoDigit(s: string) {
    s == "" || !('0' <= s[0] <= '9')
  }

  lemma QuoteIsScanned(text: string, rest: string)
    ensures Quote(text) + rest == "\"" + (Escape(text) + "\"" + rest)
    ensures ScanString((Quote(text) + rest)[1..]) == Some((text, rest))
  {
    StringRoundTrip(text, rest);
    hide Escape, ScanString;
    assert (Quote(text) + rest)[1..] == Escape(text) + "\"" + rest;
  }

  lemma NumberHead(n: int)
    ensures PrintInt(n)[0] == '-' || '0' <= PrintInt(n)[0] <= '9'
  {
    assert Digits(if n < 0 then -n else n)[0] in Digits(if n < 0 then -n else n);
  }

  /** A printed value never starts like the end of a list. */
  lemma PrintHead(v: Value)
    ensures Print(v)[0] != ']' && Print(v)[0] != '}'
  {
    if v.Num? {
      NumberHead(v.n);
    }
    hide PrintInt, Escape;
  }

  lemma NameRoundTrip(name: string, rest: string)
    ensures ParseName(Quote(name) + ":" + rest) == Some((name, rest))
  {
    QuoteIsScanned(name, ":" + rest);
    hide Quote, ScanString, Escape;
    assert Quote(name) + ":" + rest == Quote(name) + (":" + rest);
  }

  /** Reading back a printed value yields it, whatever follows; a digit after a number would belong to it. */
  lemma {:induction false} ValueRoundTrip(v: Value, rest: string)
    requires v.Num? ==> NoDigit(rest)
    ensures ParseValue(Print(v) + rest) == Some((v, rest))
    decreases v
  {
    hide Quote, PrintInt, ReadInt, ScanString, Escape, ParseItems, ParseMembers, PrintItems, PrintMembers;
    var s := Print(v) + rest;
    match v
    case Str(text) =>
      QuoteIsScanned(text, rest);
    case Num(n) =>
      NumberHead(n);
      IntRoundTrip(n, rest);
    case Arr(items) =>
      assert s == "[" + (PrintItems(items) + "]" + rest);
      assert s[1..] == PrintItems(items) + "]" + rest;
      EmptyList(items, rest);
      if items.Item? {
        ItemsRoundTrip(items, rest);
      }
    case Obj(members) =>
      assert s == "{" + (PrintMembers(members) + "}" + rest);
      assert s[1..] == PrintMembers(members) + "}" + rest;
      EmptyObject(members, rest);
      if members.Member? {
        MembersRoundTrip(members, rest);
      }
  }

  lemma StartsWith(c: char, s: string)
    requires s != ""
    ensures [c] <= s <==> s[0] == c
  {
    assert s[..1] == [s[0]];
  }

  lemma EmptyList(items: Items, rest: string)
    ensures "]" <= PrintItems(items) + "]" + rest <==> items.NoItems?
    ensures items.NoItems? ==> (PrintItems(items) + "]" + rest)[1..] == rest
  {
    StartsWith(']', PrintItems(items) + "]" + rest);
    if items.Item? {
      PrintHead(items.first);
      hide Print;
      assert PrintItems(items)[0] == Print(items.first)[0];
    }
  }

  lemma EmptyObject(members: Members, rest: string)
    ensures "}" <= PrintMembers(members) + "}" + rest <==> members.NoMembers?
    ensures members.NoMembers? ==> (PrintMembers(members) + "}" + rest)[1..] == rest
  {
    StartsWith('}', PrintMembers(members) + "}" + rest);
    hide Print, Escape;
    if members.Member? {
      assert PrintMembers(members)[0] == Quote(members.name)[0] == '"';
    }
  }

  lemma {:induction false} ItemsRoundTrip(items: Items, rest: string)
    requires items.Item?
    ensures ParseItems(PrintItems(items) + "]" + rest) == Some((items, rest))
    decreases items
  {
    hide Print, ParseValue;
    if items.rest.NoItems? {
      ValueRoundTrip(items.first, "]" + rest);
      assert PrintItems(items) + "]" + rest == Print(items.first) + ("]" + rest);
    } else {
      var more := PrintItems(items.rest) + "]" + rest;
      ValueRoundTrip(items.first, "," + more);
      assert PrintItems(items) + "]" + rest == Print(items.first) + ("," + more);
      ItemsRoundTrip(items.rest, rest);
    }
  }

  lemma {:induction false} MembersRoundTrip(members: Members, rest: string)
    requires members.Member?
    ensures ParseMembers(PrintMembers(members) + "}" + rest) == Some((members, rest))
    decreases members
  {
    hide Print, ParseValue, Quote, ParseName;
    var name := Quote(members.name) + ":";
    if members.rest.NoMembers? {
      var tail := Print(members.value) + ("}" + rest);
      ValueRoundTrip(members.value, "}" + rest);
      NameRoundTrip(members.name, tail);
      assert PrintMembers(members) + "}" + rest == name + tail;
    } else {
      var more := PrintMembers(members.rest) + "}" + rest;
      var tail := Print(members.value) + ("," + more);
      ValueRoundTrip(members.value, "," + more);
      NameRoundTrip(members.name, tail);
      assert PrintMembers(members) + "}" + rest == name + tail;
      MembersRoundTrip(members.rest, rest);
    }
  }

  // ---- One line of text ----

  ghost predicate AllPlain(s: string) {
    forall c :: c in s ==> Plain(c)
  }

  lemma QuoteIsPlain(s: string)
    ensures AllPlain(Quote(s))
  {
    EscapeIsPlain(s);
    hide Escape;
  }

  lemma IntIsPlain(n: int)
    ensures AllPlain(PrintInt(n))
  {
  }

  /** A printed value is plain from end to end. */
  lemma {:induction false} PrintIsPlain(v: Value)
    ensures AllPlain(Print(v))
    decreases v
  {
    hide Quote, PrintInt, PrintItems, PrintMembers;
    match v
    case Str(text) => QuoteIsPlain(text);
    case Num(n) => IntIsPlain(n);
    case Arr(items) => ItemsArePlain(items);
    case Obj(members) => MembersArePlain(members);
  }

  lemma {:induction false} ItemsArePlain(items: Items)
    ensures AllPlain(PrintItems(items))
    decreases items
  {
    hide Print;
    if items.Item? {
      PrintIsPlain(items.first);
      ItemsArePlain(items.rest);
    }
  }

  lemma {:induction false} MembersArePlain(members: Members)
    ensures AllPlain(PrintMembers(members))
    decreases members
  {
    hide Print, Quote;
    if members.Member? {
      QuoteIsPlain(members.name);
      PrintIsPlain(members.value);
      MembersArePlain(members.rest);
    }
  }
}
