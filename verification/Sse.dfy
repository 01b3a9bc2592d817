/**
 Server-sent events: the text the stream handler writes, and how a client reads it by
 section 9.2.6 of the WHATWG HTML Standard ("Interpreting an event stream").
 */
module Sse {
  import opened StreamSpec

  // ----- What the handler writes -----

  datatype Item = Message(e: Event) | Keepalive

  /** The non-blank lines of an item; a blank line follows them. */
  function Lines(item: Item): (lines: seq<string>)
    ensures |lines| > 0
  {
    match item
    case Message(e) => ["id: " + e.id, "event: " + e.kind, "data: " + e.data]
    case Keepalive => [": keepalive"]
  }

  function Join(lines: seq<string>): string {
    if |lines| == 0 then "" else lines[0] + "\n" + Join(lines[1..])
  }

  function Print(item: Item): string { Join(Lines(item)) + "\n" }

  function PrintAll(items: seq<Item>): string {
    if |items| == 0 then "" else PrintAll(items[..|items| - 1]) + Print(items[|items| - 1])
  }

  // ----- How the client reads -----

  /** A dispatched event: its lastEventId, its type, and its data. */
  datatype Dispatched = Dispatched(id: string, kind: string, data: string)

  /**
   The client between two characters. `start` is true before the first character, where a
   byte order mark is dropped; `line` is the line so far, and `afterCR` says that the last
   character was a carriage return. `data`, `kind` and `idBuffer` are the buffers of the
   standard; `lastEventID` is what a reconnection sends.
   */
  datatype Client = Client(
    start: bool,
    line: string,
    afterCR: bool,
    data: string,
    kind: string,
    idBuffer: string,
    lastEventID: string,
    out: seq<Dispatched>)

  function Fresh(): Client { Client(true, "", false, "", "", "", "", []) }

  function Dispatch(c: Client): Client {
    var d := c.(lastEventID := c.idBuffer, data := "", kind := "");
    if c.data == "" then d
    else
      var data := if c.data[|c.data| - 1] == '\n' then c.data[..|c.data| - 1] else c.data;
      d.(out := c.out + [Dispatched(c.idBuffer, if c.kind == "" then "message" else c.kind, data)])
  }

  function ProcessField(c: Client, field: string, value: string): Client {
    if field == "event" then c.(kind := value)
    else if field == "data" then c.(data := c.data + value + "\n")
    else if field == "id" then if '\0' in value then c else c.(idBuffer := value)
    else c // "retry" sets the reconnection time only; other fields are ignored
  }

  function IndexOfColon(line: string): (i: nat)
    ensures i <= |line| && (i < |line| ==> line[i] == ':')
    ensures forall j :: 0 <= j < i ==> line[j] != ':'
  {
    if |line| == 0 || line[0] == ':' then 0 else 1 + IndexOfColon(line[1..])
  }

  function ProcessLine(c: Client): Client {
    var d := c.(line := "");
    var colon := IndexOfColon(c.line);
    if c.line == "" then Dispatch(d)
    else if colon == 0 then d
    else if colon == |c.line| then ProcessField(d, c.line, "")
    else
      var value := c.line[colon + 1..];
      ProcessField(d, c.line[..colon], if |value| > 0 && value[0] == ' ' then value[1..] else value)
  }

  function FeedChar(c: Client, ch: char): Client {
    if c.start && ch == '\U{FEFF}' then c.(start := false)
    else if ch == '\n' then
      if c.afterCR then c.(start := false, afterCR := false) else ProcessLine(c.(start := false))
    else if ch == '\r' then ProcessLine(c.(start := false)).(afterCR := true)
    else c.(start := false, afterCR := false, line := c.line + [ch])
  }

  function Feed(c: Client, text: string): Client {
    if |text| == 0 then c else FeedChar(Feed(c, text[..|text| - 1]), text[|text| - 1])
  }

  // ----- The round trip -----

  predicate OneLine(s: string) { '\n' !in s && '\r' !in s }

  /** JSON text holds no raw line terminator, ids are decimal numbers, kinds are fixed words. */
  predicate Printable(item: Item) {
    item.Message? ==> OneLine(item.e.id) && '\0' !in item.e.id && OneLine(item.e.kind) && OneLine(item.e.data)
  }

  predicate AllPrintable(items: seq<Item>) { forall i :: 0 <= i < |items| ==> Printable(items[i]) }

  function Heard(e: Event): Dispatched {
    Dispatched(e.id, if e.kind == "" then "message" else e.kind, e.data)
  }

  function Messages(items: seq<Item>): seq<Event> {
    if |items| == 0 then []
    else
      var last := items[|items| - 1];
      Messages(items[..|items| - 1]) + (if last.Message? then [last.e] else [])
  }

  function HeardAll(es: seq<Event>): seq<Dispatched> {
    seq(|es|, i requires 0 <= i < |es| => Heard(es[i]))
  }

  lemma {:induction false} FeedConcat(c: Client, a: string, b: string)
    ensures Feed(c, a + b) == Feed(Feed(c, a), b)
  {
    if |b| == 0 {
      assert a + b == a;
    } else {
      assert (a + b)[..|a + b| - 1] == a + b[..|b| - 1];
      FeedConcat(c, a, b[..|b| - 1]);
    }
  }

  /** Characters inside a line are only collected. */
  lemma {:induction false} FeedInLine(c: Client, text: string)
    requires OneLine(text) && (c.start && |text| > 0 ==> text[0] != '\U{FEFF}')
    ensures Feed(c, text) == if |text| == 0 then c else c.(start := false, afterCR := false, line := c.line + text)
  {
    if |text| > 0 {
      var front := text[..|text| - 1];
      FeedInLine(c, front);
      assert front + [text[|text| - 1]] == text;
      assert c.line + text == c.line + front + [text[|text| - 1]];
    }
  }

  lemma FeedLine(c: Client, line: string)
    requires OneLine(line) && |line| > 0 && line[0] != '\U{FEFF}' && c.line == ""
    ensures Feed(c, line + "\n") == ProcessLine(c.(start := false, afterCR := false, line := line))
  {
    FeedConcat(c, line, "\n");
    FeedInLine(c, line);
    assert c.line + line == line;
    var d := Feed(c, line);
    assert "\n"[..0] == "";
    assert Feed(d, "\n") == FeedChar(d, '\n');
  }

  lemma FieldLine(c: Client, field: string, value: string)
    requires |field| > 0 && ':' !in field && c.line == field + ": " + value
    ensures ProcessLine(c) == ProcessField(c.(line := ""), field, value)
  {
    assert c.line[|field|] == ':';
    assert forall j :: 0 <= j < |field| ==> c.line[j] == field[j];
    assert IndexOfColon(c.line) == |field|;
    assert c.line[..|field|] == field && c.line[|field| + 1..] == " " + value;
  }

  predicate Plain(s: string) {
    |s| > 0 && ':' !in s && OneLine(s) && s[0] != '\U{FEFF}'
  }

  /** A "field: value" line. */
  lemma FeedField(c: Client, field: string, value: string)
    requires Plain(field) && OneLine(value) && c.line == ""
    ensures Feed(c, field + ": " + value + "\n") == ProcessField(c.(start := false, afterCR := false), field, value)
  {
    var line := field + ": " + value;
    FeedLine(c, line);
    FieldLine(c.(start := false, afterCR := false, line := line), field, value);
  }

  /** Where the client is after whole items: nothing half read. */
  predicate AtBoundary(c: Client) {
    c.line == "" && !c.afterCR && c.data == "" && c.kind == "" && c.idBuffer == c.lastEventID
  }

  /** What a whole item does to the client. */
  function AfterItem(c: Client, item: Item): Client {
    match item
    case Message(e) =>
      c.(start := false, idBuffer := e.id, lastEventID := e.id, out := c.out + [Heard(e)])
    case Keepalive => c.(start := false)
  }

  /** The client after the non-blank lines of an item. */
  function AfterLines(c: Client, item: Item): Client {
    match item
    case Message(e) =>
      c.(start := false, afterCR := false, idBuffer := e.id, kind := e.kind, data := e.data + "\n")
    case Keepalive => c.(start := false, afterCR := false)
  }

  lemma FeedThree(c: Client, a: string, b: string, d: string)
    ensures Feed(c, Join([a, b, d])) == Feed(Feed(Feed(c, a + "\n"), b + "\n"), d + "\n")
  {
    assert [a, b, d][1..] == [b, d] && [b, d][1..] == [d] && [d][1..] == [];
    assert Join([d]) == d + "\n";
    assert Join([b, d]) == b + "\n" + (d + "\n");
    assert Join([a, b, d]) == a + "\n" + Join([b, d]);
    FeedConcat(c, a + "\n", Join([b, d]));
    FeedConcat(Feed(c, a + "\n"), b + "\n", d + "\n");
  }

  lemma FeedId(c: Client, id: string)
    requires OneLine(id) && '\0' !in id && c.line == ""
    ensures Feed(c, "id: " + id + "\n") == c.(start := false, afterCR := false, idBuffer := id)
  {
    FeedField(c, "id", id);
    assert "id" + ": " == "id: ";
  }

  lemma FeedKind(c: Client, kind: string)
    requires OneLine(kind) && c.line == ""
    ensures Feed(c, "event: " + kind + "\n") == c.(start := false, afterCR := false, kind := kind)
  {
    FeedField(c, "event", kind);
    assert "event" + ": " == "event: ";
  }

  lemma FeedData(c: Client, data: string)
    requires OneLine(data) && c.line == ""
    ensures Feed(c, "data: " + data + "\n") == c.(start := false, afterCR := false, data := c.data + data + "\n")
  {
    FeedField(c, "data", data);
    assert "data" + ": " == "data: ";
  }

  lemma FeedFields(c: Client, e: Event)
    requires AtBoundary(c) && Printable(Message(e))
    ensures Feed(c, Join(Lines(Message(e)))) == AfterLines(c, Message(e))
  {
    FeedThree(c, "id: " + e.id, "event: " + e.kind, "data: " + e.data);
    var c1 := c.(start := false, afterCR := false, idBuffer := e.id);
    var c2 := c1.(kind := e.kind);
    FeedId(c, e.id);
    FeedKind(c1, e.kind);
    FeedData(c2, e.data);
    assert "" + e.data + "\n" == e.data + "\n";
  }

  lemma FeedLines(c: Client, item: Item)
    requires AtBoundary(c) && Printable(item)
    ensures Feed(c, Join(Lines(item))) == AfterLines(c, item)
  {
    match item
    case Message(e) => FeedFields(c, e);
    case Keepalive =>
      assert [": keepalive"][1..] == [] && Join([": keepalive"]) == ": keepalive" + "\n";
      FeedLine(c, ": keepalive");
  }

  lemma FeedBlank(c: Client)
    requires c.line == "" && !c.afterCR
    ensures Feed(c, "\n") == Dispatch(c.(start := false))
  {
    assert "\n"[..0] == "";
    assert Feed(c, "\n") == FeedChar(c, '\n');
  }

  lemma FeedItem(c: Client, item: Item)
    requires AtBoundary(c) && Printable(item)
    ensures Feed(c, Print(item)) == AfterItem(c, item) && AtBoundary(AfterItem(c, item))
  {
    FeedConcat(c, Join(Lines(item)), "\n");
    FeedLines(c, item);
    FeedBlank(AfterLines(c, item));
    match item
    case Message(e) => assert (e.data + "\n")[..|e.data|] == e.data;
    case Keepalive =>
  }

  function LastID(es: seq<Event>): string { if |es| == 0 then "" else es[|es| - 1].id }

  function Carried(item: Item): seq<Event> { if item.Message? then [item.e] else [] }

  lemma ItemHeard(c: Client, es: seq<Event>, item: Item)
    requires c.out == HeardAll(es) && c.lastEventID == LastID(es)
    ensures var d := AfterItem(c, item);
      d.out == HeardAll(es + Carried(item)) && d.lastEventID == LastID(es + Carried(item))
  {
    if item.Message? {
      assert HeardAll(es + [item.e]) == HeardAll(es) + [Heard(item.e)];
    } else {
      assert es + [] == es;
    }
  }

  lemma {:induction false} FeedItems(items: seq<Item>)
    requires AllPrintable(items)
    ensures var c := Feed(Fresh(), PrintAll(items));
      AtBoundary(c) && c.out == HeardAll(Messages(items)) && c.lastEventID == LastID(Messages(items))
  {
    if |items| > 0 {
      var front, last := items[..|items| - 1], items[|items| - 1];
      var c := Feed(Fresh(), PrintAll(front));
      FeedItems(front);
      FeedConcat(Fresh(), PrintAll(front), Print(last));
      FeedItem(c, last);
      ItemHeard(c, Messages(front), last);
      assert Messages(items) == Messages(front) + Carried(last);
    }
  }

  /**
   Reading back what was written dispatches exactly the events, in order, with their id,
   type and data, wherever keepalives were written in between; keepalives dispatch nothing.
   */
  lemma PrintedEventsAreHeard(items: seq<Item>)
    requires AllPrintable(items)
    ensures Feed(Fresh(), PrintAll(items)).out == HeardAll(Messages(items))
  {
    FeedItems(items);
  }

  // ----- A connection that breaks -----

  lemma NonBlankLine(c: Client, line: string)
    requires OneLine(line) && |line| > 0 && line[0] != '\U{FEFF}' && c.line == ""
    ensures var d := Feed(c, line + "\n"); d.out == c.out && d.lastEventID == c.lastEventID && d.line == ""
  {
    FeedLine(c, line);
  }

  lemma {:induction false} CutInLines(c: Client, lines: seq<string>, text: string)
    requires forall i :: 0 <= i < |lines| ==> OneLine(lines[i]) && |lines[i]| > 0 && lines[i][0] != '\U{FEFF}'
    requires text <= Join(lines) && c.line == ""
    ensures Feed(c, text).out == c.out && Feed(c, text).lastEventID == c.lastEventID
    decreases |lines|
  {
    if |lines| > 0 {
      var line := lines[0];
      if |text| <= |line| {
        assert text <= line;
        FeedInLine(c, text);
      } else {
        var rest := text[|line| + 1..];
        assert text == (line + "\n") + rest;
        assert rest <= Join(lines[1..]);
        FeedConcat(c, line + "\n", rest);
        NonBlankLine(c, line);
        CutInLines(Feed(c, line + "\n"), lines[1..], rest);
      }
    }
  }

  lemma CutItem(c: Client, item: Item, text: string)
    requires AtBoundary(c) && Printable(item) && text < Print(item)
    ensures Feed(c, text).out == c.out && Feed(c, text).lastEventID == c.lastEventID
  {
    assert text <= Join(Lines(item));
    CutInLines(c, Lines(item), text);
  }

  /**
   A client whose connection breaks after any number of characters has dispatched the
   first of the events, and the id it will reconnect with is that of the last of them.
   */
  lemma {:induction false} BrokenConnection(items: seq<Item>, text: string) returns (m: nat)
    requires AllPrintable(items) && text <= PrintAll(items)
    ensures m <= |Messages(items)|
    ensures Feed(Fresh(), text).out == HeardAll(Messages(items)[..m])
    ensures Feed(Fresh(), text).lastEventID == LastID(Messages(items)[..m])
  {
    if |items| == 0 {
      m := 0;
    } else {
      var front, last := items[..|items| - 1], items[|items| - 1];
      if text == PrintAll(items) {
        FeedItems(items);
        m := |Messages(items)|;
        assert Messages(items)[..m] == Messages(items);
      } else if |text| <= |PrintAll(front)| {
        m := BrokenConnection(front, text);
        assert Messages(items)[..m] == Messages(front)[..m];
      } else {
        var rest := text[|PrintAll(front)|..];
        assert text == PrintAll(front) + rest && rest < Print(last);
        FeedItems(front);
        FeedConcat(Fresh(), PrintAll(front), rest);
        CutItem(Feed(Fresh(), PrintAll(front)), last, rest);
        m := |Messages(front)|;
        assert Messages(items)[..m] == Messages(front);
      }
    }
  }
}
