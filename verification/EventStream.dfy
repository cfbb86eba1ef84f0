/** Server-sent events: the frames a server writes and the parser of a whole body. */
module EventStream {
  import opened Wrappers
  import opened Sequences

  datatype Frame = Frame(event: Option<string>, data: string)

  // ----------------------------------------------------------------------- lines

  function StripCR(s: string): string {
    if s != "" && s[|s| - 1] == '\r' then s[..|s| - 1] else s
  }

  /** Lines end in LF or CR LF; a last line without an end is kept as it is, an empty one is not a line. */
  function Lines(s: string): seq<string>
    decreases |s|
  {
    if s == "" then []
    else
      match Find(s, '\n')
      case None => [s]
      case Some(k) => [StripCR(s[..k])] + Lines(s[k + 1..])
  }

  lemma FirstLine(line: string, rest: string)
    requires '\n' !in line
    ensures Lines(line + "\n" + rest) == [StripCR(line)] + Lines(rest)
  {
    var s := line + "\n" + rest;
    assert s[|line|] == '\n' && s[..|line|] == line && s[|line| + 1..] == rest;
    assert forall i | 0 <= i < |line| :: s[i] == line[i];
    assert Find(s, '\n') == Some(|line|);
  }

  /** A last line without an end. */
  lemma LastLine(line: string)
    requires '\n' !in line
    ensures Lines(line) == if line == "" then [] else [line]
  {
  }

  // ---------------------------------------------------------------------- fields

  predicate IsWhitespace(c: char) {
    || '\t' <= c <= '\r'
    || c in {' ', '\U{0085}', '\U{00A0}', '\U{1680}', '\U{2028}', '\U{2029}', '\U{202F}', '\U{205F}', '\U{3000}'}
    || '\U{2000}' <= c <= '\U{200A}'
  }

  /** White space by its code points. */
  lemma WhitespaceCodes(c: char)
    ensures var n := c as int;
      IsWhitespace(c) <==>
        || 9 <= n <= 13 || n == 32 || n == 133 || n == 160 || n == 5760 || 8192 <= n <= 8202
        || n == 8232 || n == 8233 || n == 8239 || n == 8287 || n == 12288
  {
  }

  function TrimStart(s: string): string {
    if s != "" && IsWhitespace(s[0]) then TrimStart(s[1..]) else s
  }

  function TrimEnd(s: string): string {
    if s != "" && IsWhitespace(s[|s| - 1]) then TrimEnd(s[..|s| - 1]) else s
  }

  function TrimSpaces(s: string): string {
    if s != "" && s[0] == ' ' then TrimSpaces(s[1..]) else s
  }

  /** Key and value around the first colon. */
  function ParseField(line: string): Option<(string, string)> {
    match Find(line, ':')
    case None => None
    case Some(k) => Some((TrimEnd(TrimStart(line[..k])), TrimSpaces(line[k + 1..])))
  }

  lemma {:induction false} TrimmedStart(s: string) returns (k: nat)
    ensures k <= |s| && TrimStart(s) == s[k..] && AllBlank(s[..k])
    ensures TrimStart(s) == "" || !IsWhitespace(TrimStart(s)[0])
  {
    k := 0;
    if s != "" && IsWhitespace(s[0]) {
      hide IsWhitespace;
      var n := TrimmedStart(s[1..]);
      k := n + 1;
      assert s[k..] == s[1..][n..] && s[..k] == [s[0]] + s[1..][..n];
    }
  }

  lemma {:induction false} TrimmedEnd(s: string) returns (k: nat)
    ensures k <= |s| && TrimEnd(s) == s[..k] && AllBlank(s[k..])
    ensures TrimEnd(s) == "" || !IsWhitespace(TrimEnd(s)[|TrimEnd(s)| - 1])
  {
    k := |s|;
    if s != "" && IsWhitespace(s[|s| - 1]) {
      hide IsWhitespace;
      var t := s[..|s| - 1];
      k := TrimmedEnd(t);
      assert s[..k] == t[..k] && s[k..] == t[k..] + [s[|s| - 1]];
    }
  }

  lemma {:induction false} TrimmedSpaces(s: string) returns (k: nat)
    ensures k <= |s| && TrimSpaces(s) == s[k..] && forall i | 0 <= i < k :: s[i] == ' '
    ensures TrimSpaces(s) == "" || TrimSpaces(s)[0] != ' '
  {
    k := 0;
    if s != "" && s[0] == ' ' {
      var n := TrimmedSpaces(s[1..]);
      k := n + 1;
      assert s[k..] == s[1..][n..];
      forall i | 0 <= i < k ensures s[i] == ' ' {
        assert i == 0 || s[i] == s[1..][i - 1];
      }
    }
  }

  predicate AllBlank(s: string) {
    forall c | c in s :: IsWhitespace(c)
  }

  /** `t` is `s` without `before` and `after`. */
  predicate Within(s: string, before: string, t: string, after: string) {
    s == before + t + after
  }

  /** A field is split at its first colon: around the key whitespace is dropped, before the value spaces are, and
      nothing else. A line without a colon is no field. */
  lemma FieldSplit(line: string)
    ensures ParseField(line).None? <==> ':' !in line
    ensures ParseField(line).Some? ==>
              var (key, value) := ParseField(line).value;
              && (key != "" ==> !IsWhitespace(key[0]) && !IsWhitespace(key[|key| - 1]))
              && (value != "" ==> value[0] != ' ')
              && exists k, n ::
                   && 0 <= k < n <= |line| && line[k] == ':' && ':' !in line[..k]
                   && line[n..] == value && (forall i | k < i < n :: line[i] == ' ')
                   && TrimmedTo(line[..k], key)
  {
    match Find(line, ':')
    case None =>
    case Some(k) =>
      hide IsWhitespace, TrimStart, TrimEnd, TrimSpaces;
      var head, tail := line[..k], line[k + 1..];
      var n := TrimmedSpaces(tail);
      KeyTrimmed(head);
      assert line[k + 1 + n..] == tail[n..];
      forall i | k < i < k + 1 + n ensures line[i] == ' ' {
        assert line[i] == tail[i - k - 1];
      }
  }

  ghost predicate TrimmedTo(s: string, t: string) {
    exists before, after :: AllBlank(before) && AllBlank(after) && Within(s, before, t, after)
  }

  lemma KeyTrimmed(s: string)
    ensures TrimmedTo(s, TrimEnd(TrimStart(s)))
    ensures var t := TrimEnd(TrimStart(s));
      t != "" ==> !IsWhitespace(t[0]) && !IsWhitespace(t[|t| - 1])
  {
    hide IsWhitespace, TrimStart, TrimEnd, AllBlank, Within;
    var k := TrimmedStart(s);
    var u := TrimStart(s);
    var n := TrimmedEnd(u);
    InThree(s, k, n);
    assert Within(s, s[..k], TrimEnd(u), u[n..]);
  }

  lemma InThree(s: string, k: nat, n: nat)
    requires k <= |s| && n <= |s[k..]|
    ensures Within(s, s[..k], s[k..][..n], s[k..][n..])
    ensures n > 0 ==> s[k..][..n][0] == s[k..][0]
  {
    assert s == s[..k] + s[k..] && s[k..] == s[k..][..n] + s[k..][n..];
  }

  // ---------------------------------------------------------------------- parsing

  /** Frames so far, and the frame being read. */
  datatype Progress = Progress(frames: seq<Frame>, event: Option<string>, data: string)

  /** An empty line ends a frame that has data; a frame without data leaves its event behind. */
  function TakeLine(p: Progress, line: string): Progress {
    if line == "" then
      if p.data == "" then p else Progress(p.frames + [Frame(p.event, p.data)], None, "")
    else
      match ParseField(line)
      case None => p
      case Some((key, value)) =>
        if key == "event" then p.(event := if value == "" then None else Some(value))
        else if key == "data" then p.(data := if p.data == "" then value else p.data + "\n" + value)
        else p
  }

  function TakeLines(p: Progress, lines: seq<string>): Progress {
    if lines == [] then p else TakeLine(TakeLines(p, lines[..|lines| - 1]), lines[|lines| - 1])
  }

  function Parsed(text: string): seq<Frame> {
    var p := TakeLines(Progress([], None, ""), Lines(text));
    if p.data == "" then p.frames else p.frames + [Frame(p.event, p.data)]
  }

  method ParseFrames(text: string) returns (frames: seq<Frame>)
    ensures frames == Parsed(text)
  {
    frames := [];
    var event: Option<string> := None;
    var data := "";
    var lines := Lines(text);
    for i := 0 to |lines|
      invariant Progress(frames, event, data) == TakeLines(Progress([], None, ""), lines[..i])
    {
      var line := lines[i];
      assert lines[..i + 1][..i] == lines[..i];
      if line == "" {
        if data != "" {
          frames := frames + [Frame(event, data)];
          event, data := None, "";
        }
      } else {
        var field := ParseField(line);
        if field.Some? {
          var (key, value) := field.value;
          if key == "event" {
            event := if value == "" then None else Some(value);
          } else if key == "data" {
            if data != "" {
              data := data + "\n";
            }
            data := data + value;
          }
        }
      }
    }
    assert lines[..|lines|] == lines;
    if data != "" {
      frames := frames + [Frame(event, data)];
    }
  }

  // ------------------------------------------------------------------ round trip

  /** An event name and a payload, as a server has them. */
  datatype Event = Event(name: string, payload: string)

  function Write(e: Event): string {
    "event: " + e.name + "\n" + "data: " + e.payload + "\n" + "\n"
  }

  function WriteAll(es: seq<Event>): string {
    if es == [] then "" else Write(es[0]) + WriteAll(es[1..])
  }

  predicate OneLine(s: string) {
    '\n' !in s
  }

  /** What arrives of a one-line text. */
  function Arrives(s: string): string {
    TrimSpaces(StripCR(s))
  }

  /** What arrives of one-line events: one whose payload vanishes is not seen at all. */
  function Received(es: seq<Event>): seq<Frame> {
    if es == [] then [] else ReceivedOf(es[0]) + Received(es[1..])
  }

  function ReceivedOf(e: Event): seq<Frame> {
    var name, payload := Arrives(e.name), Arrives(e.payload);
    if payload == "" then [] else [Frame(if name == "" then None else Some(name), payload)]
  }

  lemma StripTail(a: string, b: string)
    requires a != "" && a[|a| - 1] != '\r'
    ensures StripCR(a + b) == a + StripCR(b)
  {
  }

  lemma KeyFacts(key: string)
    requires key == "event" || key == "data"
    ensures TrimEnd(TrimStart(key)) == key
    ensures forall i | 0 <= i < |key| :: key[i] != ':'
  {
    assert !IsWhitespace(key[0]) && !IsWhitespace(key[|key| - 1]);
    hide IsWhitespace;
    NothingToTrim(key);
  }

  lemma NothingToTrim(s: string)
    requires s != "" && !IsWhitespace(s[0]) && !IsWhitespace(s[|s| - 1])
    ensures TrimEnd(TrimStart(s)) == s
  {
  }

  lemma FieldRoundTrip(key: string, value: string)
    requires key == "event" || key == "data"
    ensures ParseField(StripCR(key + ": " + value)) == Some((key, Arrives(value)))
    ensures StripCR(key + ": " + value) != ""
  {
    hide TrimStart, TrimEnd, StripCR;
    KeyFacts(key);
    StripTail(key + ": ", value);
    var s := key + ": " + StripCR(value);
    assert s[|key|] == ':' && s[..|key|] == key && s[|key| + 1..] == " " + StripCR(value);
    assert forall i | 0 <= i < |key| :: s[i] == key[i];
    assert Find(s, ':') == Some(|key|);
    assert (" " + StripCR(value))[1..] == StripCR(value);
  }

  lemma {:induction false} TakeAppend(p: Progress, a: seq<string>, b: seq<string>)
    ensures TakeLines(p, a + b) == TakeLines(TakeLines(p, a), b)
  {
    if b == [] {
      assert a + b == a;
    } else {
      FrontOfAppend(a, b);
      TakeAppend(p, a, b[..|b| - 1]);
    }
  }

  predicate OneLiners(es: seq<Event>) {
    forall e | e in es :: OneLine(e.name) && OneLine(e.payload)
  }

  lemma WrittenLines(e: Event, rest: string)
    requires OneLine(e.name) && OneLine(e.payload)
    ensures Lines(Write(e) + rest) == LinesOf(e) + Lines(rest)
  {
    hide Lines, StripCR;
    var a, b := "event: " + e.name, "data: " + e.payload;
    var end := "" + "\n" + rest;
    assert '\n' !in "event: " && '\n' !in "data: ";
    assert Write(e) + rest == a + "\n" + (b + "\n" + end);
    FirstLine(a, b + "\n" + end);
    FirstLine(b, end);
    FirstLine("", rest);
    assert StripCR("") == "" by { EmptyStrip(); }
  }

  lemma EmptyStrip()
    ensures StripCR("") == ""
  {
  }

  function LinesOf(e: Event): seq<string> {
    [StripCR("event: " + e.name), StripCR("data: " + e.payload), ""]
  }

  /** The three lines of a written event, met between two frames. */
  lemma TakeEvent(p: Progress, e: Event)
    requires p.data == ""
    ensures var q := TakeLines(p, LinesOf(e)); q.data == "" && q.frames == p.frames + ReceivedOf(e)
  {
    hide ParseField, StripCR, Arrives;
    FieldRoundTrip("event", e.name);
    FieldRoundTrip("data", e.payload);
    assert "event" + ": " == "event: " && "data" + ": " == "data: ";
    var x, y := StripCR("event: " + e.name), StripCR("data: " + e.payload);
    assert [x][..0] == [] && [x, y][..1] == [x] && [x, y, ""][..2] == [x, y];
    assert TakeLines(p, [x]) == TakeLine(p, x);
    assert TakeLines(p, [x, y]) == TakeLine(TakeLine(p, x), y);
  }

  lemma TakeFirst(p: Progress, es: seq<Event>)
    requires p.data == "" && es != []
    ensures var q := TakeLines(p, LinesOf(es[0]));
      q.data == "" && q.frames + Received(es[1..]) == p.frames + Received(es)
  {
    hide TakeLines, ReceivedOf, LinesOf;
    TakeEvent(p, es[0]);
    Associative(p.frames, ReceivedOf(es[0]), Received(es[1..]));
  }

  lemma {:induction false} TakeWritten(p: Progress, es: seq<Event>)
    requires p.data == "" && OneLiners(es)
    ensures TakeLines(p, Lines(WriteAll(es))).frames == p.frames + Received(es)
    ensures TakeLines(p, Lines(WriteAll(es))).data == ""
    decreases |es|
  {
    hide TakeLines, Lines, Received, Write, WriteAll, OneLiners, LinesOf;
    if es == [] {
      NothingWritten(p);
    } else {
      ToLines(es);
      TakeAppend(p, LinesOf(es[0]), Lines(WriteAll(es[1..])));
      TakeFirst(p, es);
      TakeWritten(TakeLines(p, LinesOf(es[0])), es[1..]);
    }
  }

  lemma NothingWritten(p: Progress)
    ensures TakeLines(p, Lines(WriteAll([]))) == p && Received([]) == []
  {
  }

  lemma ToLines(es: seq<Event>)
    requires es != [] && OneLiners(es)
    ensures Lines(WriteAll(es)) == LinesOf(es[0]) + Lines(WriteAll(es[1..])) && OneLiners(es[1..])
  {
    hide Lines, OneLine;
    assert es[0] in es && forall e | e in es[1..] :: e in es;
    WrittenLines(es[0], WriteAll(es[1..]));
  }

  /** What a client gets of any sequence of one-line events. */
  lemma ParseWritten(es: seq<Event>)
    requires OneLiners(es)
    ensures Parsed(WriteAll(es)) == Received(es)
  {
    TakeWritten(Progress([], None, ""), es);
  }

  predicate Clean(s: string) {
    s != "" && s[0] != ' ' && s[|s| - 1] != '\r'
  }

  function Sent(es: seq<Event>): seq<Frame> {
    if es == [] then [] else [Frame(Some(es[0].name), es[0].payload)] + Sent(es[1..])
  }

  lemma {:induction false} TrimShortens(s: string)
    ensures |TrimSpaces(s)| <= |s|
    ensures |TrimSpaces(s)| == |s| <==> s == "" || s[0] != ' '
    ensures s == "" || s[0] != ' ' ==> TrimSpaces(s) == s
  {
    if s != "" && s[0] == ' ' {
      TrimShortens(s[1..]);
    }
  }

  lemma ArrivesUnchanged(s: string)
    ensures Arrives(s) == s && s != "" <==> Clean(s)
  {
    TrimShortens(StripCR(s));
  }

  lemma {:induction false} ReceivedAtMost(es: seq<Event>)
    ensures |Received(es)| <= |es| == |Sent(es)|
  {
    if es != [] {
      ReceivedAtMost(es[1..]);
    }
  }

  /** One-line events come back as they were sent, all of them in order, exactly when no name and no payload
      is empty, starts with a space or ends in a carriage return. */
  lemma {:induction false} RoundTrip(es: seq<Event>)
    requires OneLiners(es)
    ensures Parsed(WriteAll(es)) == Sent(es) <==> forall e | e in es :: Clean(e.name) && Clean(e.payload)
  {
    ParseWritten(es);
    ReceivedIsSent(es);
  }

  lemma {:induction false} ReceivedIsSent(es: seq<Event>)
    ensures Received(es) == Sent(es) <==> forall e | e in es :: Clean(e.name) && Clean(e.payload)
  {
    if es != [] {
      hide Clean, Arrives;
      var e, rest := es[0], es[1..];
      assert es == [e] + rest;
      ReceivedIsSent(rest);
      ReceivedAtMost(rest);
      ArrivesUnchanged(e.name);
      ArrivesUnchanged(e.payload);
      assert Sent(es)[0] == Frame(Some(e.name), e.payload) && Sent(es)[1..] == Sent(rest);
      if Arrives(e.payload) != "" {
        assert Received(es)[1..] == Received(rest);
      }
    }
  }

  // ---------------------------------------------------- names left to the next frame

  /** Lines between empty lines. */
  function Blocks(lines: seq<string>): (blocks: seq<seq<string>>)
    ensures blocks != []
  {
    if lines == [] then [[]]
    else
      var before, line := Blocks(lines[..|lines| - 1]), lines[|lines| - 1];
      if line == "" then before + [[]]
      else before[..|before| - 1] + [before[|before| - 1] + [line]]
  }

  /** What the data fields of a block say, in order. */
  function DataFields(block: seq<string>): seq<string> {
    if block == [] then [] else FieldData(block[0]) + DataFields(block[1..])
  }

  function FieldData(line: string): seq<string> {
    match ParseField(line)
    case Some((key, value)) => if key == "data" then [value] else []
    case None => []
  }

  /** Texts on lines of their own, after leading empty ones are dropped. */
  function OnLines(texts: seq<string>): string {
    if texts == [] then "" else if texts[0] == "" then OnLines(texts[1..]) else texts[0] + MoreLines(texts[1..])
  }

  function MoreLines(texts: seq<string>): string {
    if texts == [] then "" else "\n" + texts[0] + MoreLines(texts[1..])
  }

  /** The data of a block: its data fields, one on each line, from the first on that is not empty. */
  function Data(block: seq<string>): string {
    OnLines(DataFields(block))
  }

  lemma {:induction false} OnLinesMore(texts: seq<string>, last: string)
    ensures OnLines(texts + [last])
         == if OnLines(texts) == "" then last else OnLines(texts) + "\n" + last
    ensures MoreLines(texts + [last]) == MoreLines(texts) + "\n" + last
  {
    if texts == [] {
      assert [last][1..] == [];
    } else {
      assert (texts + [last])[1..] == texts[1..] + [last];
      OnLinesMore(texts[1..], last);
    }
  }

  lemma {:induction false} DataFieldsMore(block: seq<string>, line: string)
    ensures DataFields(block + [line]) == DataFields(block) + FieldData(line)
  {
    if block == [] {
      assert [line][1..] == [];
    } else {
      hide ParseField;
      assert (block + [line])[1..] == block[1..] + [line];
      DataFieldsMore(block[1..], line);
      Associative(FieldData(block[0]), DataFields(block[1..]), FieldData(line));
    }
  }

  /** One more line of a block: a data field goes on a line of its own, if there is data already. */
  lemma DataMore(block: seq<string>, line: string)
    ensures Data(block + [line])
         == match ParseField(line)
            case Some((key, value)) =>
              if key != "data" then Data(block)
              else if Data(block) == "" then value else Data(block) + "\n" + value
            case None => Data(block)
  {
    hide ParseField;
    DataFieldsMore(block, line);
    if ParseField(line).Some? && ParseField(line).value.0 == "data" {
      OnLinesMore(DataFields(block), ParseField(line).value.1);
    } else {
      assert DataFields(block) + [] == DataFields(block);
    }
  }

  /** What the last event field of a block says, if it has one: a name, or none. */
  function Named(block: seq<string>): Option<Option<string>> {
    if block == [] then None
    else
      match ParseField(block[|block| - 1])
      case Some((key, value)) =>
        if key == "event" then Some(if value == "" then None else Some(value)) else Named(block[..|block| - 1])
      case None => Named(block[..|block| - 1])
  }

  /** The event in effect after a block that started with `event`. */
  function EventAfter(block: seq<string>, event: Option<string>): Option<string> {
    if Named(block).Some? then Named(block).value else event
  }

  /** The frames of a parser that forgets the event name at every empty line. */
  function OwnFrames(blocks: seq<seq<string>>): seq<Frame> {
    if blocks == [] then []
    else OwnFrames(blocks[..|blocks| - 1]) + FrameOf(blocks[|blocks| - 1], None)
  }

  /** The frame of a block that starts with an event name in effect, if it has data. */
  function FrameOf(block: seq<string>, event: Option<string>): seq<Frame> {
    if Data(block) == "" then [] else [Frame(EventAfter(block, event), Data(block))]
  }

  /** The name a block without data passes on. */
  function Carried(blocks: seq<seq<string>>): Option<string> {
    if blocks == [] then None
    else
      var b := blocks[|blocks| - 1];
      if Data(b) == "" then EventAfter(b, Carried(blocks[..|blocks| - 1])) else None
  }

  /** The frames of the parser as it is. */
  function BlockFrames(blocks: seq<seq<string>>): seq<Frame> {
    if blocks == [] then []
    else
      var before := blocks[..|blocks| - 1];
      BlockFrames(before) + FrameOf(blocks[|blocks| - 1], Carried(before))
  }

  /** The i-th block has a name and no data, and none after it has data or an event field. */
  predicate Carries(blocks: seq<seq<string>>, i: nat)
    requires i < |blocks|
  {
    && Data(blocks[i]) == "" && Named(blocks[i]).Some? && Named(blocks[i]).value.Some?
    && forall k | i < k < |blocks| :: Data(blocks[k]) == "" && Named(blocks[k]).None?
  }

  /** The j-th block has data and no event field, and the blocks before it carry a name from the i-th. */
  predicate Leaks(blocks: seq<seq<string>>, i: nat, j: nat)
    requires i < j < |blocks|
  {
    Carries(blocks[..j], i) && Data(blocks[j]) != "" && Named(blocks[j]).None?
  }

  predicate NoLeaks(blocks: seq<seq<string>>) {
    forall i, j | 0 <= i < j < |blocks| :: !Leaks(blocks, i, j)
  }

  lemma CarriesMore(before: seq<seq<string>>, b: seq<string>, i: nat)
    requires i <= |before|
    ensures Carries(before + [b], i)
       <==> if i < |before| then Carries(before, i) && Data(b) == "" && Named(b).None?
            else Data(b) == "" && Named(b).Some? && Named(b).value.Some?
  {
    hide Data, Named;
    var blocks := before + [b];
    assert forall k | 0 <= k < |before| :: before[k] == blocks[k];
    assert blocks[|before|] == b;
  }

  predicate SomeCarries(blocks: seq<seq<string>>) {
    exists i | 0 <= i < |blocks| :: Carries(blocks, i)
  }

  lemma SomeCarriesMore(before: seq<seq<string>>, b: seq<string>)
    ensures SomeCarries(before + [b])
       <==> Data(b) == "" && if Named(b).Some? then Named(b).value.Some? else SomeCarries(before)
  {
    hide Data, Named, Carries;
    forall i | 0 <= i <= |before|
      ensures Carries(before + [b], i)
         <==> if i < |before| then Carries(before, i) && Data(b) == "" && Named(b).None?
              else Data(b) == "" && Named(b).Some? && Named(b).value.Some?
    {
      CarriesMore(before, b, i);
    }
    if SomeCarries(before + [b]) {
      var i :| 0 <= i <= |before| && Carries(before + [b], i);
      assert i < |before| ==> Carries(before, i);
    }
    assert Data(b) == "" && Named(b).Some? && Named(b).value.Some? ==> Carries(before + [b], |before|);
    if Data(b) == "" && Named(b).None? && SomeCarries(before) {
      var i :| 0 <= i < |before| && Carries(before, i);
      assert Carries(before + [b], i);
    }
  }

  lemma {:induction false} CarriedFrom(blocks: seq<seq<string>>)
    ensures Carried(blocks).Some? <==> SomeCarries(blocks)
  {
    if blocks != [] {
      hide Data, Named, SomeCarries;
      var before, b := blocks[..|blocks| - 1], blocks[|blocks| - 1];
      assert blocks == before + [b];
      CarriedFrom(before);
      SomeCarriesMore(before, b);
    }
  }

  lemma {:induction false} SameLength(blocks: seq<seq<string>>)
    ensures |BlockFrames(blocks)| == |OwnFrames(blocks)|
  {
    if blocks != [] {
      SameLength(blocks[..|blocks| - 1]);
    }
  }

  lemma NoLeaksMore(blocks: seq<seq<string>>)
    requires blocks != []
    ensures var n := |blocks| - 1;
      NoLeaks(blocks) <==>
      NoLeaks(blocks[..n]) && (Data(blocks[n]) == "" || Named(blocks[n]).Some? || Carried(blocks[..n]).None?)
  {
    hide Data, Named, Carries;
    var n := |blocks| - 1;
    var before := blocks[..n];
    CarriedFrom(before);
    forall i, j | 0 <= i < j < n
      ensures Leaks(blocks, i, j) <==> Leaks(before, i, j)
    {
      assert before[..j] == blocks[..j];
    }
    if NoLeaks(blocks) {
      forall i | 0 <= i < n
        ensures !(Carries(before, i) && Data(blocks[n]) != "" && Named(blocks[n]).None?)
      {
        assert !Leaks(blocks, i, n);
      }
    } else {
      var i, j :| 0 <= i < j < |blocks| && Leaks(blocks, i, j);
      assert j < n ==> Leaks(before, i, j);
      assert j == n ==> Carries(before, i);
    }
  }

  lemma PairsEqual<T>(a: seq<T>, x: seq<T>, b: seq<T>, y: seq<T>)
    requires |a| == |b|
    ensures a + x == b + y <==> a == b && x == y
  {
    if a + x == b + y {
      assert a == (a + x)[..|a|] && x == (a + x)[|a|..];
      assert b == (b + y)[..|b|] && y == (b + y)[|b|..];
    }
  }

  lemma SameName(block: seq<string>, event: Option<string>)
    ensures FrameOf(block, event) == FrameOf(block, None) <==> Data(block) == "" || Named(block).Some? || event.None?
  {
    hide Data, Named;
  }

  /** Every frame has the name of its own block exactly when no block leaks its name. */
  lemma {:induction false} OwnNamesExactly(blocks: seq<seq<string>>)
    ensures BlockFrames(blocks) == OwnFrames(blocks) <==> NoLeaks(blocks)
  {
    if blocks != [] {
      hide Data, Named, NoLeaks, FrameOf, Carried;
      var before, b := blocks[..|blocks| - 1], blocks[|blocks| - 1];
      OwnNamesExactly(before);
      NoLeaksMore(blocks);
      SameLength(before);
      SameName(b, Carried(before));
      PairsEqual(BlockFrames(before), FrameOf(b, Carried(before)), OwnFrames(before), FrameOf(b, None));
    }
  }

  // --------------------------------------------------------- blocks of what is parsed

  predicate NoEmpty(block: seq<string>) {
    forall k | 0 <= k < |block| :: block[k] != ""
  }

  lemma NoData()
    ensures Data([]) == ""
  {
  }

  /** What the lines of a block add to a frame begun with an event name. */
  lemma {:induction false} TakeBlock(p: Progress, block: seq<string>)
    requires p.data == "" && NoEmpty(block)
    ensures TakeLines(p, block) == Progress(p.frames, EventAfter(block, p.event), Data(block))
  {
    if block != [] {
      hide ParseField, Data;
      TakeBlock(p, block[..|block| - 1]);
      assert block == block[..|block| - 1] + [block[|block| - 1]];
      DataMore(block[..|block| - 1], block[|block| - 1]);
    } else {
      NoData();
    }
  }

  /** Where the parser stands after some lines: the last block is the one being read. */
  function Standing(blocks: seq<seq<string>>): Progress
    requires blocks != []
  {
    var before, b := blocks[..|blocks| - 1], blocks[|blocks| - 1];
    Progress(BlockFrames(before), EventAfter(b, Carried(before)), Data(b))
  }

  lemma {:induction false} TakeByBlocks(lines: seq<string>)
    ensures TakeLines(Progress([], None, ""), lines) == Standing(Blocks(lines))
    ensures forall b | b in Blocks(lines) :: NoEmpty(b)
  {
    if lines != [] {
      hide ParseField, NoEmpty;
      var line := lines[|lines| - 1];
      var blocks := Blocks(lines[..|lines| - 1]);
      TakeByBlocks(lines[..|lines| - 1]);
      if line == "" {
        EmptyLine(blocks);
      } else {
        MoreOfBlock(blocks, line);
      }
    }
  }

  lemma EmptyLine(blocks: seq<seq<string>>)
    requires blocks != []
    ensures TakeLine(Standing(blocks), "") == Standing(blocks + [[]]) && NoEmpty([])
  {
    assert (blocks + [[]])[..|blocks|] == blocks;
    assert blocks == blocks[..|blocks| - 1] + [blocks[|blocks| - 1]];
  }

  lemma MoreOfBlock(blocks: seq<seq<string>>, line: string)
    requires blocks != [] && line != "" && forall b | b in blocks :: NoEmpty(b)
    ensures var more := blocks[..|blocks| - 1] + [blocks[|blocks| - 1] + [line]];
      TakeLine(Standing(blocks), line) == Standing(more) && forall b | b in more :: NoEmpty(b)
  {
    hide ParseField, Named, BlockFrames, Carried;
    var before, b := blocks[..|blocks| - 1], blocks[|blocks| - 1];
    var more := before + [b + [line]];
    assert b in blocks && NoEmpty(b + [line]);
    var p := Progress(BlockFrames(before), Carried(before), "");
    TakeBlock(p, b);
    TakeBlock(p, b + [line]);
    assert (b + [line])[..|b|] == b && more[..|more| - 1] == before;
  }

  lemma ParsedByBlocks(text: string)
    ensures Parsed(text) == BlockFrames(Blocks(Lines(text)))
  {
    hide Lines, Blocks, Named, Data;
    var blocks := Blocks(Lines(text));
    TakeByBlocks(Lines(text));
  }

  /** The parser gives every frame the event name of its own block exactly when no block before it leaves
      a name behind. */
  lemma ParsesOwnNames(text: string)
    ensures Parsed(text) == OwnFrames(Blocks(Lines(text))) <==> NoLeaks(Blocks(Lines(text)))
  {
    ParsedByBlocks(text);
    OwnNamesExactly(Blocks(Lines(text)));
  }

  /** Texts in which one does: a name, an empty line, and data of a frame without a name. */
  lemma NameLeaks(name: string, data: string)
    requires OneLine(name) && OneLine(data) && Clean(name) && Clean(data)
    ensures var text := "event: " + name + "\n" + "\n" + "data: " + data + "\n" + "\n";
      Parsed(text) == [Frame(Some(name), data)] && OwnFrames(Blocks(Lines(text))) == [Frame(None, data)]
  {
    hide Lines, Blocks, BlockFrames, OwnFrames, Parsed, StripCR, Clean, Arrives, ParseField;
    LeakyLines(name, data);
    FieldRoundTrip("event", name);
    FieldRoundTrip("data", data);
    ArrivesUnchanged(name);
    ArrivesUnchanged(data);
    assert "event" + ": " == "event: " && "data" + ": " == "data: ";
    var l, k := StripCR("event: " + name), StripCR("data: " + data);
    LeakyBlocks(l, k);
    LeakyFrames(l, name, k, data);
    ParsedByBlocks("event: " + name + "\n" + "\n" + "data: " + data + "\n" + "\n");
  }

  lemma LeakyLines(name: string, data: string)
    requires OneLine(name) && OneLine(data)
    ensures Lines("event: " + name + "\n" + "\n" + "data: " + data + "\n" + "\n")
         == [StripCR("event: " + name), "", StripCR("data: " + data), ""]
  {
    hide Lines, StripCR;
    var last := "" + "\n" + "";
    var third := "data: " + data + "\n" + last;
    var second := "" + "\n" + third;
    assert '\n' !in "event: " && '\n' !in "data: ";
    FirstLine("", "");
    FirstLine("data: " + data, last);
    FirstLine("", third);
    FirstLine("event: " + name, second);
    assert "event: " + name + "\n" + second == "event: " + name + "\n" + "\n" + "data: " + data + "\n" + "\n";
    NoLines();
    EmptyStrip();
  }

  lemma NoLines()
    ensures Lines("") == []
  {
  }

  lemma BlocksMore(lines: seq<string>, done: seq<seq<string>>, last: seq<string>, line: string)
    requires Blocks(lines) == done + [last]
    ensures Blocks(lines + [line]) == if line == "" then done + [last] + [[]] else done + [last + [line]]
  {
    var blocks := done + [last];
    assert (lines + [line])[..|lines|] == lines && blocks[..|blocks| - 1] == done && blocks[|blocks| - 1] == last;
  }

  lemma LeakyBlocks(l: string, k: string)
    requires l != "" && k != ""
    ensures Blocks([l, "", k, ""]) == [[l], [k], []]
  {
    NoBlocks();
    hide Blocks;
    BlocksMore([], [], [], l);
    BlocksMore([] + [l], [], [] + [l], "");
    BlocksMore([] + [l] + [""], [] + [[] + [l]], [], k);
    BlocksMore([] + [l] + [""] + [k], [] + [[] + [l]], [] + [k], "");
    OneByOne(l, "", k, "");
    OneByOne([] + [l], [] + [k], [], []);
  }

  lemma OneByOne<T>(a: T, b: T, c: T, d: T)
    ensures [] + [a] + [b] + [c] + [d] == [a, b, c, d]
    ensures [] + [a] + [b] + [c] == [a, b, c]
    ensures [] + [a] == [a] && [] + [c] == [c]
  {
  }

  lemma NoBlocks()
    ensures Blocks([]) == [] + [[]]
  {
  }

  lemma OneLineBlock(l: string)
    requires l != "" && ParseField(l).Some?
    ensures Data([l]) == if ParseField(l).value.0 == "data" then ParseField(l).value.1 else ""
    ensures Named([l]) == if ParseField(l).value.0 != "event" then None
                          else Some(if ParseField(l).value.1 == "" then None else Some(ParseField(l).value.1))
  {
    var b := [l];
    assert b[..|b| - 1] == [];
    hide ParseField, Data;
    NoData();
    DataMore([], l);
    assert [] + [l] == b;
  }

  lemma LeakyFrames(l: string, name: string, k: string, data: string)
    requires l != "" && ParseField(l) == Some(("event", name)) && name != ""
    requires k != "" && ParseField(k) == Some(("data", data)) && data != ""
    ensures BlockFrames([[l], [k], []]) == [Frame(Some(name), data)]
    ensures OwnFrames([[l], [k], []]) == [Frame(None, data)]
  {
    hide ParseField;
    var a, x := [l], [k];
    OneLineBlock(l);
    OneLineBlock(k);
    NoData();
    assert Named([]) == None;
    hide Data, Named;
    var none, one, two, three: seq<seq<string>> := [], [a], [a, x], [a, x, []];
    assert three[..|three| - 1] == two && two[..|two| - 1] == one && one[..|one| - 1] == none;
    assert three[|three| - 1] == [] && two[|two| - 1] == x && one[|one| - 1] == a;
    assert BlockFrames(none) == [] && OwnFrames(none) == [] && Carried(none) == None;
    assert FrameOf(a, None) == [] && FrameOf([], None) == [] && FrameOf([], Carried(two)) == [];
    assert BlockFrames(one) == BlockFrames(none) + FrameOf(a, Carried(none)) == [];
    assert OwnFrames(one) == OwnFrames(none) + FrameOf(a, None) == [];
    assert Carried(one) == Some(name);
    assert FrameOf(x, Some(name)) == [Frame(Some(name), data)] && FrameOf(x, None) == [Frame(None, data)];
    assert BlockFrames(two) == BlockFrames(one) + FrameOf(x, Carried(one));
    assert OwnFrames(two) == OwnFrames(one) + FrameOf(x, None);
    assert BlockFrames(three) == BlockFrames(two) + FrameOf([], Carried(two));
    assert OwnFrames(three) == OwnFrames(two) + FrameOf([], None);
  }
}
