/** The text of frame paths, invocation ids, task ids and branch names, and a decoder that shows that the
    text determines what it names, whatever characters the names contain. The other modules use the
    structured ids. */
module Identity {
  import opened Wrappers
  import opened GraphCore
  import Decimal

  // ------------------------------------------------------------------ JSON strings

  function HexDigit(d: nat): char
    requires d < 16
  {
    if d < 10 then ('0' as int + d) as char else ('a' as int + d - 10) as char
  }

  function HexValue(c: char): Option<nat> {
    if '0' <= c <= '9' then Some(c as nat - '0' as nat)
    else if 'a' <= c <= 'f' then Some(c as nat - 'a' as nat + 10)
    else None
  }

  const BACKSPACE: char := 8 as char
  const FORM_FEED: char := 12 as char

  function Escape(c: char): string {
    if c == '"' then "\\\""
    else if c == '\\' then "\\\\"
    else if c == BACKSPACE then "\\b"
    else if c == FORM_FEED then "\\f"
    else if c == '\n' then "\\n"
    else if c == '\r' then "\\r"
    else if c == '\t' then "\\t"
    else if c < ' ' then "\\u00" + [HexDigit(c as nat / 16), HexDigit(c as nat % 16)]
    else [c]
  }

  function EscapeAll(s: string): string {
    if s == "" then "" else Escape(s[0]) + EscapeAll(s[1..])
  }

  function Quote(s: string): string {
    "\"" + EscapeAll(s) + "\""
  }

  /** Reads one escaped character; the rest follows. */
  function ReadChar(s: string): (r: Option<(char, string)>)
    ensures r.Some? ==> |r.value.1| < |s|
  {
    if s == "" then None
    else if s[0] != '\\' then Some((s[0], s[1..]))
    else if |s| < 2 then None
    else
      match s[1]
      case '"' => Some(('"', s[2..]))
      case '\\' => Some(('\\', s[2..]))
      case 'b' => Some((BACKSPACE, s[2..]))
      case 'f' => Some((FORM_FEED, s[2..]))
      case 'n' => Some(('\n', s[2..]))
      case 'r' => Some(('\r', s[2..]))
      case 't' => Some(('\t', s[2..]))
      case 'u' =>
        if |s| >= 6 && s[2] == '0' && s[3] == '0' && HexValue(s[4]).Some? && HexValue(s[5]).Some?
        then Some(((16 * HexValue(s[4]).value + HexValue(s[5]).value) as char, s[6..]))
        else None
      case _ => None
  }

  /** Reads up to the closing quote. */
  function ReadBody(s: string): (r: Option<(string, string)>)
    ensures r.Some? ==> |r.value.1| < |s|
  {
    if s == "" then None
    else if s[0] == '"' then Some(("", s[1..]))
    else
      match ReadChar(s)
      case None => None
      case Some((c, rest)) =>
        match ReadBody(rest)
        case None => None
        case Some((more, after)) => Some(([c] + more, after))
  }

  function ReadQuoted(s: string): (r: Option<(string, string)>)
    ensures r.Some? ==> |r.value.1| < |s|
  {
    if s != "" && s[0] == '"' then ReadBody(s[1..]) else None
  }

  lemma CharRoundTrip(c: char, rest: string)
    ensures Escape(c) != "" && Escape(c)[0] != '"'
    ensures ReadChar(Escape(c) + rest) == Some((c, rest))
  {
  }

  lemma {:induction false} BodyRoundTrip(s: string, rest: string)
    ensures ReadBody(EscapeAll(s) + "\"" + rest) == Some((s, rest))
  {
    if s == "" {
      assert ("\"" + rest)[1..] == rest;
    } else {
      hide Escape, ReadChar;
      var tail := EscapeAll(s[1..]) + "\"" + rest;
      CharRoundTrip(s[0], tail);
      BodyRoundTrip(s[1..], rest);
      assert EscapeAll(s) + "\"" + rest == Escape(s[0]) + tail;
      assert s == [s[0]] + s[1..];
    }
  }

  lemma QuotedRoundTrip(s: string, rest: string)
    ensures ReadQuoted(Quote(s) + rest) == Some((s, rest))
  {
    BodyRoundTrip(s, rest);
    assert (Quote(s) + rest)[1..] == EscapeAll(s) + "\"" + rest;
  }

  // ----------------------------------------------------------------------- numbers

  function DigitsIn(s: string): (k: nat)
    ensures k <= |s| && forall i | 0 <= i < k :: Decimal.IsDigit(s[i])
  {
    if s != "" && Decimal.IsDigit(s[0]) then 1 + DigitsIn(s[1..]) else 0
  }

  function ReadNumber(s: string): Option<(nat, string)> {
    var k := DigitsIn(s);
    if k == 0 then None else Some((Decimal.Value(s[..k]), s[k..]))
  }

  lemma {:induction false} DigitsThen(d: string, rest: string)
    requires forall c | c in d :: Decimal.IsDigit(c)
    requires rest == "" || !Decimal.IsDigit(rest[0])
    ensures DigitsIn(d + rest) == |d|
  {
    if d != "" {
      assert d[0] in d && forall c | c in d[1..] :: c in d;
      assert (d + rest)[1..] == d[1..] + rest;
      DigitsThen(d[1..], rest);
    } else {
      assert d + rest == rest;
    }
  }

  lemma NumberRoundTrip(n: nat, rest: string)
    requires rest == "" || !Decimal.IsDigit(rest[0])
    ensures ReadNumber(Decimal.Render(n) + rest) == Some((n, rest))
  {
    var d := Decimal.Render(n);
    DigitsThen(d, rest);
    Decimal.ValueOfRender(n);
    assert (d + rest)[..|d|] == d && (d + rest)[|d|..] == rest;
  }

  // ------------------------------------------------------------------------- pairs

  /** A node and the number of its invocation, as a JSON pair. */
  function Pair(node: string, invocation: nat): string {
    "[" + Quote(node) + "," + Decimal.Render(invocation) + "]"
  }

  function ReadPair(s: string): (r: Option<(string, nat, string)>)
    ensures r.Some? ==> |r.value.2| < |s|
  {
    if s == "" || s[0] != '[' then None
    else
      match ReadQuoted(s[1..])
      case None => None
      case Some((node, rest)) =>
        if rest == "" || rest[0] != ',' then None
        else
          match ReadNumber(rest[1..])
          case None => None
          case Some((n, after)) =>
            if after == "" || after[0] != ']' then None else Some((node, n, after[1..]))
  }

  lemma PairRoundTrip(node: string, invocation: nat, rest: string)
    ensures ReadPair(Pair(node, invocation) + rest) == Some((node, invocation, rest))
  {
    hide ReadQuoted, ReadNumber;
    var s := Pair(node, invocation) + rest;
    var number := Decimal.Render(invocation) + ("]" + rest);
    QuotedRoundTrip(node, "," + number);
    NumberRoundTrip(invocation, "]" + rest);
    assert s[1..] == Quote(node) + ("," + number);
    assert ("," + number)[1..] == number;
    assert ("]" + rest)[1..] == rest;
  }

  /** The name of the child frame of a parallel branch. */
  function BranchName(index: nat, name: string): string {
    "[" + Decimal.Render(index) + "," + Quote(name) + "]"
  }

  function ReadBranch(s: string): Option<(nat, string)> {
    if s == "" || s[0] != '[' then None
    else
      match ReadNumber(s[1..])
      case None => None
      case Some((n, rest)) =>
        if rest == "" || rest[0] != ',' then None
        else
          match ReadQuoted(rest[1..])
          case None => None
          case Some((name, after)) => if after == "]" then Some((n, name)) else None
  }

  lemma BranchRoundTrip(index: nat, name: string)
    ensures ReadBranch(BranchName(index, name)) == Some((index, name))
  {
    hide ReadQuoted, ReadNumber;
    var quoted := Quote(name) + "]";
    NumberRoundTrip(index, "," + quoted);
    QuotedRoundTrip(name, "]");
    assert BranchName(index, name)[1..] == Decimal.Render(index) + ("," + quoted);
    assert ("," + quoted)[1..] == quoted;
  }

  // --------------------------------------------------------------------------- ids

  function RenderPath(p: Path): string {
    match p
    case Root => "root"
    case Child(parent, node, invocation, name) =>
      RenderPath(parent) + ":" + Pair(node, invocation) + ":" + Quote(name)
  }

  function RenderInvocation(id: InvocationId): string {
    RenderPath(id.frame) + ":" + Pair(id.node, id.invocation)
  }

  function RenderTask(id: TaskId): string {
    RenderInvocation(id.at) + ":" + Quote(id.slot)
  }

  datatype Decoded = OfFrame(path: Path) | OfNode(id: InvocationId)

  /** Reads what follows a frame path. */
  function Read(s: string, p: Path): Option<Decoded>
    decreases |s|
  {
    if s == "" then Some(OfFrame(p))
    else if s[0] != ':' then None
    else
      match ReadPair(s[1..])
      case None => None
      case Some((node, invocation, rest)) =>
        if rest == "" then Some(OfNode(InvocationId(p, node, invocation)))
        else if rest[0] != ':' then None
        else
          match ReadQuoted(rest[1..])
          case None => None
          case Some((name, after)) => Read(after, Child(p, node, invocation, name))
  }

  function Decode(s: string): Option<Decoded> {
    if |s| >= 4 && s[..4] == "root" then Read(s[4..], Root) else None
  }

  lemma ReadSegment(p: Path, node: string, invocation: nat, name: string, rest: string)
    ensures Read(":" + Pair(node, invocation) + ":" + Quote(name) + rest, p)
         == Read(rest, Child(p, node, invocation, name))
    ensures Read(":" + Pair(node, invocation), p) == Some(OfNode(InvocationId(p, node, invocation)))
  {
    hide ReadQuoted, ReadPair, Pair, Quote;
    var tail := Quote(name) + rest;
    PairRoundTrip(node, invocation, ":" + tail);
    QuotedRoundTrip(name, rest);
    var s := ":" + Pair(node, invocation) + ":" + Quote(name) + rest;
    assert s[1..] == Pair(node, invocation) + (":" + tail);
    assert (":" + tail)[1..] == tail;
    PairRoundTrip(node, invocation, "");
    assert (":" + Pair(node, invocation))[1..] == Pair(node, invocation) + "";
  }

  lemma RootThen(rest: string)
    ensures Decode("root" + rest) == Read(rest, Root)
  {
  }

  lemma {:induction false} PathThen(p: Path, rest: string)
    ensures Decode(RenderPath(p) + rest) == Read(rest, p)
  {
    hide Decode, Read, Pair, Quote;
    match p {
      case Root => RootThen(rest);
      case Child(parent, node, invocation, name) =>
        var tail := ":" + Pair(node, invocation) + ":" + Quote(name) + rest;
        PathThen(parent, tail);
        ReadSegment(parent, node, invocation, name, rest);
        assert RenderPath(p) + rest == RenderPath(parent) + tail;
    }
  }

  lemma PathRoundTrip(p: Path)
    ensures Decode(RenderPath(p)) == Some(OfFrame(p))
  {
    PathThen(p, "");
    assert RenderPath(p) + "" == RenderPath(p);
  }

  lemma InvocationRoundTrip(id: InvocationId)
    ensures Decode(RenderInvocation(id)) == Some(OfNode(id))
  {
    hide Decode, Read, Pair, Quote;
    PathThen(id.frame, ":" + Pair(id.node, id.invocation));
    ReadSegment(id.frame, id.node, id.invocation, "", "");
    assert RenderPath(id.frame) + (":" + Pair(id.node, id.invocation)) == RenderInvocation(id);
  }

  /** A task id reads like the path of the child frame of that name; the two are keys of different maps. */
  lemma TaskRoundTrip(id: TaskId)
    ensures Decode(RenderTask(id)) == Some(OfFrame(Child(id.at.frame, id.at.node, id.at.invocation, id.slot)))
  {
    hide Pair, Quote;
    PathRoundTrip(Child(id.at.frame, id.at.node, id.at.invocation, id.slot));
  }

  /** Distinct ids have distinct texts. */
  lemma Injective(p: Path, q: Path, i: InvocationId, j: InvocationId, s: TaskId, t: TaskId, m: nat, a: string,
                  n: nat, b: string)
    ensures RenderPath(p) == RenderPath(q) ==> p == q
    ensures RenderInvocation(i) == RenderInvocation(j) ==> i == j
    ensures RenderTask(s) == RenderTask(t) ==> s == t
    ensures RenderPath(p) != RenderInvocation(i)
    ensures BranchName(m, a) == BranchName(n, b) ==> m == n && a == b
  {
    PathRoundTrip(p);
    PathRoundTrip(q);
    InvocationRoundTrip(i);
    InvocationRoundTrip(j);
    TaskRoundTrip(s);
    TaskRoundTrip(t);
    BranchRoundTrip(m, a);
    BranchRoundTrip(n, b);
  }
}
