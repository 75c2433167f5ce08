/** Line framing: what the read buffer of a connection delivers, whatever the sizes of the reads. */
module Framing {

  /** The position of the first line feed, or the length when there is none. */
  function FindNewline(s: string): (k: nat)
    ensures k <= |s|
    ensures forall i :: 0 <= i < k ==> s[i] != '\n'
    ensures k < |s| ==> s[k] == '\n'
  {
    if s == "" || s[0] == '\n' then 0 else 1 + FindNewline(s[1..])
  }

  /** The texts between the line feeds of a stream. */
  function RawLines(s: string): seq<string>
    decreases |s|
  {
    var k := FindNewline(s);
    if k == |s| then [] else [s[..k]] + RawLines(s[k + 1..])
  }

  /** The text after the last line feed. */
  function Tail(s: string): string
    decreases |s|
  {
    var k := FindNewline(s);
    if k == |s| then s else Tail(s[k + 1..])
  }

  function DropReturn(line: string): string {
    if line != "" && line[|line| - 1] == '\r' then line[..|line| - 1] else line
  }

  function DropReturns(lines: seq<string>): (r: seq<string>)
    ensures |r| == |lines|
    ensures forall i :: 0 <= i < |lines| ==> r[i] == DropReturn(lines[i])
  {
    seq(|lines|, i requires 0 <= i < |lines| => DropReturn(lines[i]))
  }

  function Lines(s: string): seq<string> {
    DropReturns(RawLines(s))
  }

  /** The bytes that sending some lines puts on the wire. */
  function Stream(lines: seq<string>): string {
    if lines == [] then "" else lines[0] + "\n" + Stream(lines[1..])
  }

  function Concat(chunks: seq<string>): string {
    if chunks == [] then "" else chunks[0] + Concat(chunks[1..])
  }

  predicate OneLine(s: string) {
    forall i :: 0 <= i < |s| ==> s[i] != '\n'
  }

  predicate NoFinalReturn(s: string) {
    s == "" || s[|s| - 1] != '\r'
  }

  /** The bytes of lines that end in a carriage return and a line feed. */
  function CrlfStream(lines: seq<string>): string {
    if lines == [] then "" else lines[0] + "\r\n" + CrlfStream(lines[1..])
  }

  datatype Received = Received(lines: seq<string>, buffer: string)

  /** Reading chunk after chunk: each one is appended to the buffer, and the complete lines are
      taken out of it. */
  function ReadAll(buffer: string, chunks: seq<string>): Received
    decreases chunks
  {
    if chunks == [] then Received([], buffer)
    else
      var now := buffer + chunks[0];
      var later := ReadAll(Tail(now), chunks[1..]);
      Received(Lines(now) + later.lines, later.buffer)
  }

  lemma FirstRawLine(s: string, k: nat)
    requires k == FindNewline(s) < |s|
    ensures RawLines(s) == [s[..k]] + RawLines(s[k + 1..])
  {
  }

  lemma FirstTail(s: string, k: nat)
    requires k == FindNewline(s) < |s|
    ensures Tail(s) == Tail(s[k + 1..])
  {
  }

  /** Taking one line out of a buffer of which the lines `raw` were taken before. */
  lemma TakeLine(all: string, raw: seq<string>, buffer: string, k: nat)
    requires k == FindNewline(buffer) < |buffer|
    requires RawLines(all) == raw + RawLines(buffer) && Tail(all) == Tail(buffer)
    ensures RawLines(all) == raw + [buffer[..k]] + RawLines(buffer[k + 1..])
    ensures Tail(all) == Tail(buffer[k + 1..])
    ensures DropReturns(raw + [buffer[..k]]) == DropReturns(raw) + [DropReturn(buffer[..k])]
  {
    FirstRawLine(buffer, k);
    FirstTail(buffer, k);
    Regroup(raw, [buffer[..k]], RawLines(buffer[k + 1..]));
    DropOneMore(raw, buffer[..k]);
  }

  lemma Regroup(a: seq<string>, b: seq<string>, c: seq<string>)
    ensures a + b + c == a + (b + c)
  {
  }

  lemma DropOneMore(lines: seq<string>, line: string)
    ensures DropReturns(lines + [line]) == DropReturns(lines) + [DropReturn(line)]
  {
  }

  // ----- Splitting is the inverse of joining ----------------------------------------------------

  /** The raw lines and the tail are a decomposition of the stream at its line feeds. */
  lemma {:induction false} SplitJoins(s: string)
    ensures Stream(RawLines(s)) + Tail(s) == s
    ensures forall l :: l in RawLines(s) ==> OneLine(l)
    ensures OneLine(Tail(s))
    decreases |s|
  {
    var k := FindNewline(s);
    if k < |s| {
      SplitJoins(s[k + 1..]);
      FirstRawLine(s, k);
      FirstTail(s, k);
      SplitAt(s, k);
      JoinStep(s[..k], RawLines(s[k + 1..]), Tail(s[k + 1..]));
    }
  }

  lemma SplitAt(s: string, k: nat)
    requires k < |s| && s[k] == '\n'
    ensures s == s[..k] + "\n" + s[k + 1..]
  {
  }

  lemma JoinStep(line: string, lines: seq<string>, tail: string)
    ensures Stream([line] + lines) + tail == line + "\n" + (Stream(lines) + tail)
  {
    assert ([line] + lines)[1..] == lines;
    Associates(line + "\n", Stream(lines), tail);
  }

  /** It is the only such decomposition. */
  lemma {:induction false} JoinSplits(lines: seq<string>, tail: string)
    requires forall l :: l in lines ==> OneLine(l)
    requires OneLine(tail)
    ensures RawLines(Stream(lines) + tail) == lines
    ensures Tail(Stream(lines) + tail) == tail
  {
    var s := Stream(lines) + tail;
    if lines == [] {
      assert s == tail;
    } else {
      var l := lines[0];
      var more := Stream(lines[1..]) + tail;
      assert s == l + "\n" + more;
      assert l in lines;
      assert FindNewline(s) == |l| by {
        assert s[|l|] == '\n';
        assert forall i :: 0 <= i < |l| ==> s[i] == l[i];
      }
      assert s[..|l|] == l && s[|l| + 1..] == more;
      assert forall x :: x in lines[1..] ==> x in lines;
      JoinSplits(lines[1..], tail);
    }
  }

  // ----- The sizes of the reads do not matter ---------------------------------------------------

  lemma SplitPrefix(s: string, more: string)
    ensures RawLines(s + more) == RawLines(s) + RawLines(Tail(s) + more)
    ensures Tail(s + more) == Tail(Tail(s) + more)
  {
    SplitJoins(s);
    SplitJoins(Tail(s) + more);
    JoinTwice(s, more, RawLines(s), Tail(s), RawLines(Tail(s) + more), Tail(Tail(s) + more));
  }

  lemma Associates(a: string, b: string, c: string)
    ensures a + b + c == a + (b + c)
  {
  }

  lemma JoinTwice(s: string, more: string, a: seq<string>, t: string, b: seq<string>, u: string)
    requires s == Stream(a) + t && t + more == Stream(b) + u
    requires (forall l :: l in a ==> OneLine(l)) && (forall l :: l in b ==> OneLine(l)) && OneLine(u)
    ensures RawLines(s + more) == a + b && Tail(s + more) == u
  {
    Associates(Stream(a), t, more);
    Associates(Stream(a), Stream(b), u);
    StreamAppend(a, b);
    JoinSplits(a + b, u);
  }

  lemma {:induction false} StreamAppend(a: seq<string>, b: seq<string>)
    ensures Stream(a + b) == Stream(a) + Stream(b)
  {
    if a == [] {
      assert a + b == b;
    } else {
      assert (a + b)[1..] == a[1..] + b;
      StreamAppend(a[1..], b);
    }
  }

  lemma LinesPrefix(s: string, more: string)
    ensures Lines(s + more) == Lines(s) + Lines(Tail(s) + more)
  {
    SplitPrefix(s, more);
  }

  /** For every stream and every way of cutting it into reads, the lines delivered are those of the
      whole stream, and the buffer ends as the text after the last line feed. */
  lemma {:induction false} ChunkingIsInvisible(buffer: string, chunks: seq<string>)
    requires OneLine(buffer)
    ensures ReadAll(buffer, chunks) == Received(Lines(buffer + Concat(chunks)), Tail(buffer + Concat(chunks)))
    decreases chunks
  {
    if chunks == [] {
      assert buffer + "" == Stream([]) + buffer;
      JoinSplits([], buffer);
    } else {
      var now := buffer + chunks[0];
      var more := Concat(chunks[1..]);
      SplitJoins(now);
      ChunkingIsInvisible(Tail(now), chunks[1..]);
      Associates(buffer, chunks[0], more);
      SplitPrefix(now, more);
      LinesPrefix(now, more);
    }
  }

  /** Lines without a line feed or a final carriage return arrive as they were sent, in the same
      order, and leave nothing in the buffer. */
  lemma FramingRoundTrip(lines: seq<string>, chunks: seq<string>)
    requires forall l :: l in lines ==> OneLine(l) && NoFinalReturn(l)
    requires Concat(chunks) == Stream(lines)
    ensures ReadAll("", chunks) == Received(lines, "")
  {
    ChunkingIsInvisible("", chunks);
    assert "" + Concat(chunks) == Stream(lines) + "";
    JoinSplits(lines, "");
    NothingDropped(lines);
  }

  lemma NothingDropped(lines: seq<string>)
    requires forall l :: l in lines ==> NoFinalReturn(l)
    ensures DropReturns(lines) == lines
  {
    forall i | 0 <= i < |lines| ensures DropReturn(lines[i]) == lines[i] {
      assert lines[i] in lines;
    }
  }

  /** One line arrives alone and unchanged exactly when it has no line feed and no final carriage
      return. */
  lemma LineSurvivesIff(line: string)
    ensures ReadAll("", [line + "\n"]) == Received([line], "")
       <==> OneLine(line) && NoFinalReturn(line)
  {
    OneRead(line + "\n");
    if OneLine(line) {
      assert Stream([line]) == line + "\n" + Stream([]);
      assert line + "\n" == Stream([line]) + "";
      JoinSplits([line], "");
    } else {
      LinesAreSingle(line + "\n");
    }
  }

  /** Of lines sent with a carriage return before the line feed exactly that carriage return goes: they
      arrive as they are, other carriage returns included, through any cut into reads. */
  lemma CrlfRoundTrip(lines: seq<string>, chunks: seq<string>)
    requires forall l :: l in lines ==> OneLine(l)
    requires Concat(chunks) == CrlfStream(lines)
    ensures ReadAll("", chunks) == Received(lines, "")
  {
    var sent := WithReturns(lines);
    ChunkingIsInvisible("", chunks);
    CrlfIsStream(lines);
    assert "" + Concat(chunks) == Stream(sent) + "";
    ReturnsDropped(lines);
    JoinSplits(sent, "");
  }

  lemma ReturnsDropped(lines: seq<string>)
    requires forall l :: l in lines ==> OneLine(l)
    ensures DropReturns(WithReturns(lines)) == lines
    ensures forall l :: l in WithReturns(lines) ==> OneLine(l)
  {
    var sent := WithReturns(lines);
    forall i | 0 <= i < |lines| ensures DropReturn(sent[i]) == lines[i] && OneLine(sent[i]) {
      assert lines[i] in lines;
      assert sent[i][..|sent[i]| - 1] == lines[i];
    }
  }

  function WithReturns(lines: seq<string>): (r: seq<string>)
    ensures |r| == |lines| && forall i :: 0 <= i < |lines| ==> r[i] == lines[i] + "\r"
  {
    if lines == [] then [] else [lines[0] + "\r"] + WithReturns(lines[1..])
  }

  lemma {:induction false} CrlfIsStream(lines: seq<string>)
    ensures CrlfStream(lines) == Stream(WithReturns(lines))
  {
    if lines != [] {
      CrlfIsStream(lines[1..]);
      assert WithReturns(lines)[1..] == WithReturns(lines[1..]);
      assert lines[0] + "\r\n" == lines[0] + "\r" + "\n";
    }
  }

  /** One line that ends in a carriage return and a line feed. */
  lemma CrlfLineArrives(l: string)
    requires OneLine(l)
    ensures ReadAll("", [l + "\r\n"]) == Received([l], "")
  {
    assert CrlfStream([l]) == l + "\r\n" + CrlfStream([]);
    assert Concat([l + "\r\n"]) == l + "\r\n" + Concat([]);
    CrlfRoundTrip([l], [l + "\r\n"]);
  }

  lemma OneRead(s: string)
    ensures ReadAll("", [s]) == Received(Lines(s), Tail(s))
  {
    assert "" + s == s;
    assert ReadAll(Tail(s), [s][1..]) == Received([], Tail(s));
  }

  lemma LinesAreSingle(s: string)
    ensures forall l :: l in Lines(s) ==> OneLine(l)
  {
    SplitJoins(s);
    forall l | l in Lines(s) ensures OneLine(l) {
      var i :| 0 <= i < |Lines(s)| && Lines(s)[i] == l;
      assert RawLines(s)[i] in RawLines(s);
    }
  }
}
