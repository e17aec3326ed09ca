/** The line framer of the editor plugin (`clientStdoutHandler`,
    plugins/vscode/smartshare/src/extension.ts:58-77): the client's output
    arrives in chunks, is cut at newlines, and every non-empty line is
    decoded and handed over while it is a message.  `decode` stands for
    `JSON.parse`; `None` is a line it throws on. */
module Framer {
  import opened Common
  import opened EditorMessage

  // ---------------------------------------------------------------------
  // Lines
  // ---------------------------------------------------------------------

  /** `String.prototype.split("\n")`. */
  function Split(s: string): (r: seq<string>)
    ensures |r| >= 1
    decreases |s|
  {
    if s == [] then [""]
    else
      var rest := Split(s[1..]);
      if s[0] == '\n' then [""] + rest
      else [[s[0]] + rest[0]] + rest[1..]
  }

  /** The pieces joined back with newlines between them. */
  function Join(ls: seq<string>): string
    requires |ls| >= 1
    decreases |ls|
  {
    if |ls| == 1 then ls[0] else ls[0] + "\n" + Join(ls[1..])
  }

  /** Splitting loses nothing: the pieces join back into the text. */
  lemma {:induction false} JoinSplit(s: string)
    ensures Join(Split(s)) == s
    decreases |s|
  {
    if s != [] {
      JoinSplit(s[1..]);
      var rest := Split(s[1..]);
      if s[0] == '\n' {
        assert ([""] + rest)[1..] == rest;
      } else {
        if |rest| == 1 {
          assert [s[0]] + s[1..] == s;
        } else {
          var r := [[s[0]] + rest[0]] + rest[1..];
          assert r[1..] == rest[1..];
          assert Join(rest) == rest[0] + "\n" + Join(rest[1..]);
          assert s == [s[0]] + s[1..];
        }
      }
    }
  }

  /** A text with no newline is one piece. */
  lemma {:induction false} SplitLine(s: string)
    requires '\n' !in s
    ensures Split(s) == [s]
    decreases |s|
  {
    if s != [] {
      assert s[1..] == s[1..] && forall k :: 0 <= k < |s[1..]| ==> s[1..][k] == s[k + 1];
      SplitLine(s[1..]);
      assert [s[0]] + s[1..] == s;
    }
  }

  /** No piece holds a newline. */
  lemma {:induction false} SplitPieces(s: string)
    ensures forall k :: 0 <= k < |Split(s)| ==> '\n' !in Split(s)[k]
    decreases |s|
  {
    if s != [] {
      SplitPieces(s[1..]);
      var rest := Split(s[1..]);
      if s[0] != '\n' {
        assert forall k :: 1 <= k < |Split(s)| ==> Split(s)[k] == rest[k];
        assert Split(s)[0] == [s[0]] + rest[0];
      }
    }
  }

  /** The pieces of two texts, the last piece of the first meeting the
      first piece of the second. */
  function Meet(sa: seq<string>, sb: seq<string>): seq<string>
    requires |sa| >= 1 && |sb| >= 1
  {
    sa[..|sa| - 1] + [sa[|sa| - 1] + sb[0]] + sb[1..]
  }

  lemma MeetCons(x: string, sa: seq<string>, sb: seq<string>)
    requires |sa| >= 1 && |sb| >= 1
    ensures [x] + Meet(sa, sb) == Meet([x] + sa, sb)
  {
    assert ([x] + sa)[..|sa|] == [x] + sa[..|sa| - 1];
  }

  lemma MeetJoin(c: char, sa: seq<string>, sb: seq<string>)
    requires |sa| >= 1 && |sb| >= 1
    ensures var m := Meet(sa, sb); [[c] + m[0]] + m[1..] == Meet([[c] + sa[0]] + sa[1..], sb)
  {
    var m := Meet(sa, sb);
    if |sa| == 1 {
      assert m == [sa[0] + sb[0]] + sb[1..];
      assert [c] + (sa[0] + sb[0]) == ([c] + sa[0]) + sb[0];
    } else {
      assert m[0] == sa[0];
      assert m[1..] == sa[1..|sa| - 1] + [sa[|sa| - 1] + sb[0]] + sb[1..];
    }
  }

  /** Splitting a concatenation: the last piece of the first text and the
      first piece of the second one meet in one piece. */
  lemma {:induction false} SplitAppend(a: string, b: string)
    ensures Split(a + b) == Meet(Split(a), Split(b))
    decreases |a|
  {
    var sb := Split(b);
    if a == [] {
      assert a + b == b;
      assert [] + sb[0] == sb[0];
      assert [sb[0]] + sb[1..] == sb;
    } else {
      var ab := a + b;
      assert ab[0] == a[0] && ab[1..] == a[1..] + b;
      SplitAppend(a[1..], b);
      if a[0] == '\n' {
        MeetCons("", Split(a[1..]), sb);
      } else {
        MeetJoin(a[0], Split(a[1..]), sb);
      }
    }
  }

  /** The newline-terminated lines of a text. */
  function CompleteLines(t: string): seq<string> {
    var ls := Split(t);
    ls[..|ls| - 1]
  }

  /** What follows the last newline of a text. */
  function Partial(t: string): string {
    var ls := Split(t);
    ls[|ls| - 1]
  }

  /** Meeting the pieces of two texts only touches the last piece of the
      first one. */
  lemma MeetLast(sa: seq<string>, sb: seq<string>)
    requires |sa| >= 1 && |sb| >= 1
    ensures Meet(sa, sb) == sa[..|sa| - 1] + Meet([sa[|sa| - 1]], sb)
  {
  }

  /** What follows the last newline holds no newline. */
  lemma PartialOneLine(a: string)
    ensures '\n' !in Partial(a)
    ensures Split(Partial(a)) == [Partial(a)]
  {
    SplitPieces(a);
    SplitLine(Partial(a));
  }

  /** The pieces of a concatenation: the complete lines of the first text,
      then the pieces of what it leaves unterminated followed by the
      second text. */
  lemma SplitAfterLines(a: string, b: string)
    ensures Split(a + b) == CompleteLines(a) + Split(Partial(a) + b)
    ensures Split(Partial(a) + b) != []
  {
    var sa := Split(a);
    var sb := Split(b);
    var p := Partial(a);
    var m := Meet([p], sb);
    assert Split(a + b) == CompleteLines(a) + m by {
      SplitAppend(a, b);
      MeetLast(sa, sb);
    }
    assert Split(p + b) == m by {
      PartialOneLine(a);
      SplitAppend(p, b);
    }
  }

  /** The complete lines of a concatenation are those of the first text and
      then those of what the first text leaves unterminated followed by the
      second text; the unterminated rest is the same. */
  lemma CompleteLinesAppend(a: string, b: string)
    ensures CompleteLines(a + b) == CompleteLines(a) + CompleteLines(Partial(a) + b)
    ensures Partial(a + b) == Partial(Partial(a) + b)
  {
    SplitAfterLines(a, b);
    SeqDropLast(CompleteLines(a), Split(Partial(a) + b));
  }

  /** A text that ends with a newline leaves nothing after it. */
  lemma PartialAfterNewline(t: string)
    requires t != [] && t[|t| - 1] == '\n'
    ensures Partial(t) == ""
  {
    var u := t[..|t| - 1];
    SeqLast(t);
    SplitAppend(u, "\n");
    SplitNewline();
  }

  // ---------------------------------------------------------------------
  // The loop over the lines
  // ---------------------------------------------------------------------

  /** How the loop over one chunk's lines ended. */
  datatype Stop = Finished | Broke | Threw(line: string)

  datatype Outcome = Outcome(values: seq<Value>, stop: Stop)

  /** The body of the `for` loop, for a message test `accepts`: an empty
      line is skipped, a line `JSON.parse` throws on ends the handler, a
      value the test refuses ends the loop, and one it accepts is handed
      over. */
  function ProcessWith(items: seq<string>, decode: string -> Option<Value>, accepts: Value -> bool): (r: Outcome)
    ensures forall k :: 0 <= k < |r.values| ==> accepts(r.values[k])
    ensures |r.values| <= |items|
    ensures r.stop.Threw? ==> r.stop.line in items
    decreases |items|
  {
    if items == [] then Outcome([], Finished)
    else if items[0] == "" then ProcessWith(items[1..], decode, accepts)
    else
      match decode(items[0])
      case None => Outcome([], Threw(items[0]))
      case Some(v) =>
        if !accepts(v) then Outcome([], Broke)
        else
          var rest := ProcessWith(items[1..], decode, accepts);
          Outcome([v] + rest.values, rest.stop)
  }

  /** The loop with the intended test of `isMessage`. */
  function Process(items: seq<string>, decode: string -> Option<Value>): (r: Outcome)
    ensures forall k :: 0 <= k < |r.values| ==> IsMessage(r.values[k])
  {
    ProcessWith(items, decode, IsMessage)
  }

  /** Every non-empty line decodes to a message. */
  predicate Clean(items: seq<string>, decode: string -> Option<Value>) {
    forall k :: 0 <= k < |items| && items[k] != "" ==>
      decode(items[k]).Some? && IsMessage(decode(items[k]).value)
  }

  /** The messages of the non-empty lines, in order. */
  function Decoded(items: seq<string>, decode: string -> Option<Value>): seq<Value>
    requires Clean(items, decode)
    decreases |items|
  {
    if items == [] then []
    else if items[0] == "" then Decoded(items[1..], decode)
    else [decode(items[0]).value] + Decoded(items[1..], decode)
  }

  /** When every line is a message, the loop hands over the message of
      every non-empty line, in order, and never parses an empty one. */
  lemma {:induction false} ProcessClean(items: seq<string>, decode: string -> Option<Value>)
    requires Clean(items, decode)
    ensures Process(items, decode) == Outcome(Decoded(items, decode), Finished)
    decreases |items|
  {
    if items != [] {
      assert Clean(items[1..], decode) by {
        forall k | 0 <= k < |items[1..]| && items[1..][k] != ""
          ensures decode(items[1..][k]).Some? && IsMessage(decode(items[1..][k]).value)
        {
          assert items[1..][k] == items[k + 1];
        }
      }
      ProcessClean(items[1..], decode);
    }
  }

  /** The loop stops at the first line that is not a message: the lines
      before it are handed over, the rest of the chunk is not looked at. */
  lemma {:induction false} ProcessStops(items: seq<string>, k: nat, decode: string -> Option<Value>)
    requires k < |items| && items[k] != "" && Clean(items[..k], decode)
    requires decode(items[k]).None? || !IsMessage(decode(items[k]).value)
    ensures Process(items, decode).values == Decoded(items[..k], decode)
    ensures Process(items, decode).stop == if decode(items[k]).None? then Threw(items[k]) else Broke
    decreases k
  {
    if k > 0 {
      assert items[1..][..k - 1] == items[..k][1..];
      assert items[1..][k - 1] == items[k];
      assert Clean(items[..k][1..], decode) by {
        forall j | 0 <= j < |items[..k][1..]| && items[..k][1..][j] != ""
          ensures decode(items[..k][1..][j]).Some? && IsMessage(decode(items[..k][1..][j]).value)
        {
          assert items[..k][1..][j] == items[..k][j + 1];
        }
      }
      ProcessStops(items[1..], k - 1, decode);
      assert items[..k][0] == items[0];
    }
  }

  lemma CleanTail(x: seq<string>, decode: string -> Option<Value>)
    requires x != [] && Clean(x, decode)
    ensures Clean(x[1..], decode)
  {
    forall k | 0 <= k < |x[1..]| && x[1..][k] != ""
      ensures decode(x[1..][k]).Some? && IsMessage(decode(x[1..][k]).value)
    {
      assert x[1..][k] == x[k + 1];
    }
  }

  lemma CleanAppend(x: seq<string>, y: seq<string>, decode: string -> Option<Value>)
    requires Clean(x, decode) && Clean(y, decode)
    ensures Clean(x + y, decode)
  {
    forall k | 0 <= k < |x + y| && (x + y)[k] != ""
      ensures decode((x + y)[k]).Some? && IsMessage(decode((x + y)[k]).value)
    {
      if k < |x| {
        assert (x + y)[k] == x[k];
      } else {
        assert (x + y)[k] == y[k - |x|];
      }
    }
  }

  lemma {:induction false} DecodedAppend(x: seq<string>, y: seq<string>, decode: string -> Option<Value>)
    requires Clean(x, decode) && Clean(y, decode)
    ensures Clean(x + y, decode)
    ensures Decoded(x + y, decode) == Decoded(x, decode) + Decoded(y, decode)
    decreases |x|
  {
    CleanAppend(x, y, decode);
    if x != [] {
      SeqConsAppend(x, y);
      CleanTail(x, decode);
      DecodedAppend(x[1..], y, decode);
    } else {
      assert x + y == y;
    }
  }

  // ---------------------------------------------------------------------
  // One chunk
  // ---------------------------------------------------------------------

  /** What handling one chunk gives: the values handed over, in order, and
      the text kept for the next chunk. */
  datatype Framed = Framed(values: seq<Value>, carry: string)

  /** The framing as written, under the intended test of `isMessage`.  The
      last piece of the chunk is looked at like every other line and then
      kept for the next chunk as well; a line `JSON.parse` throws on is
      kept instead. */
  function FrameAsWritten(carry: string, chunk: string, decode: string -> Option<Value>): (r: Framed)
    ensures forall k :: 0 <= k < |r.values| ==> IsMessage(r.values[k])
  {
    var ls := Split(chunk);
    var o := Process([carry + ls[0]] + ls[1..], decode);
    Framed(o.values, if o.stop.Threw? then o.stop.line else ls[|ls| - 1])
  }

  /** The handler exactly as written: the framing above with the test of
      `isMessage` as written.  Only values that are not messages of the
      protocol get through it. */
  function FrameAsShipped(carry: string, chunk: string, decode: string -> Option<Value>): (r: Framed)
    ensures forall k :: 0 <= k < |r.values| ==> r.values[k].Junk? && IsMessageAsWritten(r.values[k])
  {
    var ls := Split(chunk);
    var o := ProcessWith([carry + ls[0]] + ls[1..], decode, IsMessageAsWritten);
    assert forall k :: 0 <= k < |o.values| ==> o.values[k].Junk? by {
      forall k | 0 <= k < |o.values|
        ensures o.values[k].Junk?
      {
        IsMessageAsWrittenExactly(o.values[k]);
      }
    }
    Framed(o.values, if o.stop.Threw? then o.stop.line else ls[|ls| - 1])
  }

  /** The handler as intended: only newline-terminated lines are looked at;
      what follows the last newline waits, after what was already waiting,
      for the rest of its line. */
  function Frame(carry: string, chunk: string, decode: string -> Option<Value>): (r: Framed)
    ensures forall k :: 0 <= k < |r.values| ==> IsMessage(r.values[k])
  {
    var ls := Split(chunk);
    if |ls| == 1 then Framed([], carry + ls[0])
    else
      var o := Process([carry + ls[0]] + ls[1..|ls| - 1], decode);
      Framed(o.values, if o.stop.Threw? then o.stop.line else ls[|ls| - 1])
  }

  /** The lines the intended handler looks at are the complete lines of the
      waiting text followed by the chunk; without a failing line, what is
      kept is what follows their last newline. */
  lemma FrameLines(carry: string, chunk: string, decode: string -> Option<Value>)
    requires '\n' !in carry
    ensures Frame(carry, chunk, decode).values == Process(CompleteLines(carry + chunk), decode).values
    ensures !Process(CompleteLines(carry + chunk), decode).stop.Threw? ==>
      Frame(carry, chunk, decode).carry == Partial(carry + chunk)
  {
    var ls := Split(chunk);
    SplitLine(carry);
    SplitAppend(carry, chunk);
    var st := Split(carry + chunk);
    assert st == [carry + ls[0]] + ls[1..];
    if |ls| == 1 {
      assert CompleteLines(carry + chunk) == [];
    } else {
      assert CompleteLines(carry + chunk) == [carry + ls[0]] + ls[1..|ls| - 1];
    }
  }

  /** A chunk without a newline hands nothing over and waits. */
  lemma FrameNoNewline(carry: string, chunk: string, decode: string -> Option<Value>)
    requires '\n' !in chunk
    ensures Frame(carry, chunk, decode) == Framed([], carry + chunk)
  {
    SplitLine(chunk);
  }

  /** What is kept for the next chunk never holds a newline. */
  lemma FrameKeepsOneLine(carry: string, chunk: string, decode: string -> Option<Value>)
    requires '\n' !in carry
    ensures '\n' !in Frame(carry, chunk, decode).carry
  {
    var ls := Split(chunk);
    SplitPieces(chunk);
    assert '\n' !in carry + ls[0];
    if |ls| > 1 {
      var items := [carry + ls[0]] + ls[1..|ls| - 1];
      assert forall k :: 0 <= k < |items| ==> '\n' !in items[k] by {
        forall k | 0 <= k < |items| ensures '\n' !in items[k] {
          if k > 0 {
            assert items[k] == ls[k];
          }
        }
      }
    }
  }

  /** A chunk ending in a newline leaves nothing waiting unless a line
      fails to parse. */
  lemma FrameEndsWithNewline(carry: string, chunk: string, decode: string -> Option<Value>)
    requires '\n' !in carry && chunk != [] && chunk[|chunk| - 1] == '\n'
    requires !Process(CompleteLines(carry + chunk), decode).stop.Threw?
    ensures Frame(carry, chunk, decode).carry == ""
  {
    FrameLines(carry, chunk, decode);
    PartialAfterNewline(carry + chunk);
  }

  lemma CleanParts(x: seq<string>, y: seq<string>, decode: string -> Option<Value>)
    requires Clean(x + y, decode)
    ensures Clean(x, decode) && Clean(y, decode)
  {
    assert forall k :: 0 <= k < |x| ==> (x + y)[k] == x[k];
    assert forall k :: 0 <= k < |y| ==> (x + y)[|x| + k] == y[k];
  }

  /** When every complete line is a message, the intended handler hands
      over their messages in order and keeps what follows the last
      newline. */
  lemma FrameClean(carry: string, chunk: string, decode: string -> Option<Value>)
    requires '\n' !in carry && Clean(CompleteLines(carry + chunk), decode)
    ensures Frame(carry, chunk, decode) == Framed(Decoded(CompleteLines(carry + chunk), decode), Partial(carry + chunk))
  {
    ProcessClean(CompleteLines(carry + chunk), decode);
    FrameLines(carry, chunk, decode);
  }

  /** The intended handler does not depend on where the stream was cut into
      chunks: when every complete line is a message, two chunks hand over
      what their concatenation would, and leave the same text waiting. */
  lemma FrameSplitIndependent(carry: string, a: string, b: string, decode: string -> Option<Value>)
    requires '\n' !in carry
    requires Clean(CompleteLines(carry + a + b), decode)
    ensures var f1 := Frame(carry, a, decode);
      var f2 := Frame(f1.carry, b, decode);
      var f := Frame(carry, a + b, decode);
      f1.values + f2.values == f.values && f2.carry == f.carry
  {
    var t := carry + a;
    assert carry + (a + b) == t + b;
    CompleteLinesAppend(t, b);
    var x := CompleteLines(t);
    var y := CompleteLines(Partial(t) + b);
    CleanParts(x, y, decode);
    DecodedAppend(x, y, decode);
    SplitPieces(t);
    FrameClean(carry, a, decode);
    FrameClean(Partial(t), b, decode);
    FrameClean(carry, a + b, decode);
  }

  /** A line that is not a message ends the chunk: the messages before it
      are handed over and nothing after it is. */
  lemma FrameStopsAtNonMessage(carry: string, chunk: string, k: nat, decode: string -> Option<Value>)
    requires '\n' !in carry
    requires k < |CompleteLines(carry + chunk)|
    requires var ls := CompleteLines(carry + chunk);
      ls[k] != "" && Clean(ls[..k], decode) && (decode(ls[k]).None? || !IsMessage(decode(ls[k]).value))
    ensures Frame(carry, chunk, decode).values == Decoded(CompleteLines(carry + chunk)[..k], decode)
  {
    FrameLines(carry, chunk, decode);
    ProcessStops(CompleteLines(carry + chunk), k, decode);
  }

  // ---------------------------------------------------------------------
  // The line that is handed over twice
  // ---------------------------------------------------------------------

  /** The acknowledgement as the client writes it. */
  const AckLine: string := "{\"action\":\"ack\"}"

  /** A decoder that knows one line: the acknowledgement. */
  function AckOnly(s: string): Option<Value> {
    if s == AckLine then Some(Msg(Protocol.Ack)) else None
  }

  lemma SplitNewline()
    ensures Split("\n") == ["", ""]
  {
    assert Split("\n") == [""] + Split("");
  }

  lemma ProcessAckLine(rest: seq<string>)
    requires forall k :: 0 <= k < |rest| ==> rest[k] == ""
    ensures Process([AckLine] + rest, AckOnly) == Outcome([Msg(Protocol.Ack)], Finished)
  {
    assert ([AckLine] + rest)[1..] == rest;
    assert IsMessage(Msg(Protocol.Ack));
    ProcessEmpty(rest);
  }

  lemma {:induction false} ProcessEmpty(rest: seq<string>)
    requires forall k :: 0 <= k < |rest| ==> rest[k] == ""
    ensures Process(rest, AckOnly) == Outcome([], Finished)
    decreases |rest|
  {
    if rest != [] {
      ProcessEmpty(rest[1..]);
    }
  }

  lemma AckLineIsOneLine()
    ensures '\n' !in AckLine
    ensures Split(AckLine) == [AckLine]
    ensures "" + AckLine == AckLine && AckLine + "" == AckLine
  {
    assert forall k :: 0 <= k < |AckLine| ==> AckLine[k] != '\n';
    SplitLine(AckLine);
  }

  /** The first chunk, as written: the line is handed over and kept. */
  lemma FirstChunkAsWritten()
    ensures FrameAsWritten("", AckLine, AckOnly) == Framed([Msg(Protocol.Ack)], AckLine)
  {
    AckLineIsOneLine();
    var items := ["" + AckLine] + [AckLine][1..];
    assert items == [AckLine] + [];
    ProcessAckLine([]);
  }

  /** The second chunk, as written: the kept line is handed over again. */
  lemma SecondChunkAsWritten()
    ensures FrameAsWritten(AckLine, "\n", AckOnly) == Framed([Msg(Protocol.Ack)], "")
  {
    SplitNewline();
    AckLineIsOneLine();
    var ls: seq<string> := ["", ""];
    var items := [AckLine + ls[0]] + ls[1..];
    assert ls[1..] == [""];
    assert items == [AckLine] + [""];
    ProcessAckLine([""]);
  }

  lemma FirstChunk()
    ensures Frame("", AckLine, AckOnly) == Framed([], AckLine)
  {
    AckLineIsOneLine();
    FrameNoNewline("", AckLine, AckOnly);
  }

  lemma SecondChunk()
    ensures Frame(AckLine, "\n", AckOnly) == Framed([Msg(Protocol.Ack)], "")
  {
    SplitNewline();
    AckLineIsOneLine();
    var ls: seq<string> := ["", ""];
    var items := [AckLine + ls[0]] + ls[1..|ls| - 1];
    assert ls[1..1] == [];
    assert items == [AckLine] + [];
    ProcessAckLine([]);
  }

  lemma AckNewlineSplit()
    ensures Split(AckLine + "\n") == [AckLine, ""]
  {
    AckLineIsOneLine();
    SplitAppend(AckLine, "\n");
    SplitNewline();
  }

  /** The acknowledgement and its newline in one chunk: the intended
      handler hands it over once and keeps nothing. */
  lemma WholeAckLine()
    ensures Frame("", AckLine + "\n", AckOnly) == Framed([Msg(Protocol.Ack)], "")
  {
    AckNewlineSplit();
    AckLineIsOneLine();
    var ls: seq<string> := [AckLine, ""];
    assert ["" + ls[0]] + ls[1..|ls| - 1] == [AckLine] + [];
    ProcessAckLine([]);
  }

  /** The stream `{"action":"ack"}` and a newline, cut just before the
      newline: as written, the acknowledgement is handed over with the first
      chunk, kept, and handed over again with the second one; the intended
      handler hands it over once. */
  lemma FrameAsWrittenTwice()
    ensures var f1 := FrameAsWritten("", AckLine, AckOnly);
      var f2 := FrameAsWritten(f1.carry, "\n", AckOnly);
      f1.values + f2.values == [Msg(Protocol.Ack), Msg(Protocol.Ack)]
    ensures var f1 := Frame("", AckLine, AckOnly);
      var f2 := Frame(f1.carry, "\n", AckOnly);
      f1.values + f2.values == [Msg(Protocol.Ack)] && f2.carry == ""
  {
    FirstChunkAsWritten();
    SecondChunkAsWritten();
    FirstChunk();
    SecondChunk();
  }
}
