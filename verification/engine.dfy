/** The synchronisation engine of the editor plugin
    (plugins/vscode/smartshare/src/extension.ts): the state it keeps
    between events, and what each event does to it and writes to the
    client process.  The editor is the text `doc` and a `refuses` oracle
    for the edits it declines; the change events a write causes are handled
    before the write completes. */
module Engine {
  import opened Common
  import opened Protocol
  import opened EditorMessage
  import opened Framer
  import Units
  import Conversion

  // ---------------------------------------------------------------------
  // Cursor indicators
  // ---------------------------------------------------------------------

  /** `CURSOR_COLORS`. */
  const CursorColors: seq<string> := ["Salmon", "YellowGreen", "SteelBlue", "MediumOrchid", "DarkOrange", "Aqua"]

  /** JavaScript's `%` on integers: the remainder has the sign of the
      dividend. */
  function JsRem(a: int, b: int): (r: int)
    requires b > 0
    ensures -b < r < b
    ensures a >= 0 ==> r >= 0
    ensures a <= 0 ==> r <= 0
    ensures a >= 0 ==> r == a % b
  {
    if a >= 0 then a % b else -((-a) % b)
  }

  /** The border colour of a participant's indicators:
      `CURSOR_COLORS[id % CURSOR_COLORS.length]`, undefined when the index
      is negative. */
  function ColorOf(id: int): (r: Option<string>)
    ensures r.Some? ==> r.value in CursorColors
  {
    var k := JsRem(id, |CursorColors|);
    if k >= 0 then Some(CursorColors[k]) else None
  }

  /** A non-negative id picks its colour by its remainder modulo six, so
      ids six apart share a colour; a negative id has a colour only when it
      is a multiple of six (the index is then `-0`, that is 0). */
  lemma ColorOfCycles(id: int)
    ensures id >= 0 ==> ColorOf(id) == Some(CursorColors[id % 6]) && ColorOf(id + 6) == ColorOf(id)
    ensures id < 0 ==> (ColorOf(id).Some? <==> id % 6 == 0)
    ensures id < 0 && id % 6 == 0 ==> ColorOf(id) == Some("Salmon")
  {
  }

  /** One drawn indicator: its colour and the range it covers. */
  datatype Indicator = Indicator(color: Option<string>, start: nat, end: nat)

  function Min(a: nat, b: nat): nat { if a <= b then a else b }
  function Max(a: nat, b: nat): nat { if a <= b then b else a }

  /** The indicator of one remote cursor: the range between caret and
      anchor, each clamped to the text like `positionAt`. */
  function IndicatorOf(doc: string, id: int, c: Cursor): (r: Indicator)
    ensures r.start <= r.end <= |doc| && r.color == ColorOf(id)
  {
    var p := Clamp(c.cursor, |doc|);
    var q := Clamp(c.anchor, |doc|);
    Indicator(ColorOf(id), Min(p, q), Max(p, q))
  }

  /** `updateCursors`: the participant's indicators are replaced by one per
      cursor; the previous ones of that participant are released (second
      component), every other participant's are left alone. */
  function UpdateCursors(shown: map<int, seq<Indicator>>, doc: string, id: int, cursors: seq<Cursor>)
    : (r: (map<int, seq<Indicator>>, seq<Indicator>))
    ensures r.0.Keys == shown.Keys + {id}
    ensures forall other :: other in shown && other != id ==> r.0[other] == shown[other]
    ensures |r.0[id]| == |cursors|
    ensures forall k :: 0 <= k < |cursors| ==> r.0[id][k] == IndicatorOf(doc, id, cursors[k])
    ensures r.1 == if id in shown then shown[id] else []
  {
    var news := seq(|cursors|, k requires 0 <= k < |cursors| => IndicatorOf(doc, id, cursors[k]));
    (shown[id := news], if id in shown then shown[id] else [])
  }

  /** A second cursor message of the same participant releases exactly the
      indicators the first one installed. */
  lemma UpdateCursorsTwice(shown: map<int, seq<Indicator>>, doc: string, id: int, c1: seq<Cursor>, c2: seq<Cursor>)
    ensures var r1 := UpdateCursors(shown, doc, id, c1);
      UpdateCursors(r1.0, doc, id, c2).1 == r1.0[id]
  {
  }

  // ---------------------------------------------------------------------
  // The ignore list
  // ---------------------------------------------------------------------

  /** `Array.prototype.indexOf`: the first position holding `x`, or -1. */
  function IndexOf(xs: seq<TextModification>, x: TextModification): (r: int)
    ensures r == -1 <==> x !in xs
    ensures r != -1 ==> 0 <= r < |xs| && xs[r] == x && x !in xs[..r]
    decreases |xs|
  {
    if xs == [] then -1
    else if xs[0] == x then 0
    else
      var k := IndexOf(xs[1..], x);
      if k == -1 then -1
      else
        assert xs[..k + 1] == [xs[0]] + xs[1..][..k];
        k + 1
  }

  /** `Array.prototype.splice(start, 1)`: a negative start counts from the
      end. */
  function SpliceOne(xs: seq<TextModification>, start: int): (r: seq<TextModification>)
    ensures |r| == if -|xs| <= start < |xs| then |xs| - 1 else if start < -|xs| && xs != [] then |xs| - 1 else |xs|
  {
    var s := if start < 0 then (if |xs| + start < 0 then 0 else |xs| + start) else (if start > |xs| then |xs| else start);
    if s < |xs| then xs[..s] + xs[s + 1..] else xs
  }

  /** Splicing at a position inside the list removes that position. */
  lemma SpliceAt(xs: seq<TextModification>, i: int)
    requires 0 <= i < |xs|
    ensures SpliceOne(xs, i) == xs[..i] + xs[i + 1..]
  {
  }

  lemma MultisetAround(xs: seq<TextModification>, i: nat)
    requires i < |xs|
    ensures multiset(xs) == multiset(xs[..i] + xs[i + 1..]) + multiset{xs[i]}
  {
    assert xs == xs[..i] + [xs[i]] + xs[i + 1..];
  }

  /** Removing the first entry equal to `x` takes one copy of `x` out and
      keeps everything else. */
  lemma RemoveFirstCounts(xs: seq<TextModification>, x: TextModification)
    requires x in xs
    ensures multiset(SpliceOne(xs, IndexOf(xs, x))) == multiset(xs) - multiset{x}
  {
    var i := IndexOf(xs, x);
    SpliceAt(xs, i);
    MultisetAround(xs, i);
  }

  /** The loop of `changeDocumentHandler` over the event's changes: a change
      equal to an ignore entry consumes the first such entry and is dropped,
      any other change is kept.  The result is the remaining ignore entries
      and the kept changes. */
  function Suppress(ignore: seq<TextModification>, changes: seq<TextModification>)
    : (r: (seq<TextModification>, seq<TextModification>))
    ensures |r.1| <= |changes|
    decreases |changes|
  {
    if changes == [] then (ignore, [])
    else
      var c := changes[0];
      var i := IndexOf(ignore, c);
      if i != -1 then Suppress(SpliceOne(ignore, i), changes[1..])
      else
        var rest := Suppress(ignore, changes[1..]);
        (rest.0, [c] + rest.1)
  }

  /** `xs` is `ys` with some elements left out. */
  predicate Sub(xs: seq<TextModification>, ys: seq<TextModification>)
    decreases |ys|
  {
    if ys == [] then xs == []
    else Sub(xs, ys[1..]) || (xs != [] && xs[0] == ys[0] && Sub(xs[1..], ys[1..]))
  }

  function Excess(a: nat, b: nat): nat { if a >= b then a - b else 0 }

  /** The counts the echo filter keeps, for ignore entries `ignore`,
      changes `changes` and the filter's result `r`: see `SuppressCounts`. */
  ghost predicate Balanced(ignore: seq<TextModification>, changes: seq<TextModification>,
                           r: (seq<TextModification>, seq<TextModification>))
  {
    && (forall x :: multiset(r.1)[x] == Excess(multiset(changes)[x], multiset(ignore)[x]))
    && (forall x :: multiset(r.0)[x] == Excess(multiset(ignore)[x], multiset(changes)[x]))
    && |ignore| - |r.0| == |changes| - |r.1|
  }

  lemma MultisetCons(changes: seq<TextModification>)
    requires changes != []
    ensures multiset(changes) == multiset{changes[0]} + multiset(changes[1..])
  {
    assert changes == [changes[0]] + changes[1..];
  }

  /** A change that meets an ignore entry is dropped together with it. */
  lemma SuppressDropStep(ignore: seq<TextModification>, changes: seq<TextModification>)
    requires changes != [] && changes[0] in ignore
    requires var ig := SpliceOne(ignore, IndexOf(ignore, changes[0]));
      Balanced(ig, changes[1..], Suppress(ig, changes[1..]))
    ensures Balanced(ignore, changes, Suppress(ignore, changes))
  {
    var c := changes[0];
    var ig := SpliceOne(ignore, IndexOf(ignore, c));
    var r := Suppress(ig, changes[1..]);
    assert Suppress(ignore, changes) == r;
    assert |ig| == |ignore| - 1;
    MultisetCons(changes);
    RemoveFirstCounts(ignore, c);
    var mc, mi := multiset(changes[1..]), multiset(ig);
    assert multiset(changes) == mc + multiset{c};
    assert multiset(ignore) == mi + multiset{c};
    forall x ensures multiset(r.1)[x] == Excess(multiset(changes)[x], multiset(ignore)[x]) {
      assert multiset(r.1)[x] == Excess(mc[x], mi[x]);
    }
    forall x ensures multiset(r.0)[x] == Excess(multiset(ignore)[x], multiset(changes)[x]) {
      assert multiset(r.0)[x] == Excess(mi[x], mc[x]);
    }
  }

  /** A change that meets no ignore entry is forwarded. */
  lemma SuppressKeepStep(ignore: seq<TextModification>, changes: seq<TextModification>)
    requires changes != [] && changes[0] !in ignore
    requires Balanced(ignore, changes[1..], Suppress(ignore, changes[1..]))
    ensures Balanced(ignore, changes, Suppress(ignore, changes))
  {
    var c := changes[0];
    var t := Suppress(ignore, changes[1..]);
    var r := (t.0, [c] + t.1);
    assert Suppress(ignore, changes) == r;
    MultisetCons(changes);
    assert multiset(r.1) == multiset{c} + multiset(t.1);
    assert multiset(ignore)[c] == 0;
    forall x ensures multiset(r.1)[x] == Excess(multiset(changes)[x], multiset(ignore)[x]) {
    }
    forall x ensures multiset(r.0)[x] == Excess(multiset(ignore)[x], multiset(changes)[x]) {
    }
  }

  /** The echo filter counts: a change is forwarded as many times as it
      occurs beyond its ignore entries, an entry stays as many times as it
      occurs beyond the matching changes, and every dropped change used up
      exactly one entry. */
  lemma {:induction false} SuppressCounts(ignore: seq<TextModification>, changes: seq<TextModification>)
    ensures var r := Suppress(ignore, changes);
      && (forall x :: multiset(r.1)[x] == Excess(multiset(changes)[x], multiset(ignore)[x]))
      && (forall x :: multiset(r.0)[x] == Excess(multiset(ignore)[x], multiset(changes)[x]))
      && |ignore| - |r.0| == |changes| - |r.1|
    decreases |changes|
  {
    if changes != [] {
      var c := changes[0];
      if c in ignore {
        SuppressCounts(SpliceOne(ignore, IndexOf(ignore, c)), changes[1..]);
        SuppressDropStep(ignore, changes);
      } else {
        SuppressCounts(ignore, changes[1..]);
        SuppressKeepStep(ignore, changes);
      }
    }
  }

  /** The echo filter keeps the forwarded changes in their original
      order. */
  lemma {:induction false} SuppressOrder(ignore: seq<TextModification>, changes: seq<TextModification>)
    ensures Sub(Suppress(ignore, changes).1, changes)
    decreases |changes|
  {
    if changes != [] {
      var c := changes[0];
      var i := IndexOf(ignore, c);
      if i != -1 {
        SuppressOrder(SpliceOne(ignore, i), changes[1..]);
      } else {
        SuppressOrder(ignore, changes[1..]);
        var t := Suppress(ignore, changes[1..]);
        assert ([c] + t.1)[1..] == t.1;
      }
    }
  }

  // ---------------------------------------------------------------------
  // The engine
  // ---------------------------------------------------------------------

  /** The plugin's state: the editor's text, `waitingAcks`, `toIgnore`,
      `init`, whether a client process is running, and
      `cursorsDecorations`. */
  datatype Engine = Engine(
    doc: string,
    waitingAcks: int,
    toIgnore: seq<TextModification>,
    init: bool,
    hasClient: bool,
    shown: map<int, seq<Indicator>>)

  /** The engine after an event and the messages written to the client. */
  datatype Turn = Turn(engine: Engine, sent: seq<IdeMessage>)

  /** The acknowledgement counter is never negative. */
  predicate AcksNonNegative(e: Engine) {
    e.waitingAcks >= 0
  }

  /** Before any session: empty lists, nothing awaited, waiting for the
      handshake. */
  function Start(doc: string, hasClient: bool): (e: Engine)
    ensures AcksNonNegative(e) && e.init && e.toIgnore == [] && e.waitingAcks == 0
  {
    Engine(doc, 0, [], true, hasClient, map[])
  }

  /** How many `Update` messages a list of messages holds. */
  function UpdatesIn(ms: seq<IdeMessage>): nat
    decreases |ms|
  {
    if ms == [] then 0 else (if ms[0].Update? then 1 else 0) + UpdatesIn(ms[1..])
  }

  lemma {:induction false} UpdatesInAppend(a: seq<IdeMessage>, b: seq<IdeMessage>)
    ensures UpdatesIn(a + b) == UpdatesIn(a) + UpdatesIn(b)
    decreases |a|
  {
    if a == [] {
      assert a + b == b;
    } else {
      assert (a + b)[1..] == a[1..] + b;
      UpdatesInAppend(a[1..], b);
    }
  }

  /** `changeDocumentHandler`.  Events of the output panel, events before
      the handshake and events without a client process are ignored (and
      leave the ignore list as it is).  Otherwise the echo filter runs, the
      ignore list is emptied, and the kept changes, if any, go out as one
      `Update` that is then awaited. */
  function ChangeDocument(e: Engine, fromOutput: bool, changes: seq<TextModification>): (t: Turn)
    ensures t.engine.waitingAcks == e.waitingAcks + UpdatesIn(t.sent)
    ensures t.engine.doc == e.doc && t.engine.init == e.init && t.engine.hasClient == e.hasClient
    ensures t.engine.shown == e.shown
  {
    if fromOutput || e.init || !e.hasClient then Turn(e, [])
    else
      var kept := Suppress(e.toIgnore, changes).1;
      var e1 := e.(toIgnore := []);
      if kept == [] then Turn(e1, [])
      else
        assert UpdatesIn([Update(kept)]) == 1;
        Turn(e1.(waitingAcks := e.waitingAcks + 1), [Update(kept)])
  }

  /** `applyChange`: the change is registered in the ignore list, then
      written.  The write's change event is handled before the write
      completes.  On a refused write, `splice` is given the position of the
      whole list's text among the entries, which is -1, and so drops the
      last entry. */
  function ApplyChange(e: Engine, m: TextModification, refuses: (string, TextModification) -> bool): (r: (Turn, bool))
    ensures r.0.engine.waitingAcks == e.waitingAcks + UpdatesIn(r.0.sent)
    ensures r.0.engine.init == e.init && r.0.engine.hasClient == e.hasClient && r.0.engine.shown == e.shown
    ensures r.1 <==> !refuses(e.doc, m)
  {
    var e1 := e.(toIgnore := e.toIgnore + [m]);
    match Write(e.doc, m, refuses)
    case None => (Turn(e1.(toIgnore := SpliceOne(e1.toIgnore, -1)), []), false)
    case Some(d) => (ChangeDocument(e1.(doc := d), false, [Reported(e.doc, m)]), true)
  }

  /** The loop of the update handler: the changes are applied one after the
      other and the first refused write stops it. */
  function ApplyAll(e: Engine, changes: seq<TextModification>, refuses: (string, TextModification) -> bool): (r: (Turn, bool))
    ensures r.0.engine.waitingAcks == e.waitingAcks + UpdatesIn(r.0.sent)
    ensures r.0.engine.init == e.init && r.0.engine.hasClient == e.hasClient && r.0.engine.shown == e.shown
    decreases |changes|
  {
    if changes == [] then (Turn(e, []), true)
    else
      var (t, ok) := ApplyChange(e, changes[0], refuses);
      if !ok then (t, false)
      else
        var (t2, ok2) := ApplyAll(t.engine, changes[1..], refuses);
        UpdatesInAppend(t.sent, t2.sent);
        (Turn(t2.engine, t.sent + t2.sent), ok2)
  }

  /** The update handler: dropped while an own update is unacknowledged;
      otherwise applied, and acknowledged when every write went through. */
  function HandleUpdate(e: Engine, changes: seq<TextModification>, refuses: (string, TextModification) -> bool): (t: Turn)
    ensures t.engine.waitingAcks == e.waitingAcks + UpdatesIn(t.sent)
  {
    if e.waitingAcks != 0 then Turn(e, [])
    else
      var (t, ok) := ApplyAll(e, changes, refuses);
      if ok && t.engine.hasClient then
        UpdatesInAppend(t.sent, [Ack]);
        Turn(t.engine, t.sent + [Ack])
      else t
  }

  /** The file handler: the whole text is replaced by the received one (not
      through `applyChange`, so it is not registered), and the handshake is
      over once the write completes, whether or not it went through. */
  function HandleFile(e: Engine, file: string, refuses: (string, TextModification) -> bool): (t: Turn)
    ensures t.engine.waitingAcks == e.waitingAcks + UpdatesIn(t.sent)
    ensures !t.engine.init
  {
    var m := TextModification(0, |e.doc|, file);
    match Write(e.doc, m, refuses)
    case None => Turn(e.(init := false), [])
    case Some(d) =>
      var t := ChangeDocument(e.(doc := d), false, [Reported(e.doc, m)]);
      Turn(t.engine.(init := false), t.sent)
  }

  /** `handleMessage`, by tag: update, error, requestFile, file, ack and
      cursor have handlers; a declare message has none. */
  function HandleMessage(e: Engine, m: IdeMessage, refuses: (string, TextModification) -> bool): (t: Turn)
    ensures !m.Ack? ==> t.engine.waitingAcks == e.waitingAcks + UpdatesIn(t.sent)
    ensures m.Ack? ==> t.sent == [] && t.engine.waitingAcks == if e.waitingAcks == 0 then 0 else e.waitingAcks - 1
  {
    match m
    case Update(changes) => HandleUpdate(e, changes, refuses)
    case Declare(_) => Turn(e, [])
    case Error(_) => Turn(e, [])
    case RequestFile =>
      if !e.hasClient then Turn(e, [])
      else
        assert UpdatesIn([File(e.doc)]) == 0;
        Turn(e.(init := false), [File(e.doc)])
    case File(file) => HandleFile(e, file, refuses)
    case Ack =>
      if e.waitingAcks == 0 then Turn(e, [])
      else Turn(e.(waitingAcks := e.waitingAcks - 1), [])
    case Cursors(id, cursors) =>
      Turn(e.(shown := UpdateCursors(e.shown, e.doc, id, cursors).0), [])
  }

  /** One decoded value the framer hands over: a message goes to its
      handler; anything else matches no case. */
  function HandleValue(e: Engine, v: Value, refuses: (string, TextModification) -> bool): Turn {
    match v
    case Msg(m) => HandleMessage(e, m, refuses)
    case Junk(_) => Turn(e, [])
  }

  /** The values of one chunk handled in order. */
  function HandleAll(e: Engine, vs: seq<Value>, refuses: (string, TextModification) -> bool): (t: Turn)
    ensures AcksNonNegative(e) ==> AcksNonNegative(t.engine)
    decreases |vs|
  {
    if vs == [] then Turn(e, [])
    else
      var t1 := HandleValue(e, vs[0], refuses);
      var t2 := HandleAll(t1.engine, vs[1..], refuses);
      Turn(t2.engine, t1.sent + t2.sent)
  }

  /** The stdout handler as intended: one chunk of the client's output is
      framed by `Frame`, its messages (the intended six-tag test) are
      handled in order, and the text kept for the next chunk comes back
      with the turn. */
  function OnChunk(e: Engine, carry: string, chunk: string, decode: string -> Option<Value>,
                   refuses: (string, TextModification) -> bool): (r: (Turn, string))
    ensures AcksNonNegative(e) ==> AcksNonNegative(r.0.engine)
  {
    var f := Frame(carry, chunk, decode);
    (HandleAll(e, f.values, refuses), f.carry)
  }

  /** The stdout handler exactly as written: framed by `FrameAsShipped`,
      whose test lets no message of the protocol through, so no chunk
      changes the engine or makes it write anything. */
  function OnChunkAsWritten(e: Engine, carry: string, chunk: string, decode: string -> Option<Value>,
                            refuses: (string, TextModification) -> bool): (r: (Turn, string))
    ensures r.0 == Turn(e, [])
    ensures r.1 == FrameAsShipped(carry, chunk, decode).carry
  {
    var f := FrameAsShipped(carry, chunk, decode);
    HandleAllJunk(e, f.values, refuses);
    (HandleAll(e, f.values, refuses), f.carry)
  }

  /** A selection in the editor, as offsets. */
  datatype Selection = Selection(active: nat, anchor: nat)

  /** `changeSelectionsHandler`: one cursor per selection, in order, sent
      under id 0 when a client process runs. */
  function ChangeSelections(e: Engine, selections: seq<Selection>): (r: seq<IdeMessage>)
    ensures !e.hasClient <==> r == []
    ensures r != [] ==> |r| == 1 && r[0].Cursors? && r[0].id == 0 && |r[0].cursors| == |selections|
    ensures r != [] ==> forall k :: 0 <= k < |selections| ==>
      r[0].cursors[k] == Cursor(selections[k].active, selections[k].anchor)
  {
    if !e.hasClient then []
    else [Cursors(0, seq(|selections|, k requires 0 <= k < |selections| => Cursor(selections[k].active, selections[k].anchor)))]
  }

  /** `startClient`: a client process is started unless one runs.  The
      handshake flag is not set again, so only the first session starts
      with the handshake pending. */
  function StartClient(e: Engine): (r: Engine)
    ensures r.hasClient
    ensures r.init == e.init && r.doc == e.doc && r.waitingAcks == e.waitingAcks
  {
    if e.hasClient then e else e.(hasClient := true)
  }

  /** The close handler of the client process: every indicator is
      released (first component) and no client process runs. */
  function OnClose(e: Engine): (r: (Engine, set<int>))
    ensures !r.0.hasClient
    ensures r.1 == e.shown.Keys
    ensures r.0.doc == e.doc && r.0.init == e.init && r.0.waitingAcks == e.waitingAcks
  {
    (e.(hasClient := false), e.shown.Keys)
  }

  // ---------------------------------------------------------------------
  // Properties
  // ---------------------------------------------------------------------

  /** Every event keeps the acknowledgement counter non-negative. */
  lemma HandleMessageInv(e: Engine, m: IdeMessage, refuses: (string, TextModification) -> bool)
    requires AcksNonNegative(e)
    ensures AcksNonNegative(HandleMessage(e, m, refuses).engine)
  {
  }

  /** An acknowledgement lowers the counter by one when it is positive and
      leaves it at 0 otherwise; nothing else changes. */
  lemma AckCorrect(e: Engine, refuses: (string, TextModification) -> bool)
    requires AcksNonNegative(e)
    ensures var t := HandleMessage(e, Ack, refuses);
      t.sent == [] && t.engine == e.(waitingAcks := if e.waitingAcks > 0 then e.waitingAcks - 1 else 0)
  {
  }

  /** Outgoing edits: nothing leaves before the handshake or without a
      client; otherwise the ignore list ends empty, and either every change
      was an echo (nothing sent, counter unchanged) or exactly one `Update`
      with the other changes goes out and the counter rises by one. */
  lemma ChangeDocumentCorrect(e: Engine, changes: seq<TextModification>)
    ensures e.init || !e.hasClient ==> ChangeDocument(e, false, changes) == Turn(e, [])
    ensures ChangeDocument(e, true, changes) == Turn(e, [])
    ensures !e.init && e.hasClient ==>
      var t := ChangeDocument(e, false, changes);
      var kept := Suppress(e.toIgnore, changes).1;
      && t.engine.toIgnore == []
      && (kept == [] <==> t.sent == [])
      && (kept == [] ==> t.engine.waitingAcks == e.waitingAcks)
      && (kept != [] ==> t.sent == [Update(kept)] && t.engine.waitingAcks == e.waitingAcks + 1)
  {
  }

  /** A refused write leaves the engine as it was: the entry dropped from
      the tail is the one just registered. */
  lemma ApplyChangeRefused(e: Engine, m: TextModification, refuses: (string, TextModification) -> bool)
    requires refuses(e.doc, m)
    ensures ApplyChange(e, m, refuses) == (Turn(e, []), false)
  {
    var l := e.toIgnore + [m];
    assert l[|l|..] == [];
    assert SpliceOne(l, -1) == l[..|l| - 1] + l[|l|..];
    assert l[..|l| - 1] == e.toIgnore;
    var e1 := e.(toIgnore := l);
    assert e1.(toIgnore := SpliceOne(e1.toIgnore, -1)) == e;
  }

  /** An accepted write of a change inside the text, after the handshake,
      is recognised as its own echo: nothing is sent, the counter does not
      move, the ignore list ends empty and the text is the written one. */
  lemma ApplyChangeEcho(e: Engine, m: TextModification, refuses: (string, TextModification) -> bool)
    requires !refuses(e.doc, m) && !e.init && e.hasClient && m.offset + m.delete <= |e.doc|
    ensures var (t, ok) := ApplyChange(e, m, refuses);
      && ok && t.sent == [] && t.engine.waitingAcks == e.waitingAcks && t.engine.toIgnore == []
      && t.engine.doc == e.doc[..m.offset] + m.text + e.doc[m.offset + m.delete..]
  {
    assert Reported(e.doc, m) == m;
    var l := e.toIgnore + [m];
    assert m in l;
    var i := IndexOf(l, m);
    assert Suppress(l, [m]) == Suppress(SpliceOne(l, i), []);
  }

  /** Applying a list of changes stops at the first refused write: what was
      applied before it stays, nothing after it is attempted, and the
      handler reports the failure. */
  lemma ApplyAllAborts(e: Engine, xs: seq<TextModification>, m: TextModification, ys: seq<TextModification>,
                       refuses: (string, TextModification) -> bool)
    requires ApplyAll(e, xs, refuses).1
    requires refuses(ApplyAll(e, xs, refuses).0.engine.doc, m)
    ensures ApplyAll(e, xs + [m] + ys, refuses) == (ApplyAll(e, xs, refuses).0, false)
    decreases |xs|
  {
    if xs == [] {
      assert xs + [m] + ys == [m] + ys;
      ApplyChangeRefused(e, m, refuses);
    } else {
      var (t, ok) := ApplyChange(e, xs[0], refuses);
      assert (xs + [m] + ys)[0] == xs[0];
      assert (xs + [m] + ys)[1..] == xs[1..] + [m] + ys;
      ApplyAllAborts(t.engine, xs[1..], m, ys, refuses);
      assert t.sent + [] == t.sent;
    }
  }

  /** The editor accepts every edit. */
  ghost predicate Accepting(refuses: (string, TextModification) -> bool) {
    forall d: string, m: TextModification :: !refuses(d, m)
  }

  /** After the handshake, applying changes that fit, with an editor that
      accepts them, gives the text the client's own conversion gives
      (character offsets), sends nothing and ends with an empty ignore
      list. */
  lemma {:induction false} ApplyAllMatchesClient(e: Engine, changes: seq<TextModification>,
                                                 refuses: (string, TextModification) -> bool)
    requires !e.init && e.hasClient && Accepting(refuses)
    requires Conversion.ApplyMods(Units.Chars, e.doc, changes).Some?
    ensures var (t, ok) := ApplyAll(e, changes, refuses);
      && ok && t.sent == [] && t.engine.waitingAcks == e.waitingAcks
      && t.engine.doc == Conversion.ApplyMods(Units.Chars, e.doc, changes).value
      && (changes != [] ==> t.engine.toIgnore == [])
    decreases |changes|
  {
    if changes != [] {
      var m := changes[0];
      assert Conversion.ApplyMod(Units.Chars, e.doc, m).Some?;
      assert m.offset + m.delete <= |e.doc|;
      ApplyChangeEcho(e, m, refuses);
      var (t, ok) := ApplyChange(e, m, refuses);
      ApplyAllMatchesClient(t.engine, changes[1..], refuses);
    }
  }

  /** An incoming update is applied only when no own update is awaited, and
      is acknowledged exactly when every write went through and a client
      process runs; with an accepting editor and changes that fit, after
      the handshake, the text becomes the one the client computed and the
      only message is the acknowledgement. */
  lemma HandleUpdateCorrect(e: Engine, changes: seq<TextModification>, refuses: (string, TextModification) -> bool)
    ensures e.waitingAcks != 0 ==> HandleUpdate(e, changes, refuses) == Turn(e, [])
    ensures e.waitingAcks == 0 ==>
      var t := HandleUpdate(e, changes, refuses);
      (t.sent != [] && t.sent[|t.sent| - 1] == Ack) <==> ApplyAll(e, changes, refuses).1 && e.hasClient
    ensures (e.waitingAcks == 0 && !e.init && e.hasClient && Accepting(refuses)
             && Conversion.ApplyMods(Units.Chars, e.doc, changes).Some?) ==>
      var t := HandleUpdate(e, changes, refuses);
      t.sent == [Ack] && t.engine.doc == Conversion.ApplyMods(Units.Chars, e.doc, changes).value
  {
    if e.waitingAcks == 0 {
      var (t, ok) := ApplyAll(e, changes, refuses);
      if !(ok && e.hasClient) {
        NoAckFromApplyAll(e, changes, refuses);
      }
      if !e.init && e.hasClient && Accepting(refuses) && Conversion.ApplyMods(Units.Chars, e.doc, changes).Some? {
        ApplyAllMatchesClient(e, changes, refuses);
      }
    }
  }

  /** Applying changes only ever sends updates (the echoes it fails to
      recognise), never an acknowledgement. */
  lemma {:induction false} NoAckFromApplyAll(e: Engine, changes: seq<TextModification>, refuses: (string, TextModification) -> bool)
    ensures forall k :: 0 <= k < |ApplyAll(e, changes, refuses).0.sent| ==> ApplyAll(e, changes, refuses).0.sent[k].Update?
    decreases |changes|
  {
    if changes != [] {
      var (t, ok) := ApplyChange(e, changes[0], refuses);
      if ok {
        NoAckFromApplyAll(t.engine, changes[1..], refuses);
      }
    }
  }

  /** The handshake: a file request, with a client process, sends the
      whole text and ends the handshake; a received file replaces the whole
      text and ends the handshake without being sent back. */
  lemma HandshakeCorrect(e: Engine, file: string, refuses: (string, TextModification) -> bool)
    ensures e.hasClient ==> HandleMessage(e, RequestFile, refuses) == Turn(e.(init := false), [File(e.doc)])
    ensures !e.hasClient ==> HandleMessage(e, RequestFile, refuses) == Turn(e, [])
    ensures var t := HandleMessage(e, File(file), refuses);
      && !t.engine.init
      && (!refuses(e.doc, TextModification(0, |e.doc|, file)) ==> t.engine.doc == file)
      && (e.init ==> t.sent == [] && t.engine.waitingAcks == e.waitingAcks)
  {
    var m := TextModification(0, |e.doc|, file);
    if !refuses(e.doc, m) {
      assert e.doc[..0] + file + e.doc[|e.doc|..] == file;
    }
  }

  /** A cursor message from participant `id` installs one indicator per
      cursor, in that participant's colour, and touches no other
      participant's indicators. */
  lemma CursorsCorrect(e: Engine, id: int, cursors: seq<Cursor>, refuses: (string, TextModification) -> bool)
    ensures var t := HandleMessage(e, Cursors(id, cursors), refuses);
      && t.sent == []
      && |t.engine.shown[id]| == |cursors|
      && (forall k :: 0 <= k < |cursors| ==> t.engine.shown[id][k].color == ColorOf(id))
      && (forall other :: other in e.shown && other != id ==> other in t.engine.shown && t.engine.shown[other] == e.shown[other])
      && t.engine.shown.Keys == e.shown.Keys + {id}
  {
  }

  /** The selections this editor sends, installed by another editor,
      become one indicator per selection under id 0, in the first colour. */
  lemma SelectionsRoundTrip(e: Engine, selections: seq<Selection>, other: Engine, refuses: (string, TextModification) -> bool)
    requires e.hasClient
    ensures var msg := ChangeSelections(e, selections)[0];
      var t := HandleMessage(other, msg, refuses);
      |t.engine.shown[0]| == |selections| &&
      forall k :: 0 <= k < |selections| ==> t.engine.shown[0][k].color == Some("Salmon")
  {
  }

  /** The echo filter, seen from one event: the ignore list ends empty and
      the messages sent are one `Update` holding every change that was not
      an echo, in order. */
  lemma ChangeDocumentForwards(e: Engine, changes: seq<TextModification>)
    requires !e.init && e.hasClient
    ensures var t := ChangeDocument(e, false, changes);
      forall u :: u in t.sent ==> u.Update? && Sub(u.changes, changes)
  {
    SuppressOrder(e.toIgnore, changes);
  }

  /** The counter tracks the updates in flight: over a chunk of messages
      that holds no acknowledgement, it rises by exactly the number of
      updates sent. */
  lemma {:induction false} HandleAllCounts(e: Engine, vs: seq<Value>, refuses: (string, TextModification) -> bool)
    requires forall k :: 0 <= k < |vs| ==> vs[k] != Msg(Ack)
    ensures HandleAll(e, vs, refuses).engine.waitingAcks == e.waitingAcks + UpdatesIn(HandleAll(e, vs, refuses).sent)
    decreases |vs|
  {
    if vs != [] {
      var t1 := HandleValue(e, vs[0], refuses);
      HandleAllCounts(t1.engine, vs[1..], refuses);
      UpdatesInAppend(t1.sent, HandleAll(t1.engine, vs[1..], refuses).sent);
    }
  }

  /** Handling two runs of values one after the other is handling their
      concatenation. */
  lemma {:induction false} HandleAllAppend(e: Engine, x: seq<Value>, y: seq<Value>,
                                          refuses: (string, TextModification) -> bool)
    ensures var t1 := HandleAll(e, x, refuses);
      var t2 := HandleAll(t1.engine, y, refuses);
      HandleAll(e, x + y, refuses) == Turn(t2.engine, t1.sent + t2.sent)
    decreases |x|
  {
    if x == [] {
      assert x + y == y;
    } else {
      var t1 := HandleValue(e, x[0], refuses);
      SeqConsAppend(x, y);
      HandleAllAppend(t1.engine, x[1..], y, refuses);
      var a := HandleAll(t1.engine, x[1..], refuses);
      var b := HandleAll(a.engine, y, refuses);
      assert t1.sent + (a.sent + b.sent) == (t1.sent + a.sent) + b.sent;
    }
  }

  /** Values that are not messages of the protocol match no case: handling
      them changes nothing and writes nothing. */
  lemma {:induction false} HandleAllJunk(e: Engine, vs: seq<Value>, refuses: (string, TextModification) -> bool)
    requires forall k :: 0 <= k < |vs| ==> vs[k].Junk?
    ensures HandleAll(e, vs, refuses) == Turn(e, [])
    decreases |vs|
  {
    if vs != [] {
      assert forall k :: 0 <= k < |vs[1..]| ==> vs[1..][k] == vs[k + 1];
      HandleAllJunk(e, vs[1..], refuses);
    }
  }

  /** The stdout handler does not depend on where the client's output was
      cut into chunks: when every complete line is a message, two chunks
      leave the engine, the messages written and the waiting text as their
      concatenation does. */
  lemma OnChunkSplitIndependent(e: Engine, carry: string, a: string, b: string,
                                decode: string -> Option<Value>, refuses: (string, TextModification) -> bool)
    requires '\n' !in carry
    requires Clean(CompleteLines(carry + a + b), decode)
    ensures var (t1, c1) := OnChunk(e, carry, a, decode, refuses);
      var (t2, c2) := OnChunk(t1.engine, c1, b, decode, refuses);
      var (t, c) := OnChunk(e, carry, a + b, decode, refuses);
      t2.engine == t.engine && t1.sent + t2.sent == t.sent && c2 == c
  {
    FrameSplitIndependent(carry, a, b, decode);
    var f1 := Frame(carry, a, decode);
    HandleAllAppend(e, f1.values, Frame(f1.carry, b, decode).values, refuses);
  }

  /** An acknowledgement arriving as one complete line: the intended
      handler lowers the counter, the handler as written refuses the line
      and leaves the counter as it was. */
  lemma AckChunk(e: Engine, refuses: (string, TextModification) -> bool)
    requires e.waitingAcks == 1
    ensures OnChunk(e, "", AckLine + "\n", AckOnly, refuses).0.engine.waitingAcks == 0
    ensures OnChunkAsWritten(e, "", AckLine + "\n", AckOnly, refuses).0.engine.waitingAcks == 1
  {
    WholeAckLine();
    assert HandleAll(e, [Msg(Ack)], refuses).engine == HandleMessage(e, Ack, refuses).engine;
  }

  /** Once the client process has closed, no event writes anything: edits,
      selections and file requests are all dropped. */
  lemma ClosedSendsNothing(e: Engine, changes: seq<TextModification>, selections: seq<Selection>,
                           refuses: (string, TextModification) -> bool)
    ensures var c := OnClose(e).0;
      && ChangeDocument(c, false, changes).sent == []
      && ChangeSelections(c, selections) == []
      && HandleMessage(c, RequestFile, refuses).sent == []
  {
  }

  /** The editor that accepts every edit. */
  function AcceptAll(d: string, m: TextModification): bool { false }

  /** A session joined after an earlier one closed starts with the
      handshake already over: the file the new session's client delivers is
      written and then sent back to it as an edit of this editor. */
  lemma RejoinEchoesFile()
    ensures var e0 := StartClient(Start("", false));
      var e1 := HandleMessage(e0, File("ab"), AcceptAll).engine;
      var e2 := StartClient(OnClose(e1).0);
      var t := HandleMessage(e2, File("xyz"), AcceptAll);
      && e1.doc == "ab" && !e1.init
      && t.engine.doc == "xyz"
      && t.sent == [Update([TextModification(0, 2, "xyz")])]
      && t.engine.waitingAcks == 1
  {
    var e0 := StartClient(Start("", false));
    assert e0.init;
    var m0 := TextModification(0, 0, "ab");
    assert !AcceptAll("", m0) && Range("", m0) == (0, 0);
    assert ""[..0] + "ab" + ""[0..] == "ab";
    assert Write("", m0, AcceptAll) == Some("ab");
    var e1 := HandleMessage(e0, File("ab"), AcceptAll).engine;
    assert e1.doc == "ab" && e1.waitingAcks == 0 && e1.toIgnore == [];
    var e2 := StartClient(OnClose(e1).0);
    assert e2 == e1;
    var m := TextModification(0, 2, "xyz");
    assert !AcceptAll("ab", m) && Range("ab", m) == (0, 2);
    assert "ab"[..0] + "xyz" + "ab"[2..] == "xyz";
    assert Write("ab", m, AcceptAll) == Some("xyz");
    assert Reported("ab", m) == m;
    assert IndexOf([], m) == -1 && [m][1..] == [];
    assert Suppress([], [m]) == ([], [m] + []);
    assert [m] + [] == [m];
    assert e2.toIgnore == [] && !e2.init && e2.hasClient;
    var c := ChangeDocument(e2.(doc := "xyz"), false, [m]);
    assert Suppress(e2.toIgnore, [m]).1 == [m];
    assert c.sent == [Update([m])] && c.engine.waitingAcks == 1;
    assert HandleFile(e2, "xyz", AcceptAll) == Turn(c.engine.(init := false), c.sent);
  }
}
