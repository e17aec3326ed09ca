/** The Rust client that sits between one editor and the server.  It keeps
    its own copy of the document, the last server revision it knows, and
    for each side what it has sent and not yet seen acknowledged: the server
    and the editor each get one message in flight at a time, and edits that
    arrive meanwhile are rebased over it and queued.  The step functions
    below are reconstructed from the scenarios in
    smartshare/src/client/main.rs; `None` stands for a step the client
    cannot take (a panic, or a message none of the scenarios expects). */
module Client {
  import opened Common
  import opened OperationSeq
  import opened OtCompose
  import opened OtTransform
  import opened Units
  import opened Protocol
  import opened Conversion

  /** One side of the client: nothing in flight, or a sequence in flight
      and possibly more edits queued behind it. */
  datatype Side = Synced | Awaiting(pending: Ops, queued: Option<Ops>)

  datatype Client = Client(
    doc: string,      // the client's copy: the server's revision plus our unacknowledged edits
    ideDoc: string,   // what the editor holds, as far as the client knows
    revNum: nat,      // the last server revision the client has seen
    format: Format,   // the unit of the editor's offsets
    server: Side,
    ide: Side)

  /** The client after a message, with what it sends each way, in order. */
  datatype Step = Step(client: Client, toServer: seq<ServerMessage>, toIde: seq<IdeMessage>)

  /** `Client::new`: an empty document at revision `revNum`. */
  function New(revNum: nat, f: Format): (c: Client)
    ensures Inv(c) && c.doc == [] && c.revNum == revNum
  {
    Client([], [], revNum, f, Synced, Synced)
  }

  // ---------------------------------------------------------------------
  // Helpers
  // ---------------------------------------------------------------------

  /** `op` appended to what is queued. */
  function Enqueue(q: Option<Ops>, op: Ops): Option<Ops> {
    match q
    case None => Some(op)
    case Some(p) => Compose(p, op)
  }

  /** The pending sequence followed by its queue. */
  function Outstanding(sent: Ops, q: Option<Ops>): Option<Ops> {
    match q
    case None => Some(sent)
    case Some(p) => Compose(sent, p)
  }

  /** An `Update` that brings an editor holding `doc` along `op`. */
  function UpdateFor(f: Format, op: Ops, doc: string): Option<IdeMessage> {
    if BaseLen(op) == |doc| then Some(Update(ToModifications(f, op, doc))) else None
  }

  /** The text after the queue, if any, is applied. */
  function AfterQueue(q: Option<Ops>, s: string): Option<string> {
    match q
    case None => Some(s)
    case Some(p) => Apply(p, s)
  }

  // ---------------------------------------------------------------------
  // Messages from the server
  // ---------------------------------------------------------------------

  /** A server delta rebased over what this client has sent and queued for
      the server, with the server side's sequences rebased over the delta.
      The server's insertions win ties. */
  function Rebase(server: Side, delta: Ops): Option<(Ops, Side)> {
    match server
    case Synced => Some((delta, Synced))
    case Awaiting(out, None) =>
      (match Transform(delta, out)
       case None => None
       case Some((d1, o1)) => Some((d1, Awaiting(o1, None))))
    case Awaiting(out, Some(buf)) =>
      match Transform(delta, out)
      case None => None
      case Some((d1, o1)) =>
        match Transform(d1, buf)
        case None => None
        case Some((d2, b1)) => Some((d2, Awaiting(o1, Some(b1))))
  }

  function OnServerUpdate(c: Client, delta: Ops, rev: nat): Option<Step> {
    match Rebase(c.server, delta)
    case None => None
    case Some((d, side)) =>
      match Apply(d, c.doc)
      case None => None
      case Some(doc1) =>
        var c1 := c.(doc := doc1, revNum := rev, server := side);
        match c.ide
        case Synced =>
          (match UpdateFor(c.format, d, c.ideDoc)
           case None => None
           case Some(u) => Some(Step(c1.(ide := Awaiting(d, None)), [], [u])))
        case Awaiting(sent, q) =>
          match Enqueue(q, d)
          case None => None
          case Some(q1) => Some(Step(c1.(ide := Awaiting(sent, Some(q1))), [], []))
  }

  /** The server accepted our delta: the next revision is ours, and what
      was buffered meanwhile goes out against it. */
  function OnServerAck(c: Client): Option<Step> {
    match c.server
    case Synced => None
    case Awaiting(_, None) => Some(Step(c.(revNum := c.revNum + 1, server := Synced), [], []))
    case Awaiting(_, Some(buf)) =>
      Some(Step(c.(revNum := c.revNum + 1, server := Awaiting(buf, None)),
                [ServerUpdate(ModifRequest(buf, c.revNum + 1))], []))
  }

  /** `on_message_server`. */
  function OnServer(c: Client, m: ServerMessage): Option<Step> {
    match m
    case ServerFile(file, version) => Some(Step(Client(file, file, version, c.format, Synced, Synced), [], [File(file)]))
    case ServerRequestFile => Some(Step(c, [], [RequestFile]))
    case ServerUpdate(req) => OnServerUpdate(c, req.delta, req.revNum)
    case ServerAck => OnServerAck(c)
  }

  // ---------------------------------------------------------------------
  // Messages from the editor
  // ---------------------------------------------------------------------

  /** An editor edit `e` rebased over what the editor has not acknowledged
      yet, the editor side afterwards, and what the editor is told: an
      `Ack`, then again what it has not acknowledged, rebased over its own
      edit. */
  function RebaseIde(f: Format, ide: Side, e: Ops, ide1: string): Option<(Ops, Side, seq<IdeMessage>)> {
    match ide
    case Synced => Some((e, Synced, [Ack]))
    case Awaiting(sent, q) =>
      match Outstanding(sent, q)
      case None => None
      case Some(p) =>
        match Transform(p, e)
        case None => None
        case Some((p1, e1)) =>
          match UpdateFor(f, p1, ide1)
          case None => None
          case Some(u) => Some((e1, Awaiting(p1, None), [Ack, u]))
  }

  function OnIdeUpdate(c: Client, changes: seq<TextModification>): Option<Step> {
    match FromModifications(c.format, c.ideDoc, changes)
    case None => None
    case Some(e) =>
      match Apply(e, c.ideDoc)
      case None => None
      case Some(ide1) =>
        match RebaseIde(c.format, c.ide, e, ide1)
        case None => None
        case Some((e1, side, toIde)) =>
          match Apply(e1, c.doc)
          case None => None
          case Some(doc1) =>
            var c1 := c.(doc := doc1, ideDoc := ide1, ide := side);
            match c.server
            case Synced =>
              Some(Step(c1.(server := Awaiting(e1, None)), [ServerUpdate(ModifRequest(e1, c.revNum))], toIde))
            case Awaiting(out, b) =>
              match Enqueue(b, e1)
              case None => None
              case Some(b1) => Some(Step(c1.(server := Awaiting(out, Some(b1))), [], toIde))
  }

  /** The editor applied what it was sent; what was queued goes out next. */
  function OnIdeAck(c: Client): Option<Step> {
    match c.ide
    case Synced => None
    case Awaiting(sent, q) =>
      match Apply(sent, c.ideDoc)
      case None => None
      case Some(ide1) =>
        match q
        case None => Some(Step(c.(ideDoc := ide1, ide := Synced), [], []))
        case Some(p) =>
          match UpdateFor(c.format, p, ide1)
          case None => None
          case Some(u) => Some(Step(c.(ideDoc := ide1, ide := Awaiting(p, None)), [], [u]))
  }

  /** `on_message_ide`.  The editor's own file starts a new document at
      revision 0, which is what the server is told. */
  function OnIde(c: Client, m: IdeMessage): Option<Step> {
    match m
    case Update(changes) => OnIdeUpdate(c, changes)
    case File(file) => Some(Step(Client(file, file, 0, c.format, Synced, Synced), [ServerFile(file, 0)], []))
    case Ack => OnIdeAck(c)
    case _ => None
  }

  // ---------------------------------------------------------------------
  // The invariant
  // ---------------------------------------------------------------------

  /** Every sequence the client holds is in the builder's canonical shape. */
  predicate Canonical(s: Side) {
    s.Awaiting? ==> Normalized(s.pending) && (s.queued.Some? ==> Normalized(s.queued.value))
  }

  /** What the editor has been sent, then what is queued for it, turns the
      editor's text into the client's. */
  predicate IdeAgrees(c: Client) {
    match c.ide
    case Synced => c.ideDoc == c.doc
    case Awaiting(sent, q) =>
      BaseLen(sent) == |c.ideDoc| && AfterQueue(q, Run(sent, c.ideDoc)) == Some(c.doc)
  }

  /** The server side's sequences chain up to a text of length `n`. */
  predicate ServerShape(s: Side, n: nat) {
    match s
    case Synced => true
    case Awaiting(out, None) => TargetLen(out) == n
    case Awaiting(out, Some(b)) => TargetLen(out) == BaseLen(b) && TargetLen(b) == n
  }

  predicate Inv(c: Client) {
    Canonical(c.server) && Canonical(c.ide) && IdeAgrees(c) && ServerShape(c.server, |c.doc|)
  }

  /** The length of text a server delta must be made against. */
  function ServerBase(s: Side, n: nat): nat {
    match s
    case Synced => n
    case Awaiting(out, _) => BaseLen(out)
  }

  // ---------------------------------------------------------------------
  // Lemmas about the helpers
  // ---------------------------------------------------------------------

  /** Rebasing a server delta succeeds exactly when the delta was made
      against the text the server side expects, and keeps the side's
      sequences chained. */
  lemma RebaseCorrect(server: Side, delta: Ops, n: nat)
    requires Canonical(server) && ServerShape(server, n) && Normalized(delta)
    ensures Rebase(server, delta).Some? && BaseLen(Rebase(server, delta).value.0) == n
      <==> BaseLen(delta) == ServerBase(server, n)
    ensures BaseLen(delta) == ServerBase(server, n) ==>
      var (d, side) := Rebase(server, delta).value;
      && Normalized(d)
      && Canonical(side) && ServerShape(side, TargetLen(d))
      && ServerBase(side, TargetLen(d)) == TargetLen(delta)
  {
    if server.Awaiting? && BaseLen(delta) == BaseLen(server.pending) {
      TransformLengths(delta, server.pending);
      if server.queued.Some? {
        var d1 := Transform(delta, server.pending).value.0;
        TransformLengths(d1, server.queued.value);
      }
    } else if server.Awaiting? {
      assert Transform(delta, server.pending).None?;
    }
  }

  /** Queueing `d` after a queue that leads from `x` to `y`. */
  lemma EnqueueCorrect(q: Option<Ops>, d: Ops, x: string, y: string)
    requires q.Some? ==> Normalized(q.value)
    requires AfterQueue(q, x) == Some(y) && Normalized(d) && BaseLen(d) == |y|
    ensures Enqueue(q, d).Some? && Normalized(Enqueue(q, d).value)
    ensures Apply(Enqueue(q, d).value, x) == Some(Run(d, y))
  {
    if q.Some? {
      NormalizedAllProper(q.value);
      NormalizedAllProper(d);
      ComposeCorrect(q.value, d, x);
      ComposeNormalized(q.value, d);
    }
  }

  /** Queueing `d` after a buffer that leads from length `m` to length `n`. */
  lemma EnqueueLengths(b: Option<Ops>, d: Ops, m: nat, n: nat)
    requires b.None? ==> m == n
    requires b.Some? ==> Normalized(b.value) && BaseLen(b.value) == m && TargetLen(b.value) == n
    requires Normalized(d) && BaseLen(d) == n
    ensures Enqueue(b, d).Some? && Normalized(Enqueue(b, d).value)
    ensures BaseLen(Enqueue(b, d).value) == m && TargetLen(Enqueue(b, d).value) == TargetLen(d)
  {
    if b.Some? {
      ComposeLengths(b.value, d);
    }
  }

  /** The sequence in flight to the editor, then its queue, as one. */
  lemma OutstandingCorrect(sent: Ops, q: Option<Ops>, x: string, y: string)
    requires Normalized(sent) && (q.Some? ==> Normalized(q.value))
    requires BaseLen(sent) == |x| && AfterQueue(q, Run(sent, x)) == Some(y)
    ensures Outstanding(sent, q).Some? && Normalized(Outstanding(sent, q).value)
    ensures Apply(Outstanding(sent, q).value, x) == Some(y)
  {
    if q.Some? {
      NormalizedAllProper(sent);
      NormalizedAllProper(q.value);
      ComposeCorrect(sent, q.value, x);
      ComposeNormalized(sent, q.value);
    }
  }

  /** An `Update` built for the editor does, applied by the editor, what
      the sequence does. */
  lemma UpdateForCorrect(f: Format, op: Ops, doc: string)
    requires BaseLen(op) == |doc|
    ensures UpdateFor(f, op, doc).Some? && UpdateFor(f, op, doc).value.Update?
    ensures ApplyMods(f, doc, UpdateFor(f, op, doc).value.changes) == Some(Run(op, doc))
  {
    ToModificationsCorrect(f, op, doc);
  }

  // ---------------------------------------------------------------------
  // Server messages keep the invariant
  // ---------------------------------------------------------------------

  /** A server update is taken exactly when it was made against the text
      the client expects from the server; the editor then gets it at once
      if it has nothing in flight, otherwise it is queued for the editor. */
  lemma ServerUpdateCorrect(c: Client, delta: Ops, rev: nat)
    requires Inv(c) && Normalized(delta)
    ensures OnServerUpdate(c, delta, rev).Some? <==> BaseLen(delta) == ServerBase(c.server, |c.doc|)
    ensures OnServerUpdate(c, delta, rev).Some? ==>
      var st := OnServerUpdate(c, delta, rev).value;
      && Inv(st.client) && st.toServer == [] && st.client.revNum == rev
      && ServerBase(st.client.server, |st.client.doc|) == TargetLen(delta)
      && (c.ide.Synced? ==>
            |st.toIde| == 1 && st.toIde[0].Update?
            && ApplyMods(c.format, c.ideDoc, st.toIde[0].changes) == Some(st.client.doc))
      && (c.ide.Awaiting? ==> st.toIde == [] && st.client.ideDoc == c.ideDoc)
  {
    RebaseCorrect(c.server, delta, |c.doc|);
    if BaseLen(delta) == ServerBase(c.server, |c.doc|) {
      var (d, side) := Rebase(c.server, delta).value;
      var doc1 := Run(d, c.doc);
      match c.ide
      case Synced =>
        UpdateForCorrect(c.format, d, c.ideDoc);
      case Awaiting(sent, q) =>
        EnqueueCorrect(q, d, Run(sent, c.ideDoc), c.doc);
    }
  }

  lemma ServerAckCorrect(c: Client)
    requires Inv(c)
    ensures OnServerAck(c).Some? <==> c.server.Awaiting?
    ensures OnServerAck(c).Some? ==>
      var st := OnServerAck(c).value;
      && Inv(st.client) && st.toIde == [] && st.client.revNum == c.revNum + 1
      && st.client.doc == c.doc && st.client.ide == c.ide
      && (c.server.queued.None? ==> st.client.server.Synced? && st.toServer == [])
      && (c.server.queued.Some? ==>
            st.toServer == [ServerUpdate(ModifRequest(c.server.queued.value, c.revNum + 1))])
  {
  }

  /** Every server message the client takes leaves the invariant holding. */
  lemma OnServerPreserves(c: Client, m: ServerMessage)
    requires Inv(c)
    requires m.ServerUpdate? ==> Normalized(m.request.delta)
    ensures OnServer(c, m).Some? ==> Inv(OnServer(c, m).value.client)
  {
    match m
    case ServerFile(_, _) =>
    case ServerRequestFile =>
    case ServerUpdate(req) => ServerUpdateCorrect(c, req.delta, req.revNum);
    case ServerAck => ServerAckCorrect(c);
  }

  // ---------------------------------------------------------------------
  // Editor messages keep the invariant
  // ---------------------------------------------------------------------

  lemma RebaseIdeCorrect(c: Client, e: Ops, ide1: string)
    requires Inv(c) && Normalized(e) && BaseLen(e) == |c.ideDoc| && Run(e, c.ideDoc) == ide1
    ensures RebaseIde(c.format, c.ide, e, ide1).Some?
    ensures
      var (e1, side, toIde) := RebaseIde(c.format, c.ide, e, ide1).value;
      && Normalized(e1) && BaseLen(e1) == |c.doc| && Canonical(side)
      && IdeAgrees(c.(doc := Run(e1, c.doc), ideDoc := ide1, ide := side))
      && side.Awaiting? == c.ide.Awaiting? && toIde[0] == Ack
      && (c.ide.Synced? ==> |toIde| == 1)
      && (c.ide.Awaiting? ==>
            |toIde| == 2 && toIde[1].Update?
            && ApplyMods(c.format, ide1, toIde[1].changes) == Some(Run(e1, c.doc)))
  {
    match c.ide
    case Synced =>
    case Awaiting(sent, q) =>
      OutstandingCorrect(sent, q, c.ideDoc, c.doc);
      var p := Outstanding(sent, q).value;
      TransformLengths(p, e);
      NormalizedAllProper(p);
      NormalizedAllProper(e);
      TransformCorrect(p, e, c.ideDoc);
      var (p1, e1) := Transform(p, e).value;
      UpdateForCorrect(c.format, p1, ide1);
  }

  /** An editor update is taken exactly when its modifications apply to the
      editor's text.  The editor is acknowledged at once; the server gets
      the rebased edit at once if it has nothing of ours in flight,
      otherwise it is buffered. */
  lemma IdeUpdateCorrect(c: Client, changes: seq<TextModification>)
    requires Inv(c)
    ensures OnIdeUpdate(c, changes).Some? <==> ApplyMods(c.format, c.ideDoc, changes).Some?
    ensures OnIdeUpdate(c, changes).Some? ==>
      var st := OnIdeUpdate(c, changes).value;
      && Inv(st.client)
      && Some(st.client.ideDoc) == ApplyMods(c.format, c.ideDoc, changes)
      && st.client.revNum == c.revNum
      && |st.toIde| >= 1 && st.toIde[0] == Ack
      && (c.server.Synced? ==>
            |st.toServer| == 1 && st.toServer[0].ServerUpdate? && st.toServer[0].request.revNum == c.revNum)
      && (c.server.Awaiting? ==> st.toServer == [])
  {
    FromModificationsCorrect(c.format, c.ideDoc, changes);
    if ApplyMods(c.format, c.ideDoc, changes).Some? {
      var e := FromModifications(c.format, c.ideDoc, changes).value;
      var ide1 := Run(e, c.ideDoc);
      RebaseIdeCorrect(c, e, ide1);
      var (e1, side, toIde) := RebaseIde(c.format, c.ide, e, ide1).value;
      match c.server
      case Synced =>
      case Awaiting(out, b) =>
        EnqueueLengths(b, e1, TargetLen(out), |c.doc|);
    }
  }

  lemma IdeAckCorrect(c: Client)
    requires Inv(c)
    ensures OnIdeAck(c).Some? <==> c.ide.Awaiting?
    ensures OnIdeAck(c).Some? ==>
      var st := OnIdeAck(c).value;
      && Inv(st.client) && st.toServer == [] && st.client.doc == c.doc
      && st.client.server == c.server && st.client.revNum == c.revNum
      && (c.ide.queued.None? ==> st.client.ide.Synced? && st.client.ideDoc == c.doc && st.toIde == [])
      && (c.ide.queued.Some? ==>
            |st.toIde| == 1 && st.toIde[0].Update?
            && ApplyMods(c.format, st.client.ideDoc, st.toIde[0].changes) == Some(c.doc))
  {
    match c.ide
    case Synced =>
    case Awaiting(sent, q) =>
      var ide1 := Run(sent, c.ideDoc);
      if q.Some? {
        UpdateForCorrect(c.format, q.value, ide1);
      }
  }

  lemma OnIdePreserves(c: Client, m: IdeMessage)
    requires Inv(c)
    ensures OnIde(c, m).Some? ==> Inv(OnIde(c, m).value.client)
  {
    match m
    case Update(changes) => IdeUpdateCorrect(c, changes);
    case Ack => IdeAckCorrect(c);
    case _ =>
  }
}
