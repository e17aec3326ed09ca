/** The revision log of the server (smartshare/src/server/server.rs): a
    history of deltas, the list of connected clients, and the handling of
    one message from one client.  The channel plumbing around it is not
    modelled; a `todo!` or a failed `unwrap` is the result `None`. */
module Server {
  import opened Common
  import opened OperationSeq
  import opened OtCompose
  import opened OtTransform
  import opened Protocol

  /** One message the server sends to the client `to`. */
  datatype Notice = Notice(to: nat, msg: ServerMessage)

  /** `Server`: the connected clients by id, in connection order, and the
      history of accepted deltas; the delta at index `k` turns revision
      `k - 1` into revision `k`. */
  datatype Server = Server(clients: seq<nat>, deltas: seq<Ops>)

  /** The history is well formed: it starts from the empty text, every delta
      is canonical, and each delta applies to the text the previous one
      produced.  The length of the text at revision `k` is then
      `TargetLen(deltas[k])`. */
  predicate Chained(deltas: seq<Ops>) {
    && |deltas| >= 1
    && BaseLen(deltas[0]) == 0
    && (forall k :: 0 <= k < |deltas| ==> Normalized(deltas[k]))
    && (forall k :: 0 < k < |deltas| ==> BaseLen(deltas[k]) == TargetLen(deltas[k - 1]))
  }

  /** `Server::new`: one empty delta, so the first revision is 0, and nobody
      connected. */
  function New(): (s: Server)
    ensures |s.deltas| == 1 && BaseLen(s.deltas[0]) == 0 && TargetLen(s.deltas[0]) == 0
    ensures Chained(s.deltas)
    ensures s.clients == []
  {
    Server([], [[]])
  }

  /** `on_connect`: the client joins at the end of the list. */
  function OnConnect(s: Server, id: nat): (r: Server)
    ensures |r.clients| == |s.clients| + 1 && r.clients[|s.clients|] == id
    ensures r.clients[..|s.clients|] == s.clients
    ensures r.deltas == s.deltas
  {
    s.(clients := s.clients + [id])
  }

  /** `Vec::retain` with the test `client.id() != id`. */
  function Without(xs: seq<nat>, id: nat): (r: seq<nat>)
    ensures id !in r
    ensures forall x :: x in r <==> x in xs && x != id
    ensures |r| <= |xs|
    decreases |xs|
  {
    if xs == [] then []
    else (if xs[0] == id then [] else [xs[0]]) + Without(xs[1..], id)
  }

  /** `on_disconnect`: every client with that id leaves. */
  function OnDisconnect(s: Server, id: nat): (r: Server)
    ensures id !in r.clients
    ensures forall x :: x != id ==> (x in r.clients <==> x in s.clients)
    ensures r.deltas == s.deltas
  {
    s.(clients := Without(s.clients, id))
  }

  /** The loop of `on_message`: the delta is transformed against each
      delta of the history from index `i` on, keeping the second half of
      each result; the `unwrap` panics when a transform fails. */
  function RebaseFrom(deltas: seq<Ops>, i: nat, d: Ops): (r: Option<Ops>)
    requires i <= |deltas|
    ensures i == |deltas| ==> r == Some(d)
    decreases |deltas| - i
  {
    if i == |deltas| then Some(d)
    else
      match Transform(deltas[i], d)
      case None => None
      case Some(p) => RebaseFrom(deltas, i + 1, p.1)
  }

  /** The text a sequence of deltas produces from `x`, applied in order. */
  function ReplayAll(ds: seq<Ops>, x: string): Option<string>
    decreases |ds|
  {
    if ds == [] then Some(x)
    else
      match Apply(ds[0], x)
      case None => None
      case Some(y) => ReplayAll(ds[1..], y)
  }

  /** The first halves of the transforms `RebaseFrom` performs, which the
      server drops: the history from index `i` on as seen by the client
      after its own delta `d`. */
  function Catchup(deltas: seq<Ops>, i: nat, d: Ops): Option<seq<Ops>>
    requires i <= |deltas|
    decreases |deltas| - i
  {
    if i == |deltas| then Some([])
    else
      match Transform(deltas[i], d)
      case None => None
      case Some(p) =>
        match Catchup(deltas, i + 1, p.1)
        case None => None
        case Some(c) => Some([p.0] + c)
  }

  /** The notices of one accepted delta, one per connected client in list
      order: the sender gets `Ack`, every other client the delta and its
      revision. */
  function Notify(clients: seq<nat>, source: nat, d: Ops, rev: nat): (r: seq<Notice>)
    ensures |r| == |clients|
    ensures forall k :: 0 <= k < |r| ==> r[k].to == clients[k]
    ensures forall k :: 0 <= k < |r| ==>
      (r[k].msg == ServerAck <==> clients[k] == source) &&
      (clients[k] != source ==> r[k].msg == ServerUpdate(ModifRequest(d, rev)))
  {
    seq(|clients|, k requires 0 <= k < |clients| =>
      Notice(clients[k], if clients[k] == source then ServerAck else ServerUpdate(ModifRequest(d, rev))))
  }

  /** `on_message`: only `ServerUpdate` is handled.  A revision past the end
      of the history and every other message reach `todo!`. */
  function OnMessage(s: Server, source: nat, msg: ServerMessage): (r: Option<(Server, seq<Notice>)>)
    ensures !msg.ServerUpdate? ==> r == None
    ensures msg.ServerUpdate? && msg.request.revNum >= |s.deltas| ==> r == None
  {
    match msg
    case ServerUpdate(req) =>
      if req.revNum >= |s.deltas| then None
      else
        (match RebaseFrom(s.deltas, req.revNum + 1, req.delta)
         case None => None
         case Some(d) =>
           var s1 := s.(deltas := s.deltas + [d]);
           Some((s1, Notify(s.clients, source, d, |s1.deltas| - 1))))
    case _ => None
  }

  // ---------------------------------------------------------------------
  // Properties
  // ---------------------------------------------------------------------

  /** The client list keeps its order under removal: removing from a
      concatenation removes from each part. */
  lemma {:induction false} WithoutAppend(a: seq<nat>, b: seq<nat>, id: nat)
    ensures Without(a + b, id) == Without(a, id) + Without(b, id)
    decreases |a|
  {
    if a == [] {
      SeqEmptyFront(a, b);
    } else {
      SeqConsAppend(a, b);
      WithoutAppend(a[1..], b, id);
      SeqAssoc(if a[0] == id then [] else [a[0]], Without(a[1..], id), Without(b, id));
    }
  }

  /** Removal takes out every copy of the id and leaves every other id as
      many times as it was there. */
  lemma {:induction false} WithoutCounts(xs: seq<nat>, id: nat)
    ensures forall x :: multiset(Without(xs, id))[x] == if x == id then 0 else multiset(xs)[x]
    decreases |xs|
  {
    if xs != [] {
      WithoutCounts(xs[1..], id);
      assert xs == [xs[0]] + xs[1..];
      assert multiset(xs) == multiset([xs[0]]) + multiset(xs[1..]);
    }
  }

  /** Removing an id nobody has changes nothing. */
  lemma {:induction false} WithoutAbsent(xs: seq<nat>, id: nat)
    requires id !in xs
    ensures Without(xs, id) == xs
    decreases |xs|
  {
    if xs != [] {
      assert xs[0] != id;
      WithoutAbsent(xs[1..], id);
      assert [xs[0]] + xs[1..] == xs;
    }
  }

  /** A client that connects and disconnects leaves the list as removing
      its id would have: a reconnection does not leave a stale entry. */
  lemma ConnectThenDisconnect(s: Server, id: nat)
    ensures OnDisconnect(OnConnect(s, id), id) == OnDisconnect(s, id)
  {
    WithoutAppend(s.clients, [id], id);
    assert Without([id], id) == [];
  }

  /** Over a well formed history, rebasing a canonical delta made at
      revision `i - 1` succeeds, gives a canonical delta for the latest
      revision; a delta made against a text of another length is refused
      as soon as one transform is needed. */
  lemma {:induction false} RebaseLengths(deltas: seq<Ops>, i: nat, d: Ops)
    requires Chained(deltas) && 1 <= i <= |deltas| && Normalized(d)
    ensures BaseLen(d) == TargetLen(deltas[i - 1]) ==>
      && RebaseFrom(deltas, i, d).Some?
      && Normalized(RebaseFrom(deltas, i, d).value)
      && BaseLen(RebaseFrom(deltas, i, d).value) == TargetLen(deltas[|deltas| - 1])
    ensures i < |deltas| && BaseLen(d) != TargetLen(deltas[i - 1]) ==> RebaseFrom(deltas, i, d) == None
    decreases |deltas| - i
  {
    if i < |deltas| && BaseLen(d) == TargetLen(deltas[i - 1]) {
      TransformLengths(deltas[i], d);
      RebaseLengths(deltas, i + 1, Transform(deltas[i], d).value.1);
    }
  }

  /** An accepted update grows the history by exactly the rebased delta,
      leaves the clients alone, and notifies each connected client once:
      `Ack` to the sender, the delta at the new latest revision to the
      others. */
  lemma ServerUpdateShape(s: Server, source: nat, req: ModifRequest)
    requires OnMessage(s, source, ServerUpdate(req)).Some?
    ensures var (s1, out) := OnMessage(s, source, ServerUpdate(req)).value;
      && req.revNum < |s.deltas|
      && |s1.deltas| == |s.deltas| + 1
      && s1.deltas[..|s.deltas|] == s.deltas
      && Some(s1.deltas[|s.deltas|]) == RebaseFrom(s.deltas, req.revNum + 1, req.delta)
      && s1.clients == s.clients
      && |out| == |s.clients|
      && (forall k :: 0 <= k < |out| ==> out[k].to == s.clients[k])
      && (forall k :: 0 <= k < |out| && s.clients[k] == source ==> out[k].msg == ServerAck)
      && (forall k :: 0 <= k < |out| && s.clients[k] != source ==>
            out[k].msg == ServerUpdate(ModifRequest(s1.deltas[|s.deltas|], |s1.deltas| - 1)))
  {
    var d := RebaseFrom(s.deltas, req.revNum + 1, req.delta).value;
    assert (s.deltas + [d])[..|s.deltas|] == s.deltas;
  }

  /** Appending a canonical delta made against the latest text keeps the
      history well formed. */
  lemma ChainedExtend(deltas: seq<Ops>, d: Ops)
    requires Chained(deltas) && Normalized(d) && BaseLen(d) == TargetLen(deltas[|deltas| - 1])
    ensures Chained(deltas + [d])
  {
    var h := deltas + [d];
    assert forall k :: 0 <= k < |deltas| ==> h[k] == deltas[k];
  }

  /** Over a well formed history, a canonical update is accepted exactly
      when it was made against a text of the length its revision had, or
      when it names the latest revision (then nothing is checked); an
      accepted update made against the right length keeps the history well
      formed. */
  lemma ServerUpdateAccepted(s: Server, source: nat, req: ModifRequest)
    requires Chained(s.deltas) && Normalized(req.delta) && req.revNum < |s.deltas|
    ensures req.revNum + 1 < |s.deltas| ==>
      (OnMessage(s, source, ServerUpdate(req)).Some? <==> BaseLen(req.delta) == TargetLen(s.deltas[req.revNum]))
    ensures req.revNum + 1 == |s.deltas| ==> OnMessage(s, source, ServerUpdate(req)).Some?
    ensures BaseLen(req.delta) == TargetLen(s.deltas[req.revNum]) ==>
      OnMessage(s, source, ServerUpdate(req)).Some? && Chained(OnMessage(s, source, ServerUpdate(req)).value.0.deltas)
  {
    var r := RebaseFrom(s.deltas, req.revNum + 1, req.delta);
    assert OnMessage(s, source, ServerUpdate(req)).Some? <==> r.Some?;
    RebaseLengths(s.deltas, req.revNum + 1, req.delta);
    if BaseLen(req.delta) == TargetLen(s.deltas[req.revNum]) {
      assert OnMessage(s, source, ServerUpdate(req)).value.0.deltas == s.deltas + [r.value];
      ChainedExtend(s.deltas, r.value);
    }
  }

  /** Convergence of the revision log: a client whose text was `x` at
      revision `i - 1` and made the edit `d` reaches, by applying the
      history it missed as transformed over its edit, the same text the
      server reaches by applying the rebased delta after that history. */
  lemma {:induction false} RebaseConverges(deltas: seq<Ops>, i: nat, d: Ops, x: string)
    requires Chained(deltas) && 1 <= i <= |deltas| && Normalized(d)
    requires BaseLen(d) == |x| && |x| == TargetLen(deltas[i - 1])
    ensures RebaseFrom(deltas, i, d).Some? && Catchup(deltas, i, d).Some?
    ensures ReplayAll(deltas[i..], x).Some?
    ensures Apply(RebaseFrom(deltas, i, d).value, ReplayAll(deltas[i..], x).value)
         == ReplayAll(Catchup(deltas, i, d).value, Run(d, x))
    decreases |deltas| - i
  {
    RebaseLengths(deltas, i, d);
    if i == |deltas| {
      assert deltas[i..] == [];
    } else {
      var a := deltas[i];
      TransformLengths(a, d);
      NormalizedAllProper(a);
      NormalizedAllProper(d);
      TransformCorrect(a, d, x);
      var p := Transform(a, d).value;
      var x1 := Run(a, x);
      RebaseConverges(deltas, i + 1, p.1, x1);
      assert deltas[i..][0] == a && deltas[i..][1..] == deltas[i + 1..];
      assert ReplayAll(deltas[i..], x) == ReplayAll(deltas[i + 1..], x1);
      var c := Catchup(deltas, i + 1, p.1).value;
      assert Catchup(deltas, i, d) == Some([p.0] + c);
      assert ([p.0] + c)[0] == p.0 && ([p.0] + c)[1..] == c;
      assert ReplayAll([p.0] + c, Run(d, x)) == ReplayAll(c, Run(p.0, Run(d, x)));
    }
  }
}
