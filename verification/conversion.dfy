/** The Rust client's translation between the editor's edits and the
    operation sequences exchanged with the server.  The editor sends a list
    of modifications applied one after the other, each with its offset and
    length in the client's unit (characters or UTF-8 bytes); the server
    speaks operation sequences counted in characters. */
module Conversion {
  import opened Common
  import opened OperationSeq
  import opened OtCompose
  import opened Units
  import opened Protocol

  // ---------------------------------------------------------------------
  // Applying modifications
  // ---------------------------------------------------------------------

  /** The character range a modification replaces, or `None` when one of
      its ends is past the text or inside one character's encoding. */
  function ModRange(f: Format, doc: string, m: TextModification): (r: Option<(nat, nat)>)
    ensures r.Some? ==> r.value.0 <= r.value.1 <= |doc|
  {
    match (CharIndex(f, doc, m.offset), CharIndex(f, doc, m.offset + m.delete))
    case (Some(s), Some(e)) =>
      CharIndexMonotone(f, doc, m.offset, m.offset + m.delete);
      Some((s, e))
    case _ => None
  }

  /** One modification applied to a text. */
  function ApplyMod(f: Format, doc: string, m: TextModification): Option<string> {
    match ModRange(f, doc, m)
    case None => None
    case Some((s, e)) => Some(doc[..s] + m.text + doc[e..])
  }

  /** Modifications applied one after the other, each to the result of the
      previous one; the first that does not fit stops everything. */
  function ApplyMods(f: Format, doc: string, mods: seq<TextModification>): Option<string>
    decreases |mods|
  {
    if mods == [] then Some(doc)
    else
      match ApplyMod(f, doc, mods[0])
      case None => None
      case Some(d) => ApplyMods(f, d, mods[1..])
  }

  lemma {:induction false} ApplyModsAppend(f: Format, doc: string, m1: seq<TextModification>, m2: seq<TextModification>)
    ensures ApplyMods(f, doc, m1 + m2) ==
      match ApplyMods(f, doc, m1)
      case None => None
      case Some(d) => ApplyMods(f, d, m2)
    decreases |m1|
  {
    if m1 == [] {
      assert m1 + m2 == m2;
    } else {
      assert (m1 + m2)[0] == m1[0] && (m1 + m2)[1..] == m1[1..] + m2;
      match ApplyMod(f, doc, m1[0])
      case None =>
      case Some(d) => ApplyModsAppend(f, d, m1[1..], m2);
    }
  }

  // ---------------------------------------------------------------------
  // From editor modifications to one operation sequence
  // ---------------------------------------------------------------------

  /** The sequence that does nothing to `doc`. */
  function Identity(doc: string): Ops {
    AddRetain([], |doc|)
  }

  /** Keep `s` characters, replace the next `e - s` by `t`, keep the
      remaining `n - e`, built with the canonical builder. */
  function Replacement(s: nat, e: nat, t: string, n: nat): Ops
    requires s <= e <= n
  {
    AddRetain(AddInsert(AddDelete(AddRetain([], s), e - s), t), n - e)
  }

  /** One modification as an operation sequence over the whole text: keep
      what is before, delete the range, insert the text, keep the rest. */
  function ModOp(f: Format, doc: string, m: TextModification): (r: Option<Ops>)
    ensures r.Some? <==> ModRange(f, doc, m).Some?
  {
    match ModRange(f, doc, m)
    case None => None
    case Some((s, e)) => Some(Replacement(s, e, m.text, |doc|))
  }

  /** The composition, from the original text, of the modifications seen so
      far (`acc`) with those still to come; `cur` is the text reached. */
  function FromModsLoop(f: Format, cur: string, mods: seq<TextModification>, acc: Ops): Option<Ops>
    decreases |mods|
  {
    if mods == [] then Some(acc)
    else
      match ModOp(f, cur, mods[0])
      case None => None
      case Some(op) =>
        match (Apply(op, cur), Compose(acc, op))
        case (Some(next), Some(c)) => FromModsLoop(f, next, mods[1..], c)
        case _ => None
  }

  /** An editor update as one operation sequence over the text it was made
      against. */
  function FromModifications(f: Format, doc: string, mods: seq<TextModification>): Option<Ops> {
    FromModsLoop(f, doc, mods, Identity(doc))
  }

  lemma IdentityCorrect(doc: string)
    ensures Normalized(Identity(doc))
    ensures BaseLen(Identity(doc)) == |doc|
    ensures Run(Identity(doc), doc) == doc
  {
    AddNormalized([], Retain(|doc|));
    RunAddOne([], Retain(|doc|), [], doc);
    EmptyConcat(doc);
  }

  lemma ReplacementPrefix(doc: string, s: nat)
    requires s <= |doc|
    ensures Normalized(AddRetain([], s))
    ensures BaseLen(AddRetain([], s)) == s
    ensures Run(AddRetain([], s), doc[..s]) == doc[..s]
  {
    AddNormalized([], Retain(s));
    RunAddOne([], Retain(s), [], doc[..s]);
    EmptyConcat(doc[..s]);
  }

  lemma ReplacementDelete(a1: Ops, p: string, d: string)
    requires Normalized(a1) && BaseLen(a1) == |p| && Run(a1, p) == p
    ensures Normalized(AddDelete(a1, |d|))
    ensures BaseLen(AddDelete(a1, |d|)) == |p + d|
    ensures Run(AddDelete(a1, |d|), p + d) == p
  {
    AddNormalized(a1, Delete(|d|));
    RunAddOne(a1, Delete(|d|), p, d);
    EmptyConcat(p);
  }

  lemma ReplacementInsert(a2: Ops, x: string, p: string, t: string)
    requires Normalized(a2) && BaseLen(a2) == |x| && Run(a2, x) == p
    ensures Normalized(AddInsert(a2, t))
    ensures BaseLen(AddInsert(a2, t)) == |x|
    ensures Run(AddInsert(a2, t), x) == p + t
  {
    AddNormalized(a2, Insert(t));
    RunAddOne(a2, Insert(t), x, []);
    EmptyConcat(x);
  }

  lemma ReplacementSuffix(a3: Ops, z: string, k: nat, p: string)
    requires k <= |z| && Normalized(a3) && BaseLen(a3) == k && Run(a3, z[..k]) == p
    ensures Normalized(AddRetain(a3, |z| - k))
    ensures BaseLen(AddRetain(a3, |z| - k)) == |z|
    ensures Run(AddRetain(a3, |z| - k), z) == p + z[k..]
  {
    var x, y := z[..k], z[k..];
    assert x + y == z;
    AddNormalized(a3, Retain(|y|));
    RunAddOne(a3, Retain(|y|), x, y);
  }

  /** Keeping `s` characters and deleting up to `e` turns `doc[..e]` into
      `doc[..s]`. */
  lemma ReplacementHead(doc: string, s: nat, e: nat)
    requires s <= e <= |doc|
    ensures var a2 := AddDelete(AddRetain([], s), e - s);
      Normalized(a2) && BaseLen(a2) == e && Run(a2, doc[..e]) == doc[..s]
  {
    ReplacementPrefix(doc, s);
    ReplacementDelete(AddRetain([], s), doc[..s], doc[s..e]);
    SliceJoin(doc, s, e);
  }

  /** Inserting `t` and keeping the rest after a prefix that turns
      `doc[..e]` into `p`. */
  lemma ReplacementTail(doc: string, e: nat, t: string, a2: Ops, p: string, a4: Ops)
    requires e <= |doc| && Normalized(a2) && BaseLen(a2) == e && Run(a2, doc[..e]) == p
    requires a4 == AddRetain(AddInsert(a2, t), |doc| - e)
    ensures Normalized(a4) && BaseLen(a4) == |doc| && Run(a4, doc) == p + t + doc[e..]
  {
    ReplacementInsert(a2, doc[..e], p, t);
    ReplacementSuffix(AddInsert(a2, t), doc, e, p + t);
  }

  /** The built sequence replaces `doc[s..e]` by `t`. */
  lemma ReplacementCorrect(doc: string, s: nat, e: nat, t: string)
    requires s <= e <= |doc|
    ensures Normalized(Replacement(s, e, t, |doc|))
    ensures BaseLen(Replacement(s, e, t, |doc|)) == |doc|
    ensures Run(Replacement(s, e, t, |doc|), doc) == doc[..s] + t + doc[e..]
  {
    var a2 := AddDelete(AddRetain([], s), e - s);
    var r := Replacement(s, e, t, |doc|);
    ReplacementHead(doc, s, e);
    ReplacementTail(doc, e, t, a2, doc[..s], r);
  }

  /** The sequence for one modification does what the modification does. */
  lemma ModOpCorrect(f: Format, doc: string, m: TextModification)
    requires ModRange(f, doc, m).Some?
    ensures Normalized(ModOp(f, doc, m).value)
    ensures BaseLen(ModOp(f, doc, m).value) == |doc|
    ensures Run(ModOp(f, doc, m).value, doc) == ApplyMod(f, doc, m).value
  {
    var se := ModRange(f, doc, m).value;
    ReplacementCorrect(doc, se.0, se.1, m.text);
  }

  /** Converting an update succeeds exactly when its modifications apply,
      and the resulting sequence turns the text into what applying them one
      after the other gives. */
  lemma {:induction false} FromModsLoopCorrect(f: Format, doc: string, cur: string, mods: seq<TextModification>, acc: Ops)
    requires Normalized(acc) && BaseLen(acc) == |doc| && Run(acc, doc) == cur
    decreases |mods|
    ensures FromModsLoop(f, cur, mods, acc).Some? <==> ApplyMods(f, cur, mods).Some?
    ensures FromModsLoop(f, cur, mods, acc).Some? ==>
      && Normalized(FromModsLoop(f, cur, mods, acc).value)
      && BaseLen(FromModsLoop(f, cur, mods, acc).value) == |doc|
      && Run(FromModsLoop(f, cur, mods, acc).value, doc) == ApplyMods(f, cur, mods).value
  {
    if mods != [] && ModRange(f, cur, mods[0]).Some? {
      var op := ModOp(f, cur, mods[0]).value;
      ModOpCorrect(f, cur, mods[0]);
      NormalizedAllProper(acc);
      NormalizedAllProper(op);
      ComposeCorrect(acc, op, doc);
      ComposeNormalized(acc, op);
      var c := Compose(acc, op).value;
      FromModsLoopCorrect(f, doc, Run(op, cur), mods[1..], c);
    }
  }

  lemma FromModificationsCorrect(f: Format, doc: string, mods: seq<TextModification>)
    ensures FromModifications(f, doc, mods).Some? <==> ApplyMods(f, doc, mods).Some?
    ensures FromModifications(f, doc, mods).Some? ==>
      && Normalized(FromModifications(f, doc, mods).value)
      && BaseLen(FromModifications(f, doc, mods).value) == |doc|
      && Run(FromModifications(f, doc, mods).value, doc) == ApplyMods(f, doc, mods).value
  {
    IdentityCorrect(doc);
    FromModsLoopCorrect(f, doc, doc, mods, Identity(doc));
  }

  // ---------------------------------------------------------------------
  // From an operation sequence to editor modifications
  // ---------------------------------------------------------------------

  /** The modification for a run of deletions and insertions that starts
      after `out`, if the run changes anything. */
  function Flush(f: Format, out: string, dels: string, ins: string): seq<TextModification> {
    if dels == [] && ins == [] then []
    else [TextModification(UnitLen(f, out), UnitLen(f, dels), ins)]
  }

  /** Walks `ops` over the rest `y` of the old text.  `out` is the new text
      before the current run of deletions and insertions, `dels` what the
      run has deleted and `ins` what it has inserted.  Each run becomes one
      modification whose offset counts the new text before it, so the
      modifications apply one after the other. */
  function ToModsLoop(f: Format, ops: Ops, y: string, out: string, dels: string, ins: string): seq<TextModification>
    requires BaseLen(ops) == |y|
  {
    if ops == [] then Flush(f, out, dels, ins)
    else
      match ops[0]
      case Retain(n) => Flush(f, out, dels, ins) + ToModsLoop(f, ops[1..], y[n..], out + ins + y[..n], [], [])
      case Delete(n) => ToModsLoop(f, ops[1..], y[n..], out, dels + y[..n], ins)
      case Insert(s) => ToModsLoop(f, ops[1..], y, out, dels, ins + s)
  }

  /** A server delta as modifications for the editor, which holds `doc`. */
  function ToModifications(f: Format, ops: Ops, doc: string): seq<TextModification>
    requires BaseLen(ops) == |doc|
  {
    ToModsLoop(f, ops, doc, [], [], [])
  }

  lemma FlushCorrect(f: Format, out: string, dels: string, ins: string, y: string)
    ensures ApplyMods(f, out + dels + y, Flush(f, out, dels, ins)) == Some(out + ins + y)
  {
    var d := out + dels + y;
    if dels == [] && ins == [] {
      assert out + dels + y == out + ins + y;
    } else {
      var m := TextModification(UnitLen(f, out), UnitLen(f, dels), ins);
      assert d[..|out|] == out;
      assert d[..|out| + |dels|] == out + dels;
      UnitLenAppend(f, out, dels);
      CharIndexRoundTrip(f, d, |out|, 0);
      CharIndexRoundTrip(f, d, |out| + |dels|, 0);
      assert ModRange(f, d, m) == Some((|out|, |out| + |dels|));
      assert d[|out| + |dels|..] == y;
      assert ApplyMod(f, d, m) == Some(out + ins + y);
      assert Flush(f, out, dels, ins)[1..] == [];
    }
  }

  lemma {:induction false} ToModsLoopCorrect(f: Format, ops: Ops, y: string, out: string, dels: string, ins: string)
    requires BaseLen(ops) == |y|
    ensures ApplyMods(f, out + dels + y, ToModsLoop(f, ops, y, out, dels, ins)) == Some(out + ins + Run(ops, y))
  {
    if ops == [] {
      FlushCorrect(f, out, dels, ins, y);
    } else {
      match ops[0]
      case Retain(n) =>
        ToModsLoopCorrect(f, ops[1..], y[n..], out + ins + y[..n], [], []);
        ToModsRetainStep(f, ops, y, out, dels, ins);
      case Delete(n) =>
        ToModsLoopCorrect(f, ops[1..], y[n..], out, dels + y[..n], ins);
        ToModsDeleteStep(ops, y, out, dels, ins);
      case Insert(s) =>
        ToModsLoopCorrect(f, ops[1..], y, out, dels, ins + s);
        ToModsInsertStep(ops, y, out, ins);
    }
  }

  lemma ToModsRetainStep(f: Format, ops: Ops, y: string, out: string, dels: string, ins: string)
    requires BaseLen(ops) == |y| && ops != [] && ops[0].Retain?
    requires
      var n := ops[0].n;
      ApplyMods(f, (out + ins + y[..n]) + [] + y[n..], ToModsLoop(f, ops[1..], y[n..], out + ins + y[..n], [], []))
        == Some((out + ins + y[..n]) + [] + Run(ops[1..], y[n..]))
    ensures ApplyMods(f, out + dels + y, ToModsLoop(f, ops, y, out, dels, ins)) == Some(out + ins + Run(ops, y))
  {
    var n := ops[0].n;
    var rest := ToModsLoop(f, ops[1..], y[n..], out + ins + y[..n], [], []);
    FlushCorrect(f, out, dels, ins, y);
    ApplyModsAppend(f, out + dels + y, Flush(f, out, dels, ins), rest);
    RunUnfold(ops, y);
    EmptyConcat(out + ins + y[..n]);
    SplitJoin(out + ins, y, n);
    Assoc(out + ins, y[..n], Run(ops[1..], y[n..]));
  }

  lemma ToModsDeleteStep(ops: Ops, y: string, out: string, dels: string, ins: string)
    requires BaseLen(ops) == |y| && ops != [] && ops[0].Delete?
    ensures out + (dels + y[..ops[0].n]) + y[ops[0].n..] == out + dels + y
    ensures Run(ops, y) == Run(ops[1..], y[ops[0].n..])
  {
    var n := ops[0].n;
    RunStartsDelete(ops, y);
    SplitJoin(dels, y, n);
    Assoc(out, dels + y[..n], y[n..]);
    Assoc(out, dels, y);
  }

  lemma ToModsInsertStep(ops: Ops, y: string, out: string, ins: string)
    requires BaseLen(ops) == |y| && ops != [] && ops[0].Insert?
    ensures out + (ins + ops[0].s) + Run(ops[1..], y) == out + ins + Run(ops, y)
  {
    RunStartsInsert(ops, y);
    Assoc(out + ins, ops[0].s, Run(ops[1..], y));
    Assoc(out, ins, ops[0].s);
  }

  /** The modifications sent to the editor do, applied one after the other,
      what the delta does. */
  lemma ToModificationsCorrect(f: Format, ops: Ops, doc: string)
    requires BaseLen(ops) == |doc|
    ensures ApplyMods(f, doc, ToModifications(f, ops, doc)) == Some(Run(ops, doc))
  {
    ToModsLoopCorrect(f, ops, doc, [], [], []);
    assert [] + [] + doc == doc;
    assert [] + [] + Run(ops, doc) == Run(ops, doc);
  }

  /** Converting a delta to modifications and back gives a sequence with
      the same effect. */
  lemma ModificationsRoundTrip(f: Format, ops: Ops, doc: string)
    requires BaseLen(ops) == |doc|
    ensures FromModifications(f, doc, ToModifications(f, ops, doc)).Some?
    ensures Apply(FromModifications(f, doc, ToModifications(f, ops, doc)).value, doc) == Some(Run(ops, doc))
  {
    ToModificationsCorrect(f, ops, doc);
    FromModificationsCorrect(f, doc, ToModifications(f, ops, doc));
  }
}
