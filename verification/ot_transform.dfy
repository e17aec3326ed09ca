/** `OperationSeq::transform` of the `operational_transform` crate: given
    two edits `a` and `b` of the same text, the pair `(a', b')` such that
    `b'` after `a` and `a'` after `b` lead to the same text.  The server
    rebases each incoming delta over the deltas it has not seen, and the
    client rebases the editor's and the server's concurrent edits over each
    other. */
module OtTransform {
  import opened Common
  import opened OperationSeq
  import opened OtCompose

  /** The crate's merge loop.  `a1` and `b1` are the two sequences built so
      far; an insertion of `a` wins a tie against an insertion of `b`. */
  function TransformLoop(a: Ops, b: Ops, a1: Ops, b1: Ops): Option<(Ops, Ops)>
    decreases |a| + |b|
  {
    if a == [] && b == [] then Some((a1, b1))
    else if a != [] && a[0].Insert? then
      TransformLoop(a[1..], b, AddInsert(a1, a[0].s), AddRetain(b1, |a[0].s|))
    else if b != [] && b[0].Insert? then
      TransformLoop(a, b[1..], AddRetain(a1, |b[0].s|), AddInsert(b1, b[0].s))
    else if a == [] || b == [] then None
    else if a[0].Retain? && b[0].Retain? then
      var i := a[0].n;
      var j := b[0].n;
      if i < j then TransformLoop(a[1..], [Retain(j - i)] + b[1..], AddRetain(a1, i), AddRetain(b1, i))
      else if i == j then TransformLoop(a[1..], b[1..], AddRetain(a1, i), AddRetain(b1, i))
      else TransformLoop([Retain(i - j)] + a[1..], b[1..], AddRetain(a1, j), AddRetain(b1, j))
    else if a[0].Delete? && b[0].Delete? then
      var i := a[0].n;
      var j := b[0].n;
      if i < j then TransformLoop(a[1..], [Delete(j - i)] + b[1..], a1, b1)
      else if i == j then TransformLoop(a[1..], b[1..], a1, b1)
      else TransformLoop([Delete(i - j)] + a[1..], b[1..], a1, b1)
    else if a[0].Delete? then
      var i := a[0].n;
      var j := b[0].n;
      if i < j then TransformLoop(a[1..], [Retain(j - i)] + b[1..], AddDelete(a1, i), b1)
      else if i == j then TransformLoop(a[1..], b[1..], AddDelete(a1, i), b1)
      else TransformLoop([Delete(i - j)] + a[1..], b[1..], AddDelete(a1, j), b1)
    else
      var i := a[0].n;
      var j := b[0].n;
      if i < j then TransformLoop(a[1..], [Delete(j - i)] + b[1..], a1, AddDelete(b1, i))
      else if i == j then TransformLoop(a[1..], b[1..], a1, AddDelete(b1, i))
      else TransformLoop([Retain(i - j)] + a[1..], b[1..], a1, AddDelete(b1, j))
  }

  /** `transform`: refuses two edits of texts of different lengths. */
  function Transform(a: Ops, b: Ops): Option<(Ops, Ops)> {
    if BaseLen(a) != BaseLen(b) then None else TransformLoop(a, b, [], [])
  }

  // ---------------------------------------------------------------------
  // One step of the loop, seen uniformly
  // ---------------------------------------------------------------------

  /** The first `m` characters a retain or delete head walks over. */
  function Taken(h: Op, m: nat): Op
    requires !h.Insert?
  {
    if h.Retain? then Retain(m) else Delete(m)
  }

  /** What is left of a retain or delete head after `m` of its characters:
      the head is put back shortened, or dropped once used up. */
  function Tail(a: Ops, m: nat): Ops
    requires a != [] && !a[0].Insert? && m <= OpBase(a[0])
  {
    if m == OpBase(a[0]) then a[1..] else [Taken(a[0], OpBase(a[0]) - m)] + a[1..]
  }

  /** The operations the loop appends to `a1` and `b1` when heads `ha` and
      `hb` both walk over `m` characters; `Retain(0)` appends nothing. */
  function Outputs(ha: Op, hb: Op, m: nat): (Op, Op)
    requires !ha.Insert? && !hb.Insert?
  {
    if ha.Retain? && hb.Retain? then (Retain(m), Retain(m))
    else if ha.Delete? && hb.Delete? then (Retain(0), Retain(0))
    else if ha.Delete? then (Delete(m), Retain(0))
    else (Retain(0), Delete(m))
  }

  /** In every retain/delete branch, the appended operations bring what
      the two heads produced to the same text. */
  lemma OutputsAgree(ha: Op, hb: Op, m: nat, t: string)
    requires !ha.Insert? && !hb.Insert? && |t| == m
    ensures |Emit(Taken(ha, m), t)| == OpBase(Outputs(ha, hb, m).1)
    ensures |Emit(Taken(hb, m), t)| == OpBase(Outputs(ha, hb, m).0)
    ensures Emit(Outputs(ha, hb, m).0, Emit(Taken(hb, m), t)) == Emit(Outputs(ha, hb, m).1, Emit(Taken(ha, m), t))
  {
  }

  /** The uniform step when both heads retain. */
  lemma TransformUnfoldRetainRetain(a: Ops, b: Ops, a1: Ops, b1: Ops)
    requires a != [] && b != [] && a[0].Retain? && b[0].Retain?
    ensures
      var m := Min(OpBase(a[0]), OpBase(b[0]));
      var (oa, ob) := Outputs(a[0], b[0], m);
      TransformLoop(a, b, a1, b1) == TransformLoop(Tail(a, m), Tail(b, m), Add(a1, oa), Add(b1, ob))
  {
    var i := OpBase(a[0]);
    var j := OpBase(b[0]);
    var m := Min(i, j);
    assert Outputs(a[0], b[0], m) == (Retain(m), Retain(m));
    assert Add(a1, Retain(m)) == AddRetain(a1, m) && Add(b1, Retain(m)) == AddRetain(b1, m);
    if i == j {
      assert Tail(a, i) == a[1..] && Tail(b, j) == b[1..];
    } else if i < j {
      assert Tail(a, i) == a[1..];
    } else {
      assert Tail(b, j) == b[1..];
    }
  }


  /** The uniform step when both heads delete. */
  lemma TransformUnfoldDeleteDelete(a: Ops, b: Ops, a1: Ops, b1: Ops)
    requires a != [] && b != [] && a[0].Delete? && b[0].Delete?
    ensures
      var m := Min(OpBase(a[0]), OpBase(b[0]));
      var (oa, ob) := Outputs(a[0], b[0], m);
      TransformLoop(a, b, a1, b1) == TransformLoop(Tail(a, m), Tail(b, m), Add(a1, oa), Add(b1, ob))
  {
    var i := OpBase(a[0]);
    var j := OpBase(b[0]);
    var m := Min(i, j);
    assert Outputs(a[0], b[0], m) == (Retain(0), Retain(0));
    assert Add(a1, Retain(0)) == a1 && Add(b1, Retain(0)) == b1;
    if i == j {
      assert Tail(a, i) == a[1..] && Tail(b, j) == b[1..];
    } else if i < j {
      assert Tail(a, i) == a[1..];
    } else {
      assert Tail(b, j) == b[1..];
    }
  }


  /** The uniform step when `a` deletes what `b` retains. */
  lemma TransformUnfoldDeleteRetain(a: Ops, b: Ops, a1: Ops, b1: Ops)
    requires a != [] && b != [] && a[0].Delete? && b[0].Retain?
    ensures
      var m := Min(OpBase(a[0]), OpBase(b[0]));
      var (oa, ob) := Outputs(a[0], b[0], m);
      TransformLoop(a, b, a1, b1) == TransformLoop(Tail(a, m), Tail(b, m), Add(a1, oa), Add(b1, ob))
  {
    var i := OpBase(a[0]);
    var j := OpBase(b[0]);
    var m := Min(i, j);
    assert Outputs(a[0], b[0], m) == (Delete(m), Retain(0));
    assert Add(a1, Delete(m)) == AddDelete(a1, m) && Add(b1, Retain(0)) == b1;
    if i == j {
      assert Tail(a, i) == a[1..] && Tail(b, j) == b[1..];
    } else if i < j {
      assert Tail(a, i) == a[1..];
    } else {
      assert Tail(b, j) == b[1..];
    }
  }


  /** The uniform step when `a` retains what `b` deletes. */
  lemma TransformUnfoldRetainDelete(a: Ops, b: Ops, a1: Ops, b1: Ops)
    requires a != [] && b != [] && a[0].Retain? && b[0].Delete?
    ensures
      var m := Min(OpBase(a[0]), OpBase(b[0]));
      var (oa, ob) := Outputs(a[0], b[0], m);
      TransformLoop(a, b, a1, b1) == TransformLoop(Tail(a, m), Tail(b, m), Add(a1, oa), Add(b1, ob))
  {
    var i := OpBase(a[0]);
    var j := OpBase(b[0]);
    var m := Min(i, j);
    assert Outputs(a[0], b[0], m) == (Retain(0), Delete(m));
    assert Add(a1, Retain(0)) == a1 && Add(b1, Delete(m)) == AddDelete(b1, m);
    if i == j {
      assert Tail(a, i) == a[1..] && Tail(b, j) == b[1..];
    } else if i < j {
      assert Tail(a, i) == a[1..];
    } else {
      assert Tail(b, j) == b[1..];
    }
  }


  /** Every retain/delete branch of the loop is one uniform step. */
  lemma TransformUnfold(a: Ops, b: Ops, a1: Ops, b1: Ops)
    requires a != [] && b != [] && !a[0].Insert? && !b[0].Insert?
    ensures
      var m := Min(OpBase(a[0]), OpBase(b[0]));
      var (oa, ob) := Outputs(a[0], b[0], m);
      TransformLoop(a, b, a1, b1) == TransformLoop(Tail(a, m), Tail(b, m), Add(a1, oa), Add(b1, ob))
  {
    if a[0].Retain? && b[0].Retain? {
      TransformUnfoldRetainRetain(a, b, a1, b1);
    } else if a[0].Delete? && b[0].Delete? {
      TransformUnfoldDeleteDelete(a, b, a1, b1);
    } else if a[0].Delete? {
      TransformUnfoldDeleteRetain(a, b, a1, b1);
    } else {
      TransformUnfoldRetainDelete(a, b, a1, b1);
    }
  }

  /** `Tail` when the head is used up: the rest of the sequence. */
  lemma TailFactsUsedUp(a: Ops, y: string)
    requires a != [] && !a[0].Insert? && BaseLen(a) == |y|
    ensures BaseLen(Tail(a, OpBase(a[0]))) == |y| - OpBase(a[0])
    ensures |Tail(a, OpBase(a[0]))| < |a|
    ensures AllProper(a) ==> AllProper(Tail(a, OpBase(a[0])))
    ensures Run(a, y) == Emit(Taken(a[0], OpBase(a[0])), y[..OpBase(a[0])]) + Run(Tail(a, OpBase(a[0])), y[OpBase(a[0])..])
  {
    var m := OpBase(a[0]);
    assert Tail(a, m) == a[1..];
    assert Taken(a[0], m) == a[0];
    RunUnfold(a, y);
    if AllProper(a) {
      assert forall i :: 0 <= i < |a[1..]| ==> a[1..][i] == a[i + 1];
    }
  }

  /** `Tail` when part of a retain or delete head is left. */
  lemma TailFactsPartial(a: Ops, m: nat, y: string)
    requires a != [] && !a[0].Insert? && m < OpBase(a[0]) && BaseLen(a) == |y|
    ensures BaseLen(Tail(a, m)) == |y| - m
    ensures |Tail(a, m)| == |a|
    ensures AllProper(a) && m > 0 ==> AllProper(Tail(a, m))
    ensures Run(a, y) == Emit(Taken(a[0], m), y[..m]) + Run(Tail(a, m), y[m..])
  {
    var h, rest := a[0], a[1..];
    var n := OpBase(h);
    SeqCons(a);
    RunOnEqualOps(a, [h] + rest, y);
    ConsLengths(h, rest);
    ConsLengths(Taken(h, n - m), rest);
    assert Tail(a, m) == [Taken(h, n - m)] + rest;
    if h.Retain? {
      RetainSplit(n, m, rest, y);
    } else {
      DeleteSplit(n, m, rest, y);
      EmptyConcat(Run(Tail(a, m), y[m..]));
    }
    if AllProper(a) && m > 0 {
      assert forall i :: 0 <= i < |rest| ==> rest[i] == a[i + 1];
      ProperAfterSplit(Taken(h, n - m), rest);
    }
  }

  lemma TailFacts(a: Ops, m: nat, y: string)
    requires a != [] && !a[0].Insert? && m <= OpBase(a[0]) && BaseLen(a) == |y|
    ensures BaseLen(Tail(a, m)) == |y| - m
    ensures |Tail(a, m)| <= |a|
    ensures m == OpBase(a[0]) ==> |Tail(a, m)| < |a|
    ensures AllProper(a) && m > 0 ==> AllProper(Tail(a, m))
    ensures Run(a, y) == Emit(Taken(a[0], m), y[..m]) + Run(Tail(a, m), y[m..])
  {
    if m == OpBase(a[0]) {
      TailFactsUsedUp(a, y);
    } else {
      TailFactsPartial(a, m, y);
    }
  }

  // ---------------------------------------------------------------------
  // Success
  // ---------------------------------------------------------------------

  lemma AllProperTail(a: Ops)
    requires a != [] && AllProper(a)
    ensures AllProper(a[1..]) && Proper(a[0])
  {
    assert forall i :: 0 <= i < |a[1..]| ==> a[1..][i] == a[i + 1];
  }

  /** Without empty operations, the loop finishes exactly when both edits
      walk over texts of the same length. */
  lemma {:induction false} TransformLoopSucceeds(a: Ops, b: Ops, a1: Ops, b1: Ops)
    requires AllProper(a) && AllProper(b)
    ensures TransformLoop(a, b, a1, b1).Some? <==> BaseLen(a) == BaseLen(b)
    decreases |a| + |b|
  {
    if a == [] && b == [] {
    } else if a != [] && a[0].Insert? {
      AllProperTail(a);
      TransformLoopSucceeds(a[1..], b, AddInsert(a1, a[0].s), AddRetain(b1, |a[0].s|));
    } else if b != [] && b[0].Insert? {
      AllProperTail(b);
      TransformLoopSucceeds(a, b[1..], AddRetain(a1, |b[0].s|), AddInsert(b1, b[0].s));
    } else if a == [] {
      AllProperTail(b);
    } else if b == [] {
      AllProperTail(a);
    } else {
      AllProperTail(a);
      AllProperTail(b);
      var m := Min(OpBase(a[0]), OpBase(b[0]));
      var (oa, ob) := Outputs(a[0], b[0], m);
      TransformUnfold(a, b, a1, b1);
      TailFacts(a, m, seq(BaseLen(a), _ => 'a'));
      TailFacts(b, m, seq(BaseLen(b), _ => 'a'));
      TransformLoopSucceeds(Tail(a, m), Tail(b, m), Add(a1, oa), Add(b1, ob));
    }
  }

  // ---------------------------------------------------------------------
  // Convergence
  // ---------------------------------------------------------------------

  /** What `TransformLoopMeaning` promises about one loop state: `xa` and
      `xb` are what `a` and `b` have produced so far, and `y` is the part of
      the common old text not yet walked over. */
  predicate Converges(a: Ops, b: Ops, a1: Ops, b1: Ops, xa: string, xb: string, y: string)
    requires |xa| == BaseLen(b1) && |xb| == BaseLen(a1) && |y| == BaseLen(a) && |y| == BaseLen(b)
    requires TransformLoop(a, b, a1, b1).Some?
  {
    var (ra, rb) := TransformLoop(a, b, a1, b1).value;
    && BaseLen(rb) == |xa + Run(a, y)|
    && BaseLen(ra) == |xb + Run(b, y)|
    && (Run(b1, xa) == Run(a1, xb) ==> Run(rb, xa + Run(a, y)) == Run(ra, xb + Run(b, y)))
  }

  /** One step of the loop keeps the two sides converging.  In the step,
      `a` produces `ta` and `b` produces `tb` from the same stretch of old
      text, after which the rest of `a` produces `wa` and the rest of `b`
      produces `wb`; the operations appended to the two results (`oa` to
      `a1`, `ob` to `b1`) bring `tb` and `ta` to the same text.  Then the
      conclusion for the next loop state gives the one for this state. */
  lemma ConvergeStep(a1: Ops, b1: Ops, oa: Op, ob: Op, xa: string, xb: string,
                     ta: string, tb: string, wa: string, wb: string, ra: Ops, rb: Ops)
    requires |ta| == OpBase(ob) && |tb| == OpBase(oa) && Emit(oa, tb) == Emit(ob, ta)
    requires |xa| == BaseLen(b1) && |xb| == BaseLen(a1)
    requires |xa + ta| == BaseLen(Add(b1, ob)) && |xb + tb| == BaseLen(Add(a1, oa))
    requires BaseLen(rb) == |(xa + ta) + wa| && BaseLen(ra) == |(xb + tb) + wb|
    requires Run(Add(b1, ob), xa + ta) == Run(Add(a1, oa), xb + tb) ==>
      Run(rb, (xa + ta) + wa) == Run(ra, (xb + tb) + wb)
    ensures BaseLen(rb) == |xa + (ta + wa)| && BaseLen(ra) == |xb + (tb + wb)|
    ensures Run(b1, xa) == Run(a1, xb) ==> Run(rb, xa + (ta + wa)) == Run(ra, xb + (tb + wb))
  {
    Assoc(xa, ta, wa);
    Assoc(xb, tb, wb);
    if Run(b1, xa) == Run(a1, xb) {
      RunAddOne(b1, ob, xa, ta);
      RunAddOne(a1, oa, xb, tb);
    }
  }

  /** The loop's two results bring the outputs of `a` and `b` to the same
      text (the crate's convergence property, TP1). */
  lemma {:induction false} TransformLoopMeaning(a: Ops, b: Ops, a1: Ops, b1: Ops, xa: string, xb: string, y: string)
    requires |xa| == BaseLen(b1) && |xb| == BaseLen(a1) && |y| == BaseLen(a) && |y| == BaseLen(b)
    requires TransformLoop(a, b, a1, b1).Some?
    ensures Converges(a, b, a1, b1, xa, xb, y)
    decreases |a| + |b|, 1
  {
    if a == [] && b == [] {
      EmptyConcat(xa);
      EmptyConcat(xb);
    } else if a != [] && a[0].Insert? {
      MeaningInsertA(a, b, a1, b1, xa, xb, y);
    } else if b != [] && b[0].Insert? {
      MeaningInsertB(a, b, a1, b1, xa, xb, y);
    } else {
      MeaningWalk(a, b, a1, b1, xa, xb, y);
    }
  }

  lemma {:induction false} MeaningInsertA(a: Ops, b: Ops, a1: Ops, b1: Ops, xa: string, xb: string, y: string)
    requires |xa| == BaseLen(b1) && |xb| == BaseLen(a1) && |y| == BaseLen(a) && |y| == BaseLen(b)
    requires TransformLoop(a, b, a1, b1).Some?
    requires a != [] && a[0].Insert?
    ensures Converges(a, b, a1, b1, xa, xb, y)
    decreases |a| + |b|, 0
  {
    var (ra, rb) := TransformLoop(a, b, a1, b1).value;
    var s := a[0].s;
    SeqCons(a);
    RunInsertHead(s, a[1..], y);
    var oa, ob := Insert(s), Retain(|s|);
    AddLengths(a1, oa);
    AddLengths(b1, ob);
    EmptyConcat(xb);
    EmptyConcat(Run(b, y));
    TransformLoopMeaning(a[1..], b, Add(a1, oa), Add(b1, ob), xa + s, xb + [], y);
    ConvergeStep(a1, b1, oa, ob, xa, xb, s, [], Run(a[1..], y), Run(b, y), ra, rb);
  }

  lemma {:induction false} MeaningInsertB(a: Ops, b: Ops, a1: Ops, b1: Ops, xa: string, xb: string, y: string)
    requires |xa| == BaseLen(b1) && |xb| == BaseLen(a1) && |y| == BaseLen(a) && |y| == BaseLen(b)
    requires TransformLoop(a, b, a1, b1).Some?
    requires !(a != [] && a[0].Insert?) && b != [] && b[0].Insert?
    ensures Converges(a, b, a1, b1, xa, xb, y)
    decreases |a| + |b|, 0
  {
    var (ra, rb) := TransformLoop(a, b, a1, b1).value;
    var s := b[0].s;
    SeqCons(b);
    RunInsertHead(s, b[1..], y);
    var oa, ob := Retain(|s|), Insert(s);
    AddLengths(a1, oa);
    AddLengths(b1, ob);
    EmptyConcat(xa);
    EmptyConcat(Run(a, y));
    TransformLoopMeaning(a, b[1..], Add(a1, oa), Add(b1, ob), xa + [], xb + s, y);
    ConvergeStep(a1, b1, oa, ob, xa, xb, [], s, Run(a, y), Run(b[1..], y), ra, rb);
  }

  lemma {:induction false} MeaningWalk(a: Ops, b: Ops, a1: Ops, b1: Ops, xa: string, xb: string, y: string)
    requires |xa| == BaseLen(b1) && |xb| == BaseLen(a1) && |y| == BaseLen(a) && |y| == BaseLen(b)
    requires TransformLoop(a, b, a1, b1).Some?
    requires !(a != [] && a[0].Insert?) && !(b != [] && b[0].Insert?) && !(a == [] && b == [])
    ensures Converges(a, b, a1, b1, xa, xb, y)
    decreases |a| + |b|, 0
  {
    var (ra, rb) := TransformLoop(a, b, a1, b1).value;
    var m := Min(OpBase(a[0]), OpBase(b[0]));
    var (oa, ob) := Outputs(a[0], b[0], m);
    TransformUnfold(a, b, a1, b1);
    TailFacts(a, m, y);
    TailFacts(b, m, y);
    var ta := Emit(Taken(a[0], m), y[..m]);
    var tb := Emit(Taken(b[0], m), y[..m]);
    OutputsAgree(a[0], b[0], m, y[..m]);
    AddLengths(a1, oa);
    AddLengths(b1, ob);
    TransformLoopMeaning(Tail(a, m), Tail(b, m), Add(a1, oa), Add(b1, ob), xa + ta, xb + tb, y[m..]);
    ConvergeStep(a1, b1, oa, ob, xa, xb, ta, tb, Run(Tail(a, m), y[m..]), Run(Tail(b, m), y[m..]), ra, rb);
  }

  /** `transform` on two edits of the same text succeeds, and its results
      lead both sides to one text: `b'` after `a` equals `a'` after `b`. */
  lemma TransformCorrect(a: Ops, b: Ops, s: string)
    requires AllProper(a) && AllProper(b) && BaseLen(a) == |s| && BaseLen(b) == |s|
    ensures Transform(a, b).Some?
    ensures BaseLen(Transform(a, b).value.0) == TargetLen(b)
    ensures BaseLen(Transform(a, b).value.1) == TargetLen(a)
    ensures TargetLen(Transform(a, b).value.0) == TargetLen(Transform(a, b).value.1)
    ensures Run(Transform(a, b).value.1, Run(a, s)) == Run(Transform(a, b).value.0, Run(b, s))
  {
    TransformLoopSucceeds(a, b, [], []);
    TransformLoopMeaning(a, b, [], [], [], [], s);
    EmptyConcat(Run(a, s));
    EmptyConcat(Run(b, s));
  }

  /** Both results are built by the builder alone, so they keep the
      canonical shape. */
  lemma {:induction false} TransformLoopNormalized(a: Ops, b: Ops, a1: Ops, b1: Ops)
    requires Normalized(a1) && Normalized(b1)
    ensures TransformLoop(a, b, a1, b1).Some? ==>
      Normalized(TransformLoop(a, b, a1, b1).value.0) && Normalized(TransformLoop(a, b, a1, b1).value.1)
    decreases |a| + |b|
  {
    if a == [] && b == [] {
    } else if a != [] && a[0].Insert? {
      AddNormalized(a1, a[0]);
      AddNormalized(b1, Retain(|a[0].s|));
      TransformLoopNormalized(a[1..], b, AddInsert(a1, a[0].s), AddRetain(b1, |a[0].s|));
    } else if b != [] && b[0].Insert? {
      AddNormalized(a1, Retain(|b[0].s|));
      AddNormalized(b1, b[0]);
      TransformLoopNormalized(a, b[1..], AddRetain(a1, |b[0].s|), AddInsert(b1, b[0].s));
    } else if a == [] || b == [] {
    } else {
      var m := Min(OpBase(a[0]), OpBase(b[0]));
      var (oa, ob) := Outputs(a[0], b[0], m);
      TransformUnfold(a, b, a1, b1);
      AddNormalized(a1, oa);
      AddNormalized(b1, ob);
      assert |Tail(a, m)| + |Tail(b, m)| < |a| + |b|;
      TransformLoopNormalized(Tail(a, m), Tail(b, m), Add(a1, oa), Add(b1, ob));
    }
  }

  /** The crate's `transform` yields two sequences in canonical shape. */
  lemma TransformNormalized(a: Ops, b: Ops)
    ensures Transform(a, b).Some? ==>
      Normalized(Transform(a, b).value.0) && Normalized(Transform(a, b).value.1)
  {
    TransformLoopNormalized(a, b, [], []);
  }

  /** Transforming two canonical sequences over the same text succeeds and
      gives canonical sequences whose lengths close the square. */
  lemma TransformLengths(a: Ops, b: Ops)
    requires Normalized(a) && Normalized(b) && BaseLen(a) == BaseLen(b)
    ensures Transform(a, b).Some?
    ensures Normalized(Transform(a, b).value.0) && Normalized(Transform(a, b).value.1)
    ensures BaseLen(Transform(a, b).value.0) == TargetLen(b)
    ensures BaseLen(Transform(a, b).value.1) == TargetLen(a)
    ensures TargetLen(Transform(a, b).value.0) == TargetLen(Transform(a, b).value.1)
  {
    NormalizedAllProper(a);
    NormalizedAllProper(b);
    TransformCorrect(a, b, Filler(BaseLen(a)));
    TransformNormalized(a, b);
  }
}
