/** `OperationSeq::compose` of the `operational_transform` crate: one
    sequence that does what `a` followed by `b` does.  The SmartShare client
    uses it to fold an editor update into one delta and to merge edits held
    back while the server has not acknowledged. */
module OtCompose {
  import opened Common
  import opened OperationSeq

  predicate AllProper(ops: Ops) {
    forall i :: 0 <= i < |ops| ==> Proper(ops[i])
  }

  /** The crate's merge loop over the two operation streams.  `acc` is the
      sequence built so far; a head that is only partly consumed is put back
      with what is left of it. */
  function ComposeLoop(a: Ops, b: Ops, acc: Ops): Option<Ops>
    decreases |a| + |b|
  {
    if a == [] && b == [] then Some(acc)
    else if a != [] && a[0].Delete? then ComposeLoop(a[1..], b, AddDelete(acc, a[0].n))
    else if b != [] && b[0].Insert? then ComposeLoop(a, b[1..], AddInsert(acc, b[0].s))
    else if a == [] || b == [] then None
    else if a[0].Retain? && b[0].Retain? then
      var i := a[0].n;
      var j := b[0].n;
      if i < j then ComposeLoop(a[1..], [Retain(j - i)] + b[1..], AddRetain(acc, i))
      else if i == j then ComposeLoop(a[1..], b[1..], AddRetain(acc, i))
      else ComposeLoop([Retain(i - j)] + a[1..], b[1..], AddRetain(acc, j))
    else if a[0].Insert? && b[0].Delete? then
      var s := a[0].s;
      var j := b[0].n;
      if |s| < j then ComposeLoop(a[1..], [Delete(j - |s|)] + b[1..], acc)
      else if |s| == j then ComposeLoop(a[1..], b[1..], acc)
      else ComposeLoop([Insert(s[j..])] + a[1..], b[1..], acc)
    else if a[0].Insert? then
      var s := a[0].s;
      var j := b[0].n;
      if |s| < j then ComposeLoop(a[1..], [Retain(j - |s|)] + b[1..], AddInsert(acc, s))
      else if |s| == j then ComposeLoop(a[1..], b[1..], AddInsert(acc, s))
      else ComposeLoop([Insert(s[j..])] + a[1..], b[1..], AddInsert(acc, s[..j]))
    else
      var i := a[0].n;
      var j := b[0].n;
      if i < j then ComposeLoop(a[1..], [Delete(j - i)] + b[1..], AddDelete(acc, i))
      else if i == j then ComposeLoop(a[1..], b[1..], AddDelete(acc, j))
      else ComposeLoop([Retain(i - j)] + a[1..], b[1..], AddDelete(acc, j))
  }

  /** `compose`: refuses unless `a` produces a text of the length `b`
      expects. */
  function Compose(a: Ops, b: Ops): Option<Ops> {
    if TargetLen(a) != BaseLen(b) then None else ComposeLoop(a, b, [])
  }

  // ---------------------------------------------------------------------
  // Small facts about running sequences
  // ---------------------------------------------------------------------

  lemma RunCons(h: Op, rest: Ops, z: string)
    requires OpBase(h) + BaseLen(rest) == |z|
    ensures BaseLen([h] + rest) == |z|
    ensures Run([h] + rest, z) == Emit(h, z[..OpBase(h)]) + Run(rest, z[OpBase(h)..])
  {
    var l := [h] + rest;
    assert l[0] == h && l[1..] == rest;
  }

  lemma RunAddOne(acc: Ops, op: Op, x: string, t: string)
    requires |x| == BaseLen(acc) && |t| == OpBase(op)
    ensures BaseLen(Add(acc, op)) == |x + t|
    ensures Run(Add(acc, op), x + t) == Run(acc, x) + Emit(op, t)
  {
    AddMeaning(acc, op, x + t);
    LengthsSingle(op);
    RunAppend(acc, [op], x + t);
    RunSingle(op, t);
    assert (x + t)[..|x|] == x;
    assert (x + t)[|x|..] == t;
  }

  /** A deletion added to the accumulator consumes `t` and emits nothing. */
  lemma RunAddDelete(acc: Ops, n: nat, x: string, t: string)
    requires |x| == BaseLen(acc) && |t| == n
    ensures BaseLen(AddDelete(acc, n)) == |x| + n
    ensures Run(AddDelete(acc, n), x + t) == Run(acc, x)
  {
    RunAddOne(acc, Delete(n), x, t);
    EmptyConcat(Run(acc, x));
  }

  // ---------------------------------------------------------------------
  // Success and lengths
  // ---------------------------------------------------------------------

  lemma {:induction false} ProperAfterSplit(h: Op, rest: Ops)
    requires Proper(h) && AllProper(rest)
    ensures AllProper([h] + rest)
  {
    var l := [h] + rest;
    forall i | 0 <= i < |l| ensures Proper(l[i]) {
      if i > 0 { assert l[i] == rest[i-1]; }
    }
  }

  /** What `ComposeLoopLengths` promises about one loop state. */
  predicate LengthsHold(a: Ops, b: Ops, acc: Ops) {
    && (ComposeLoop(a, b, acc).Some? <==> TargetLen(a) == BaseLen(b))
    && (ComposeLoop(a, b, acc).Some? ==>
         && BaseLen(ComposeLoop(a, b, acc).value) == BaseLen(acc) + BaseLen(a)
         && TargetLen(ComposeLoop(a, b, acc).value) == TargetLen(acc) + TargetLen(b))
  }

  /** Without empty operations, the loop finishes exactly when the lengths
      meet, and the result walks the old text of `a` into the new text of
      `b`. */
  lemma {:induction false} ComposeLoopLengths(a: Ops, b: Ops, acc: Ops)
    requires AllProper(a) && AllProper(b)
    ensures ComposeLoop(a, b, acc).Some? <==> TargetLen(a) == BaseLen(b)
    ensures ComposeLoop(a, b, acc).Some? ==>
      && BaseLen(ComposeLoop(a, b, acc).value) == BaseLen(acc) + BaseLen(a)
      && TargetLen(ComposeLoop(a, b, acc).value) == TargetLen(acc) + TargetLen(b)
    decreases |a| + |b|, 1
  {
    if a == [] && b == [] {
    } else if a != [] && a[0].Delete? {
      AddLengths(acc, a[0]);
      ComposeLoopLengths(a[1..], b, AddDelete(acc, a[0].n));
    } else if b != [] && b[0].Insert? {
      AddLengths(acc, b[0]);
      ComposeLoopLengths(a, b[1..], AddInsert(acc, b[0].s));
    } else if a == [] || b == [] {
      if a == [] { assert Proper(b[0]); } else { assert Proper(a[0]); }
    } else if a[0].Retain? && b[0].Retain? {
      if a[0].n < b[0].n {
        LengthsRetainRetainLt(a, b, acc);
      } else if a[0].n == b[0].n {
        LengthsRetainRetainEq(a, b, acc);
      } else {
        LengthsRetainRetainGt(a, b, acc);
      }
    } else if a[0].Insert? && b[0].Delete? {
      if |a[0].s| < b[0].n {
        LengthsInsertDeleteLt(a, b, acc);
      } else if |a[0].s| == b[0].n {
        LengthsInsertDeleteEq(a, b, acc);
      } else {
        LengthsInsertDeleteGt(a, b, acc);
      }
    } else if a[0].Insert? {
      if |a[0].s| < b[0].n {
        LengthsInsertRetainLt(a, b, acc);
      } else if |a[0].s| == b[0].n {
        LengthsInsertRetainEq(a, b, acc);
      } else {
        LengthsInsertRetainGt(a, b, acc);
      }
    } else {
      if a[0].n < b[0].n {
        LengthsRetainDeleteLt(a, b, acc);
      } else if a[0].n == b[0].n {
        LengthsRetainDeleteEq(a, b, acc);
      } else {
        LengthsRetainDeleteGt(a, b, acc);
      }
    }
  }

  /** Putting back what is left of a partly consumed head. */
  lemma PutBack(h: Op, rest: Ops)
    requires Proper(h) && AllProper(rest)
    ensures AllProper([h] + rest)
    ensures BaseLen([h] + rest) == OpBase(h) + BaseLen(rest)
    ensures TargetLen([h] + rest) == OpTarget(h) + TargetLen(rest)
  {
    ProperAfterSplit(h, rest);
    LengthsAppend([h], rest);
    LengthsSingle(h);
  }

  /** Retain against retain, the head of `a` shorter than the head of `b`. */
  lemma {:induction false} LengthsRetainRetainLt(a: Ops, b: Ops, acc: Ops)
    requires AllProper(a) && AllProper(b)
    requires a != [] && b != [] && a[0].Retain? && b[0].Retain? && a[0].n < b[0].n
    ensures LengthsHold(a, b, acc)
    decreases |a| + |b|, 0
  {
    var i := a[0].n;
    var j := b[0].n;
    PutBack(Retain(j - i), b[1..]);
    AddLengths(acc, Retain(i));
    ComposeLoopLengths(a[1..], [Retain(j - i)] + b[1..], AddRetain(acc, i));
  }

  /** Retain against retain, the head of `a` as long as the head of `b`. */
  lemma {:induction false} LengthsRetainRetainEq(a: Ops, b: Ops, acc: Ops)
    requires AllProper(a) && AllProper(b)
    requires a != [] && b != [] && a[0].Retain? && b[0].Retain? && a[0].n == b[0].n
    ensures LengthsHold(a, b, acc)
    decreases |a| + |b|, 0
  {
    var i := a[0].n;
    var j := b[0].n;
    AddLengths(acc, Retain(i));
    ComposeLoopLengths(a[1..], b[1..], AddRetain(acc, i));
  }

  /** Retain against retain, the head of `a` longer than the head of `b`. */
  lemma {:induction false} LengthsRetainRetainGt(a: Ops, b: Ops, acc: Ops)
    requires AllProper(a) && AllProper(b)
    requires a != [] && b != [] && a[0].Retain? && b[0].Retain? && a[0].n > b[0].n
    ensures LengthsHold(a, b, acc)
    decreases |a| + |b|, 0
  {
    var i := a[0].n;
    var j := b[0].n;
    PutBack(Retain(i - j), a[1..]);
    AddLengths(acc, Retain(j));
    ComposeLoopLengths([Retain(i - j)] + a[1..], b[1..], AddRetain(acc, j));
  }

  /** Insertion against delete, the head of `a` shorter than the head of `b`. */
  lemma {:induction false} LengthsInsertDeleteLt(a: Ops, b: Ops, acc: Ops)
    requires AllProper(a) && AllProper(b)
    requires a != [] && b != [] && a[0].Insert? && b[0].Delete? && |a[0].s| < b[0].n
    ensures LengthsHold(a, b, acc)
    decreases |a| + |b|, 0
  {
    var s := a[0].s;
    var j := b[0].n;
    PutBack(Delete(j - |s|), b[1..]);
    ComposeLoopLengths(a[1..], [Delete(j - |s|)] + b[1..], acc);
  }

  /** Insertion against delete, the head of `a` as long as the head of `b`. */
  lemma {:induction false} LengthsInsertDeleteEq(a: Ops, b: Ops, acc: Ops)
    requires AllProper(a) && AllProper(b)
    requires a != [] && b != [] && a[0].Insert? && b[0].Delete? && |a[0].s| == b[0].n
    ensures LengthsHold(a, b, acc)
    decreases |a| + |b|, 0
  {
    var s := a[0].s;
    var j := b[0].n;
    ComposeLoopLengths(a[1..], b[1..], acc);
  }

  /** Insertion against delete, the head of `a` longer than the head of `b`. */
  lemma {:induction false} LengthsInsertDeleteGt(a: Ops, b: Ops, acc: Ops)
    requires AllProper(a) && AllProper(b)
    requires a != [] && b != [] && a[0].Insert? && b[0].Delete? && |a[0].s| > b[0].n
    ensures LengthsHold(a, b, acc)
    decreases |a| + |b|, 0
  {
    var s := a[0].s;
    var j := b[0].n;
    PutBack(Insert(s[j..]), a[1..]);
    ComposeLoopLengths([Insert(s[j..])] + a[1..], b[1..], acc);
  }

  /** Insertion against retain, the head of `a` shorter than the head of `b`. */
  lemma {:induction false} LengthsInsertRetainLt(a: Ops, b: Ops, acc: Ops)
    requires AllProper(a) && AllProper(b)
    requires a != [] && b != [] && a[0].Insert? && b[0].Retain? && |a[0].s| < b[0].n
    ensures LengthsHold(a, b, acc)
    decreases |a| + |b|, 0
  {
    var s := a[0].s;
    var j := b[0].n;
    PutBack(Retain(j - |s|), b[1..]);
    AddLengths(acc, Insert(s));
    ComposeLoopLengths(a[1..], [Retain(j - |s|)] + b[1..], AddInsert(acc, s));
  }

  /** Insertion against retain, the head of `a` as long as the head of `b`. */
  lemma {:induction false} LengthsInsertRetainEq(a: Ops, b: Ops, acc: Ops)
    requires AllProper(a) && AllProper(b)
    requires a != [] && b != [] && a[0].Insert? && b[0].Retain? && |a[0].s| == b[0].n
    ensures LengthsHold(a, b, acc)
    decreases |a| + |b|, 0
  {
    var s := a[0].s;
    var j := b[0].n;
    AddLengths(acc, Insert(s));
    ComposeLoopLengths(a[1..], b[1..], AddInsert(acc, s));
  }

  /** Insertion against retain, the head of `a` longer than the head of `b`. */
  lemma {:induction false} LengthsInsertRetainGt(a: Ops, b: Ops, acc: Ops)
    requires AllProper(a) && AllProper(b)
    requires a != [] && b != [] && a[0].Insert? && b[0].Retain? && |a[0].s| > b[0].n
    ensures LengthsHold(a, b, acc)
    decreases |a| + |b|, 0
  {
    var s := a[0].s;
    var j := b[0].n;
    PutBack(Insert(s[j..]), a[1..]);
    AddLengths(acc, Insert(s[..j]));
    ComposeLoopLengths([Insert(s[j..])] + a[1..], b[1..], AddInsert(acc, s[..j]));
  }

  /** Retain against delete, the head of `a` shorter than the head of `b`. */
  lemma {:induction false} LengthsRetainDeleteLt(a: Ops, b: Ops, acc: Ops)
    requires AllProper(a) && AllProper(b)
    requires a != [] && b != [] && a[0].Retain? && b[0].Delete? && a[0].n < b[0].n
    ensures LengthsHold(a, b, acc)
    decreases |a| + |b|, 0
  {
    var i := a[0].n;
    var j := b[0].n;
    PutBack(Delete(j - i), b[1..]);
    AddLengths(acc, Delete(i));
    ComposeLoopLengths(a[1..], [Delete(j - i)] + b[1..], AddDelete(acc, i));
  }

  /** Retain against delete, the head of `a` as long as the head of `b`. */
  lemma {:induction false} LengthsRetainDeleteEq(a: Ops, b: Ops, acc: Ops)
    requires AllProper(a) && AllProper(b)
    requires a != [] && b != [] && a[0].Retain? && b[0].Delete? && a[0].n == b[0].n
    ensures LengthsHold(a, b, acc)
    decreases |a| + |b|, 0
  {
    var i := a[0].n;
    var j := b[0].n;
    AddLengths(acc, Delete(j));
    ComposeLoopLengths(a[1..], b[1..], AddDelete(acc, j));
  }

  /** Retain against delete, the head of `a` longer than the head of `b`. */
  lemma {:induction false} LengthsRetainDeleteGt(a: Ops, b: Ops, acc: Ops)
    requires AllProper(a) && AllProper(b)
    requires a != [] && b != [] && a[0].Retain? && b[0].Delete? && a[0].n > b[0].n
    ensures LengthsHold(a, b, acc)
    decreases |a| + |b|, 0
  {
    var i := a[0].n;
    var j := b[0].n;
    PutBack(Retain(i - j), a[1..]);
    AddLengths(acc, Delete(j));
    ComposeLoopLengths([Retain(i - j)] + a[1..], b[1..], AddDelete(acc, j));
  }

  lemma AddLengths(acc: Ops, op: Op)
    ensures BaseLen(Add(acc, op)) == BaseLen(acc) + OpBase(op)
    ensures TargetLen(Add(acc, op)) == TargetLen(acc) + OpTarget(op)
  {
    var s: string := seq(BaseLen(acc) + OpBase(op), _ => 'a');
    AddMeaning(acc, op, s);
  }

  // ---------------------------------------------------------------------
  // Meaning
  // ---------------------------------------------------------------------

  lemma ConsLengths(h: Op, rest: Ops)
    ensures BaseLen([h] + rest) == OpBase(h) + BaseLen(rest)
    ensures TargetLen([h] + rest) == OpTarget(h) + TargetLen(rest)
  {
    LengthsAppend([h], rest);
    LengthsSingle(h);
  }

  /** Retaining `m` characters is retaining the first `k` and then the
      remaining `m - k`. */
  lemma RetainSplit(m: nat, k: nat, rest: Ops, z: string)
    requires k <= m && m + BaseLen(rest) == |z|
    ensures BaseLen([Retain(m)] + rest) == |z|
    ensures BaseLen([Retain(m - k)] + rest) == |z| - k
    ensures Run([Retain(m)] + rest, z) == z[..k] + Run([Retain(m - k)] + rest, z[k..])
  {
    var u := z[k..];
    RunCons(Retain(m), rest, z);
    RunCons(Retain(m - k), rest, u);
    SliceFacts(z, k, m);
    RunOnEqual(rest, u[m - k..], z[m..]);
    SliceJoin(z, k, m);
    Assoc(z[..k], z[k..m], Run(rest, z[m..]));
  }

  lemma DeleteSplit(m: nat, k: nat, rest: Ops, z: string)
    requires k <= m && m + BaseLen(rest) == |z|
    ensures BaseLen([Delete(m)] + rest) == |z|
    ensures BaseLen([Delete(m - k)] + rest) == |z| - k
    ensures Run([Delete(m)] + rest, z) == Run([Delete(m - k)] + rest, z[k..])
  {
    var u := z[k..];
    RunCons(Delete(m), rest, z);
    RunCons(Delete(m - k), rest, u);
    SliceFacts(z, k, m);
    RunOnEqual(rest, u[m - k..], z[m..]);
    EmptyConcat(Run(rest, z[m..]));
  }

  lemma InsertSplit(s: string, k: nat, rest: Ops, z: string)
    requires k <= |s| && BaseLen(rest) == |z|
    ensures BaseLen([Insert(s)] + rest) == |z|
    ensures BaseLen([Insert(s[k..])] + rest) == |z|
    ensures Run([Insert(s)] + rest, z) == s[..k] + Run([Insert(s[k..])] + rest, z)
  {
    RunCons(Insert(s), rest, z);
    RunCons(Insert(s[k..]), rest, z);
    SplitJoin([], s, k);
    Assoc(s[..k], s[k..], Run(rest, z));
  }

  /** Unfolding `Run` on a text written as a prefix of the head's length
      followed by the rest. */
  lemma RunHead(ops: Ops, p: string, w: string)
    requires ops != [] && |p| == OpBase(ops[0]) && BaseLen(ops[1..]) == |w|
    ensures BaseLen(ops) == |p + w|
    ensures Run(ops, p + w) == Emit(ops[0], p) + Run(ops[1..], w)
  {
    assert (p + w)[..|p|] == p;
    assert (p + w)[|p|..] == w;
  }

  /** Splitting a text at `k` and joining it again. */
  lemma SplitJoin(x: string, y: string, k: nat)
    requires k <= |y|
    ensures y[..k] + y[k..] == y
    ensures (x + y[..k]) + y[k..] == x + y
  {
  }

  lemma PrefixOfConcat(p: string, w: string)
    ensures (p + w)[..|p|] == p && (p + w)[|p|..] == w
  {
  }

  /** What `ComposeLoopMeaning` promises about one loop state. */
  predicate MeaningHolds(a: Ops, b: Ops, acc: Ops, x: string, y: string)
    requires TargetLen(a) == BaseLen(b) && |x| == BaseLen(acc) && |y| == BaseLen(a)
    requires ComposeLoop(a, b, acc).Some?
  {
    BaseLen(ComposeLoop(a, b, acc).value) == |x + y| &&
    Run(ComposeLoop(a, b, acc).value, x + y) == Run(acc, x) + Run(b, Run(a, y))
  }

  /** One step of the loop glued to the rest: when the step's state leads
      to the same result, the step's accumulator adds `e` for the first `k`
      characters of `y`, and `e` followed by what the remaining sequences do
      is what `a` then `b` do, the promise for the step's state gives the
      promise for the state before it. */
  lemma MeaningGlue(a: Ops, b: Ops, acc: Ops, a2: Ops, b2: Ops, acc2: Ops, x: string, y: string, k: nat, e: string)
    requires TargetLen(a) == BaseLen(b) && |x| == BaseLen(acc) && |y| == BaseLen(a)
    requires ComposeLoop(a, b, acc).Some?
    requires k <= |y|
    requires TargetLen(a2) == BaseLen(b2) && |x| + k == BaseLen(acc2) && |y| - k == BaseLen(a2)
    requires ComposeLoop(a2, b2, acc2) == ComposeLoop(a, b, acc)
    requires MeaningHolds(a2, b2, acc2, x + y[..k], y[k..])
    requires Run(acc2, x + y[..k]) == Run(acc, x) + e
    requires e + Run(b2, Run(a2, y[k..])) == Run(b, Run(a, y))
    ensures MeaningHolds(a, b, acc, x, y)
  {
    var r := ComposeLoop(a, b, acc).value;
    SplitJoin(x, y, k);
    RunOnEqual(r, (x + y[..k]) + y[k..], x + y);
    Assoc(Run(acc, x), e, Run(b2, Run(a2, y[k..])));
  }

  /** `MeaningGlue` for a step whose accumulator adds nothing to the
      output: a deletion of the first `k` characters of `y`. */
  lemma MeaningGlueDeleted(a: Ops, b: Ops, acc: Ops, a2: Ops, b2: Ops, acc2: Ops, x: string, y: string, k: nat)
    requires TargetLen(a) == BaseLen(b) && |x| == BaseLen(acc) && |y| == BaseLen(a)
    requires ComposeLoop(a, b, acc).Some?
    requires k <= |y|
    requires TargetLen(a2) == BaseLen(b2) && |x| + k == BaseLen(acc2) && |y| - k == BaseLen(a2)
    requires ComposeLoop(a2, b2, acc2) == ComposeLoop(a, b, acc)
    requires MeaningHolds(a2, b2, acc2, x + y[..k], y[k..])
    requires Run(acc2, x + y[..k]) == Run(acc, x)
    requires Run(b2, Run(a2, y[k..])) == Run(b, Run(a, y))
    ensures MeaningHolds(a, b, acc, x, y)
  {
    var r := ComposeLoop(a, b, acc).value;
    SplitJoin(x, y, k);
    RunOnEqual(r, (x + y[..k]) + y[k..], x + y);
  }

  /** The loop's result does, on the text consumed so far followed by the
      text still to come, what the accumulator did followed by `a` then
      `b`. */
  lemma {:induction false} ComposeLoopMeaning(a: Ops, b: Ops, acc: Ops, x: string, y: string)
    requires TargetLen(a) == BaseLen(b) && |x| == BaseLen(acc) && |y| == BaseLen(a)
    requires ComposeLoop(a, b, acc).Some?
    ensures BaseLen(ComposeLoop(a, b, acc).value) == |x + y|
    ensures Run(ComposeLoop(a, b, acc).value, x + y) == Run(acc, x) + Run(b, Run(a, y))
    decreases |a| + |b|, 1
  {
    if a == [] && b == [] {
      EmptyConcat(x);
    } else if a != [] && a[0].Delete? {
      MeaningDelete(a, b, acc, x, y);
    } else if b != [] && b[0].Insert? {
      MeaningInsert(a, b, acc, x, y);
    } else if a[0].Insert? && b[0].Delete? {
      MeaningInsertDelete(a, b, acc, x, y);
    } else if a[0].Retain? && b[0].Retain? {
      if a[0].n < b[0].n {
        MeaningRetainRetainLt(a, b, acc, x, y);
      } else if a[0].n == b[0].n {
        MeaningRetainRetainEq(a, b, acc, x, y);
      } else {
        MeaningRetainRetainGt(a, b, acc, x, y);
      }
    } else if a[0].Insert? {
      if |a[0].s| < b[0].n {
        MeaningInsertRetainLt(a, b, acc, x, y);
      } else if |a[0].s| == b[0].n {
        MeaningInsertRetainEq(a, b, acc, x, y);
      } else {
        MeaningInsertRetainGt(a, b, acc, x, y);
      }
    } else if a[0].n < b[0].n {
      MeaningRetainDeleteLt(a, b, acc, x, y);
    } else if a[0].n == b[0].n {
      MeaningRetainDeleteEq(a, b, acc, x, y);
    } else {
      MeaningRetainDeleteGt(a, b, acc, x, y);
    }
  }

  lemma {:induction false} MeaningDelete(a: Ops, b: Ops, acc: Ops, x: string, y: string)
    requires TargetLen(a) == BaseLen(b) && |x| == BaseLen(acc) && |y| == BaseLen(a)
    requires ComposeLoop(a, b, acc).Some?
    requires a != [] && a[0].Delete?
    ensures MeaningHolds(a, b, acc, x, y)
    decreases |a| + |b|, 0
  {
    var n := a[0].n;
    var r := ComposeLoop(a, b, acc).value;
    var w := Run(a[1..], y[n..]);
    SplitJoin(x, y, n);
    AddLengths(acc, Delete(n));
    ComposeLoopMeaning(a[1..], b, AddDelete(acc, n), x + y[..n], y[n..]);
    calc {
      Run(r, x + y);
      Run(AddDelete(acc, n), x + y[..n]) + Run(b, w);
      { RunAddOne(acc, a[0], x, y[..n]); EmptyConcat(Run(acc, x)); }
      Run(acc, x) + Run(b, w);
      { RunHead(a, y[..n], y[n..]); EmptyConcat(w); }
      Run(acc, x) + Run(b, Run(a, y));
    }
  }

  lemma {:induction false} MeaningInsert(a: Ops, b: Ops, acc: Ops, x: string, y: string)
    requires TargetLen(a) == BaseLen(b) && |x| == BaseLen(acc) && |y| == BaseLen(a)
    requires ComposeLoop(a, b, acc).Some?
    requires !(a != [] && a[0].Delete?) && b != [] && b[0].Insert?
    ensures MeaningHolds(a, b, acc, x, y)
    decreases |a| + |b|, 0
  {
    var u := b[0].s;
    var r := ComposeLoop(a, b, acc).value;
    var w := Run(a, y);
    EmptyConcat(x);
    EmptyConcat(w);
    AddLengths(acc, Insert(u));
    ComposeLoopMeaning(a, b[1..], AddInsert(acc, u), x, y);
    calc {
      Run(r, x + y);
      Run(AddInsert(acc, u), x) + Run(b[1..], w);
      { RunAddOne(acc, b[0], x, []); }
      (Run(acc, x) + u) + Run(b[1..], w);
      { Assoc(Run(acc, x), u, Run(b[1..], w)); }
      Run(acc, x) + (u + Run(b[1..], w));
      { RunHead(b, [], w); }
      Run(acc, x) + Run(b, w);
    }
  }

  lemma RunInsertHead(u: string, rest: Ops, z: string)
    requires BaseLen(rest) == |z|
    ensures BaseLen([Insert(u)] + rest) == |z|
    ensures Run([Insert(u)] + rest, z) == u + Run(rest, z)
  {
    RunCons(Insert(u), rest, z);
    assert z[..0] == [] && z[0..] == z;
  }

  /** Retain against a longer retain: the retained characters pass through
      and the rest of `b`'s retain is put back. */
  lemma RetainRetainShorter(i: nat, j: nat, a1: Ops, b1: Ops, y: string)
    requires i < j && i + BaseLen(a1) == |y| && i + TargetLen(a1) == j + BaseLen(b1)
    ensures BaseLen([Retain(i)] + a1) == |y| && TargetLen([Retain(i)] + a1) == BaseLen([Retain(j)] + b1)
    ensures BaseLen([Retain(j - i)] + b1) == TargetLen(a1)
    ensures Run([Retain(j)] + b1, Run([Retain(i)] + a1, y))
      == y[..i] + Run([Retain(j - i)] + b1, Run(a1, y[i..]))
  {
    ConsLengths(Retain(i), a1);
    ConsLengths(Retain(j), b1);
    ConsLengths(Retain(j - i), b1);
    var w := Run(a1, y[i..]);
    var z := y[..i] + w;
    RunCons(Retain(i), a1, y);
    RetainSplit(j, i, b1, z);
    PrefixOfConcat(y[..i], w);
    RunOnEqual([Retain(j - i)] + b1, z[i..], w);
    RunOnEqual([Retain(j)] + b1, Run([Retain(i)] + a1, y), z);
  }

  /** Retain against a retain of the same length. */
  lemma RetainRetainSame(i: nat, a1: Ops, b1: Ops, y: string)
    requires i + BaseLen(a1) == |y| && TargetLen(a1) == BaseLen(b1)
    ensures BaseLen([Retain(i)] + a1) == |y| && TargetLen([Retain(i)] + a1) == BaseLen([Retain(i)] + b1)
    ensures Run([Retain(i)] + b1, Run([Retain(i)] + a1, y)) == y[..i] + Run(b1, Run(a1, y[i..]))
  {
    ConsLengths(Retain(i), a1);
    ConsLengths(Retain(i), b1);
    var w := Run(a1, y[i..]);
    var z := y[..i] + w;
    RunCons(Retain(i), a1, y);
    RunCons(Retain(i), b1, z);
    PrefixOfConcat(y[..i], w);
    RunOnEqual(b1, z[i..], w);
    RunOnEqual([Retain(i)] + b1, Run([Retain(i)] + a1, y), z);
  }

  /** Retain against a shorter retain: the retained characters pass through
      and the rest of `a`'s retain is put back. */
  lemma RetainRetainLonger(i: nat, j: nat, a1: Ops, b1: Ops, y: string)
    requires j < i && i + BaseLen(a1) == |y| && i + TargetLen(a1) == j + BaseLen(b1)
    ensures BaseLen([Retain(i)] + a1) == |y| && TargetLen([Retain(i)] + a1) == BaseLen([Retain(j)] + b1)
    ensures BaseLen([Retain(i - j)] + a1) == |y| - j && TargetLen([Retain(i - j)] + a1) == BaseLen(b1)
    ensures Run([Retain(j)] + b1, Run([Retain(i)] + a1, y))
      == y[..j] + Run(b1, Run([Retain(i - j)] + a1, y[j..]))
  {
    ConsLengths(Retain(i), a1);
    ConsLengths(Retain(j), b1);
    ConsLengths(Retain(i - j), a1);
    var v := Run([Retain(i - j)] + a1, y[j..]);
    var z := y[..j] + v;
    RetainSplit(i, j, a1, y);
    RunCons(Retain(j), b1, z);
    PrefixOfConcat(y[..j], v);
    RunOnEqual(b1, z[j..], v);
    RunOnEqual([Retain(j)] + b1, Run([Retain(i)] + a1, y), z);
  }

  /** The lengths of a non-empty sequence, head and tail apart. */
  lemma TailLengths(a: Ops)
    requires a != []
    ensures BaseLen(a) == OpBase(a[0]) + BaseLen(a[1..])
    ensures TargetLen(a) == OpTarget(a[0]) + TargetLen(a[1..])
  {
  }

  /** `RetainSplit` on a sequence whose head is the retain. */
  lemma RetainSplitOn(b: Ops, k: nat, z: string)
    requires b != [] && b[0].Retain? && k <= b[0].n && BaseLen(b) == |z|
    ensures BaseLen([Retain(b[0].n - k)] + b[1..]) == |z| - k
    ensures Run(b, z) == z[..k] + Run([Retain(b[0].n - k)] + b[1..], z[k..])
  {
    SeqCons(b);
    RunOnEqualOps(b, [Retain(b[0].n)] + b[1..], z);
    RetainSplit(b[0].n, k, b[1..], z);
  }

  /** A sequence written as its head followed by its tail does what the
      sequence does. */
  lemma RunHeadTail(a: Ops, h: Op, y: string)
    requires a != [] && a[0] == h && BaseLen(a) == |y|
    ensures BaseLen([h] + a[1..]) == |y| && TargetLen([h] + a[1..]) == TargetLen(a)
    ensures Run([h] + a[1..], y) == Run(a, y)
  {
    SeqCons(a);
    RunOnEqualOps(a, [h] + a[1..], y);
  }

  lemma RunRetainRetainEq(a: Ops, b: Ops, y: string)
    requires a != [] && b != [] && a[0].Retain? && b[0].Retain? && a[0].n == b[0].n
    requires BaseLen(a) == |y| && TargetLen(a) == BaseLen(b)
    ensures a[0].n <= |y| && BaseLen(a[1..]) == |y| - a[0].n && BaseLen(b[1..]) == TargetLen(a[1..])
    ensures Run(b, Run(a, y)) == y[..a[0].n] + Run(b[1..], Run(a[1..], y[a[0].n..]))
  {
    var i := a[0].n;
    TailLengths(a);
    TailLengths(b);
    RunUnfold(a, y);
    var w := Run(a[1..], y[i..]);
    var z := y[..i] + w;
    RunUnfold(b, z);
    PrefixOfConcat(y[..i], w);
    RunOnEqual(b[1..], z[i..], w);
    RunOnEqual(b, Run(a, y), z);
  }

  lemma RunRetainDeleteEq(a: Ops, b: Ops, y: string)
    requires a != [] && b != [] && a[0].Retain? && b[0].Delete? && a[0].n == b[0].n
    requires BaseLen(a) == |y| && TargetLen(a) == BaseLen(b)
    ensures a[0].n <= |y| && BaseLen(a[1..]) == |y| - a[0].n && BaseLen(b[1..]) == TargetLen(a[1..])
    ensures Run(b, Run(a, y)) == Run(b[1..], Run(a[1..], y[a[0].n..]))
  {
    var i := a[0].n;
    TailLengths(a);
    TailLengths(b);
    RunUnfold(a, y);
    var w := Run(a[1..], y[i..]);
    var z := y[..i] + w;
    RunStartsDelete(b, z);
    PrefixOfConcat(y[..i], w);
    RunOnEqual(b[1..], z[i..], w);
    RunOnEqual(b, Run(a, y), z);
  }

  lemma RunInsertRetainLt(a: Ops, b: Ops, y: string)
    requires a != [] && b != [] && a[0].Insert? && b[0].Retain? && |a[0].s| < b[0].n
    requires BaseLen(a) == |y| && TargetLen(a) == BaseLen(b)
    ensures BaseLen(a[1..]) == |y|
    ensures BaseLen([Retain(b[0].n - |a[0].s|)] + b[1..]) == TargetLen(a[1..])
    ensures Run(b, Run(a, y)) == a[0].s + Run([Retain(b[0].n - |a[0].s|)] + b[1..], Run(a[1..], y))
  {
    var s := a[0].s;
    TailLengths(a);
    RunStartsInsert(a, y);
    var w := Run(a[1..], y);
    var z := s + w;
    RetainSplitOn(b, |s|, z);
    PrefixOfConcat(s, w);
    RunOnEqual([Retain(b[0].n - |s|)] + b[1..], z[|s|..], w);
    RunOnEqual(b, Run(a, y), z);
  }

  lemma RunInsertRetainEq(a: Ops, b: Ops, y: string)
    requires a != [] && b != [] && a[0].Insert? && b[0].Retain? && |a[0].s| == b[0].n
    requires BaseLen(a) == |y| && TargetLen(a) == BaseLen(b)
    ensures BaseLen(a[1..]) == |y| && BaseLen(b[1..]) == TargetLen(a[1..])
    ensures Run(b, Run(a, y)) == a[0].s + Run(b[1..], Run(a[1..], y))
  {
    var s := a[0].s;
    TailLengths(a);
    TailLengths(b);
    RunStartsInsert(a, y);
    var w := Run(a[1..], y);
    var z := s + w;
    RunUnfold(b, z);
    PrefixOfConcat(s, w);
    RunOnEqual(b[1..], z[|s|..], w);
    RunOnEqual(b, Run(a, y), z);
  }

  lemma RunInsertRetainGt(a: Ops, b: Ops, y: string)
    requires a != [] && b != [] && a[0].Insert? && b[0].Retain? && |a[0].s| > b[0].n
    requires BaseLen(a) == |y| && TargetLen(a) == BaseLen(b)
    ensures BaseLen([Insert(a[0].s[b[0].n..])] + a[1..]) == |y|
    ensures TargetLen([Insert(a[0].s[b[0].n..])] + a[1..]) == BaseLen(b[1..])
    ensures Run(b, Run(a, y)) == a[0].s[..b[0].n] + Run(b[1..], Run([Insert(a[0].s[b[0].n..])] + a[1..], y))
  {
    var s, j := a[0].s, b[0].n;
    TailLengths(a);
    TailLengths(b);
    ConsLengths(Insert(s[j..]), a[1..]);
    RunStartsInsert(a, y);
    var w := Run(a[1..], y);
    RunInsertHead(s[j..], a[1..], y);
    var z := s + w;
    RunUnfold(b, z);
    ConcatSplitAt(s, w, j);
    RunOnEqual(b[1..], z[j..], Run([Insert(s[j..])] + a[1..], y));
    RunOnEqual(b, Run(a, y), z);
  }

  /** Retain against a longer retain. */
  lemma {:induction false} MeaningRetainRetainLt(a: Ops, b: Ops, acc: Ops, x: string, y: string)
    requires TargetLen(a) == BaseLen(b) && |x| == BaseLen(acc) && |y| == BaseLen(a)
    requires ComposeLoop(a, b, acc).Some?
    requires a != [] && b != [] && a[0].Retain? && b[0].Retain? && a[0].n < b[0].n
    ensures MeaningHolds(a, b, acc, x, y)
    decreases |a| + |b|, 0
  {
    var i := a[0].n;
    var j := b[0].n;
    AddLengths(acc, Retain(i));
    TailLengths(a);
    TailLengths(b);
    RunHeadTail(a, Retain(i), y);
    RunHeadTail(b, Retain(j), Run(a, y));
    RetainRetainShorter(i, j, a[1..], b[1..], y);
    ComposeLoopMeaning(a[1..], [Retain(j - i)] + b[1..], AddRetain(acc, i), x + y[..i], y[i..]);
    RunAddOne(acc, a[0], x, y[..i]);
    MeaningGlue(a, b, acc, a[1..], [Retain(j - i)] + b[1..], AddRetain(acc, i), x, y, i, y[..i]);
  }

  /** Retain against a retain of the same length. */
  lemma {:induction false} MeaningRetainRetainEq(a: Ops, b: Ops, acc: Ops, x: string, y: string)
    requires TargetLen(a) == BaseLen(b) && |x| == BaseLen(acc) && |y| == BaseLen(a)
    requires ComposeLoop(a, b, acc).Some?
    requires a != [] && b != [] && a[0].Retain? && b[0].Retain? && a[0].n == b[0].n
    ensures MeaningHolds(a, b, acc, x, y)
    decreases |a| + |b|, 0
  {
    var i := a[0].n;
    var j := b[0].n;
    AddLengths(acc, Retain(i));
    RunRetainRetainEq(a, b, y);
    ComposeLoopMeaning(a[1..], b[1..], AddRetain(acc, i), x + y[..i], y[i..]);
    RunAddOne(acc, a[0], x, y[..i]);
    MeaningGlue(a, b, acc, a[1..], b[1..], AddRetain(acc, i), x, y, i, y[..i]);
  }

  /** Retain against a shorter retain. */
  lemma {:induction false} MeaningRetainRetainGt(a: Ops, b: Ops, acc: Ops, x: string, y: string)
    requires TargetLen(a) == BaseLen(b) && |x| == BaseLen(acc) && |y| == BaseLen(a)
    requires ComposeLoop(a, b, acc).Some?
    requires a != [] && b != [] && a[0].Retain? && b[0].Retain? && a[0].n > b[0].n
    ensures MeaningHolds(a, b, acc, x, y)
    decreases |a| + |b|, 0
  {
    var i := a[0].n;
    var j := b[0].n;
    AddLengths(acc, Retain(j));
    TailLengths(a);
    TailLengths(b);
    RunHeadTail(a, Retain(i), y);
    RunHeadTail(b, Retain(j), Run(a, y));
    RetainRetainLonger(i, j, a[1..], b[1..], y);
    ComposeLoopMeaning([Retain(i - j)] + a[1..], b[1..], AddRetain(acc, j), x + y[..j], y[j..]);
    RunAddOne(acc, b[0], x, y[..j]);
    MeaningGlue(a, b, acc, [Retain(i - j)] + a[1..], b[1..], AddRetain(acc, j), x, y, j, y[..j]);
  }

  /** The three ways an insertion of `a` meets a deletion of `b`: what is
      left of the two sequences does the same as both did. */
  lemma InsertDeleteStep(s: string, j: nat, a1: Ops, b1: Ops, y: string)
    requires BaseLen(a1) == |y| && j + BaseLen(b1) == |s| + TargetLen(a1)
    ensures BaseLen([Insert(s)] + a1) == |y|
    ensures TargetLen([Insert(s)] + a1) == BaseLen([Delete(j)] + b1)
    ensures |s| < j ==>
      && BaseLen([Delete(j - |s|)] + b1) == TargetLen(a1)
      && Run([Delete(j - |s|)] + b1, Run(a1, y)) == Run([Delete(j)] + b1, Run([Insert(s)] + a1, y))
    ensures |s| == j ==>
      Run(b1, Run(a1, y)) == Run([Delete(j)] + b1, Run([Insert(s)] + a1, y))
    ensures |s| > j ==>
      && BaseLen([Insert(s[j..])] + a1) == |y|
      && TargetLen([Insert(s[j..])] + a1) == BaseLen(b1)
      && Run(b1, Run([Insert(s[j..])] + a1, y)) == Run([Delete(j)] + b1, Run([Insert(s)] + a1, y))
  {
    ConsLengths(Insert(s), a1);
    ConsLengths(Delete(j), b1);
    var w := Run(a1, y);
    RunInsertHead(s, a1, y);
    if |s| < j {
      ConsLengths(Delete(j - |s|), b1);
      DeleteSplit(j, |s|, b1, s + w);
      PrefixOfConcat(s, w);
    } else if |s| == j {
      RunHead([Delete(j)] + b1, s, w);
      EmptyConcat(Run(b1, w));
      assert ([Delete(j)] + b1)[0] == Delete(j) && ([Delete(j)] + b1)[1..] == b1;
    } else {
      ConsLengths(Insert(s[j..]), a1);
      RunInsertHead(s[j..], a1, y);
      assert ([Delete(j)] + b1)[0] == Delete(j) && ([Delete(j)] + b1)[1..] == b1;
      RunHead([Delete(j)] + b1, s[..j], s[j..] + w);
      EmptyConcat(Run(b1, s[j..] + w));
      Assoc(s[..j], s[j..], w);
      assert s[..j] + s[j..] == s;
    }
  }

  lemma {:induction false} MeaningInsertDelete(a: Ops, b: Ops, acc: Ops, x: string, y: string)
    requires TargetLen(a) == BaseLen(b) && |x| == BaseLen(acc) && |y| == BaseLen(a)
    requires ComposeLoop(a, b, acc).Some?
    requires a != [] && b != [] && a[0].Insert? && b[0].Delete?
    ensures MeaningHolds(a, b, acc, x, y)
    decreases |a| + |b|, 0
  {
    var s := a[0].s;
    var j := b[0].n;
    SeqCons(a);
    SeqCons(b);
    ConsLengths(Insert(s), a[1..]);
    ConsLengths(Delete(j), b[1..]);
    InsertDeleteStep(s, j, a[1..], b[1..], y);
    if |s| < j {
      ComposeLoopMeaning(a[1..], [Delete(j - |s|)] + b[1..], acc, x, y);
    } else if |s| == j {
      ComposeLoopMeaning(a[1..], b[1..], acc, x, y);
    } else {
      ComposeLoopMeaning([Insert(s[j..])] + a[1..], b[1..], acc, x, y);
    }
  }

  /** Splitting a concatenation inside its first part. */
  lemma ConcatSplitAt(s: string, w: string, j: nat)
    requires j <= |s|
    ensures (s + w)[..j] == s[..j] && (s + w)[j..] == s[j..] + w
  {
  }

  /** Insertion against a longer retain: the insertion passes through and
      the rest of the retain is put back. */
  lemma InsertRetainShorter(s: string, j: nat, a1: Ops, b1: Ops, y: string)
    requires |s| < j && BaseLen(a1) == |y| && |s| + TargetLen(a1) == j + BaseLen(b1)
    ensures BaseLen([Insert(s)] + a1) == |y| && TargetLen([Insert(s)] + a1) == BaseLen([Retain(j)] + b1)
    ensures BaseLen([Retain(j - |s|)] + b1) == TargetLen(a1)
    ensures Run([Retain(j)] + b1, Run([Insert(s)] + a1, y)) == s + Run([Retain(j - |s|)] + b1, Run(a1, y))
  {
    ConsLengths(Insert(s), a1);
    ConsLengths(Retain(j), b1);
    ConsLengths(Retain(j - |s|), b1);
    var w := Run(a1, y);
    RunInsertHead(s, a1, y);
    RetainSplit(j, |s|, b1, s + w);
    PrefixOfConcat(s, w);
    RunOnEqual([Retain(j - |s|)] + b1, (s + w)[|s|..], w);
    RunOnEqual([Retain(j)] + b1, Run([Insert(s)] + a1, y), s + w);
  }

  /** Insertion against a retain of its length. */
  lemma InsertRetainSame(s: string, a1: Ops, b1: Ops, y: string)
    requires BaseLen(a1) == |y| && TargetLen(a1) == BaseLen(b1)
    ensures BaseLen([Insert(s)] + a1) == |y| && TargetLen([Insert(s)] + a1) == BaseLen([Retain(|s|)] + b1)
    ensures Run([Retain(|s|)] + b1, Run([Insert(s)] + a1, y)) == s + Run(b1, Run(a1, y))
  {
    ConsLengths(Insert(s), a1);
    ConsLengths(Retain(|s|), b1);
    var w := Run(a1, y);
    RunInsertHead(s, a1, y);
    RunCons(Retain(|s|), b1, s + w);
    PrefixOfConcat(s, w);
    RunOnEqual(b1, (s + w)[|s|..], w);
    RunOnEqual([Retain(|s|)] + b1, Run([Insert(s)] + a1, y), s + w);
  }

  /** Insertion against a shorter retain: the retained part of the
      insertion passes through and its rest is put back. */
  lemma InsertRetainLonger(s: string, j: nat, a1: Ops, b1: Ops, y: string)
    requires j < |s| && BaseLen(a1) == |y| && |s| + TargetLen(a1) == j + BaseLen(b1)
    ensures BaseLen([Insert(s)] + a1) == |y| && TargetLen([Insert(s)] + a1) == BaseLen([Retain(j)] + b1)
    ensures BaseLen([Insert(s[j..])] + a1) == |y| && TargetLen([Insert(s[j..])] + a1) == BaseLen(b1)
    ensures Run([Retain(j)] + b1, Run([Insert(s)] + a1, y)) == s[..j] + Run(b1, Run([Insert(s[j..])] + a1, y))
  {
    ConsLengths(Insert(s), a1);
    ConsLengths(Retain(j), b1);
    ConsLengths(Insert(s[j..]), a1);
    var w := Run(a1, y);
    var z := s + w;
    RunInsertHead(s, a1, y);
    RunInsertHead(s[j..], a1, y);
    RunCons(Retain(j), b1, z);
    ConcatSplitAt(s, w, j);
    RunOnEqual(b1, z[j..], Run([Insert(s[j..])] + a1, y));
    RunOnEqual([Retain(j)] + b1, Run([Insert(s)] + a1, y), z);
  }

  /** Adding an insertion to the accumulator appends its text. */
  lemma RunAddInsert(acc: Ops, s: string, x: string)
    requires |x| == BaseLen(acc)
    ensures BaseLen(AddInsert(acc, s)) == |x|
    ensures Run(AddInsert(acc, s), x) == Run(acc, x) + s
  {
    RunAddOne(acc, Insert(s), x, []);
    EmptyConcat(x);
    RunOnEqual(AddInsert(acc, s), x + [], x);
  }

  /** Insertion against a longer retain. */
  lemma {:induction false} MeaningInsertRetainLt(a: Ops, b: Ops, acc: Ops, x: string, y: string)
    requires TargetLen(a) == BaseLen(b) && |x| == BaseLen(acc) && |y| == BaseLen(a)
    requires ComposeLoop(a, b, acc).Some?
    requires a != [] && b != [] && a[0].Insert? && b[0].Retain? && |a[0].s| < b[0].n
    ensures MeaningHolds(a, b, acc, x, y)
    decreases |a| + |b|, 0
  {
    var s := a[0].s;
    var j := b[0].n;
    var r := ComposeLoop(a, b, acc).value;
    RunInsertRetainLt(a, b, y);
    RunAddInsert(acc, s, x);
    ComposeLoopMeaning(a[1..], [Retain(j - |s|)] + b[1..], AddInsert(acc, s), x, y);
    Assoc(Run(acc, x), s, Run([Retain(j - |s|)] + b[1..], Run(a[1..], y)));
  }

  /** Insertion against a retain of its length. */
  lemma {:induction false} MeaningInsertRetainEq(a: Ops, b: Ops, acc: Ops, x: string, y: string)
    requires TargetLen(a) == BaseLen(b) && |x| == BaseLen(acc) && |y| == BaseLen(a)
    requires ComposeLoop(a, b, acc).Some?
    requires a != [] && b != [] && a[0].Insert? && b[0].Retain? && |a[0].s| == b[0].n
    ensures MeaningHolds(a, b, acc, x, y)
    decreases |a| + |b|, 0
  {
    var s := a[0].s;
    var j := b[0].n;
    var r := ComposeLoop(a, b, acc).value;
    RunInsertRetainEq(a, b, y);
    RunAddInsert(acc, s, x);
    ComposeLoopMeaning(a[1..], b[1..], AddInsert(acc, s), x, y);
    Assoc(Run(acc, x), s, Run(b[1..], Run(a[1..], y)));
  }

  /** Insertion against a shorter retain. */
  lemma {:induction false} MeaningInsertRetainGt(a: Ops, b: Ops, acc: Ops, x: string, y: string)
    requires TargetLen(a) == BaseLen(b) && |x| == BaseLen(acc) && |y| == BaseLen(a)
    requires ComposeLoop(a, b, acc).Some?
    requires a != [] && b != [] && a[0].Insert? && b[0].Retain? && |a[0].s| > b[0].n
    ensures MeaningHolds(a, b, acc, x, y)
    decreases |a| + |b|, 0
  {
    var s := a[0].s;
    var j := b[0].n;
    var r := ComposeLoop(a, b, acc).value;
    RunInsertRetainGt(a, b, y);
    RunAddInsert(acc, s[..j], x);
    ComposeLoopMeaning([Insert(s[j..])] + a[1..], b[1..], AddInsert(acc, s[..j]), x, y);
    Assoc(Run(acc, x), s[..j], Run(b[1..], Run([Insert(s[j..])] + a[1..], y)));
  }

  /** Retain against a longer delete: the retained characters are deleted
      and the rest of the deletion is put back. */
  lemma RetainDeleteShorter(i: nat, j: nat, a1: Ops, b1: Ops, y: string)
    requires i < j && i + BaseLen(a1) == |y| && i + TargetLen(a1) == j + BaseLen(b1)
    ensures BaseLen([Retain(i)] + a1) == |y| && TargetLen([Retain(i)] + a1) == BaseLen([Delete(j)] + b1)
    ensures BaseLen([Delete(j - i)] + b1) == TargetLen(a1)
    ensures Run([Delete(j)] + b1, Run([Retain(i)] + a1, y)) == Run([Delete(j - i)] + b1, Run(a1, y[i..]))
  {
    ConsLengths(Retain(i), a1);
    ConsLengths(Delete(j), b1);
    ConsLengths(Delete(j - i), b1);
    var w := Run(a1, y[i..]);
    var z := y[..i] + w;
    RunCons(Retain(i), a1, y);
    DeleteSplit(j, i, b1, z);
    PrefixOfConcat(y[..i], w);
    RunOnEqual([Delete(j - i)] + b1, z[i..], w);
    RunOnEqual([Delete(j)] + b1, Run([Retain(i)] + a1, y), z);
  }

  /** Retain against a delete of the same length. */
  lemma RetainDeleteSame(i: nat, a1: Ops, b1: Ops, y: string)
    requires i + BaseLen(a1) == |y| && TargetLen(a1) == BaseLen(b1)
    ensures BaseLen([Retain(i)] + a1) == |y| && TargetLen([Retain(i)] + a1) == BaseLen([Delete(i)] + b1)
    ensures Run([Delete(i)] + b1, Run([Retain(i)] + a1, y)) == Run(b1, Run(a1, y[i..]))
  {
    ConsLengths(Retain(i), a1);
    ConsLengths(Delete(i), b1);
    var w := Run(a1, y[i..]);
    var z := y[..i] + w;
    RunCons(Retain(i), a1, y);
    RunCons(Delete(i), b1, z);
    EmptyConcat(Run(b1, z[i..]));
    PrefixOfConcat(y[..i], w);
    RunOnEqual(b1, z[i..], w);
    RunOnEqual([Delete(i)] + b1, Run([Retain(i)] + a1, y), z);
  }

  /** Retain against a shorter delete: the deleted characters go and the
      rest of the retain is put back. */
  lemma RetainDeleteLonger(i: nat, j: nat, a1: Ops, b1: Ops, y: string)
    requires j < i && i + BaseLen(a1) == |y| && i + TargetLen(a1) == j + BaseLen(b1)
    ensures BaseLen([Retain(i)] + a1) == |y| && TargetLen([Retain(i)] + a1) == BaseLen([Delete(j)] + b1)
    ensures BaseLen([Retain(i - j)] + a1) == |y| - j && TargetLen([Retain(i - j)] + a1) == BaseLen(b1)
    ensures Run([Delete(j)] + b1, Run([Retain(i)] + a1, y)) == Run(b1, Run([Retain(i - j)] + a1, y[j..]))
  {
    ConsLengths(Retain(i), a1);
    ConsLengths(Delete(j), b1);
    ConsLengths(Retain(i - j), a1);
    var v := Run([Retain(i - j)] + a1, y[j..]);
    var z := y[..j] + v;
    RetainSplit(i, j, a1, y);
    RunCons(Delete(j), b1, z);
    EmptyConcat(Run(b1, z[j..]));
    PrefixOfConcat(y[..j], v);
    RunOnEqual(b1, z[j..], v);
    RunOnEqual([Delete(j)] + b1, Run([Retain(i)] + a1, y), z);
  }

  /** Retain against a longer delete. */
  lemma {:induction false} MeaningRetainDeleteLt(a: Ops, b: Ops, acc: Ops, x: string, y: string)
    requires TargetLen(a) == BaseLen(b) && |x| == BaseLen(acc) && |y| == BaseLen(a)
    requires ComposeLoop(a, b, acc).Some?
    requires a != [] && b != [] && a[0].Retain? && b[0].Delete? && a[0].n < b[0].n
    ensures MeaningHolds(a, b, acc, x, y)
    decreases |a| + |b|, 0
  {
    var i := a[0].n;
    var j := b[0].n;
    AddLengths(acc, Delete(i));
    TailLengths(a);
    TailLengths(b);
    RunHeadTail(a, Retain(i), y);
    RunHeadTail(b, Delete(j), Run(a, y));
    RetainDeleteShorter(i, j, a[1..], b[1..], y);
    ComposeLoopMeaning(a[1..], [Delete(j - i)] + b[1..], AddDelete(acc, i), x + y[..i], y[i..]);
    RunAddDelete(acc, i, x, y[..i]);
    MeaningGlueDeleted(a, b, acc, a[1..], [Delete(j - i)] + b[1..], AddDelete(acc, i), x, y, i);
  }

  /** Retain against a delete of the same length. */
  lemma {:induction false} MeaningRetainDeleteEq(a: Ops, b: Ops, acc: Ops, x: string, y: string)
    requires TargetLen(a) == BaseLen(b) && |x| == BaseLen(acc) && |y| == BaseLen(a)
    requires ComposeLoop(a, b, acc).Some?
    requires a != [] && b != [] && a[0].Retain? && b[0].Delete? && a[0].n == b[0].n
    ensures MeaningHolds(a, b, acc, x, y)
    decreases |a| + |b|, 0
  {
    var i := a[0].n;
    var j := b[0].n;
    AddLengths(acc, Delete(i));
    RunRetainDeleteEq(a, b, y);
    ComposeLoopMeaning(a[1..], b[1..], AddDelete(acc, i), x + y[..i], y[i..]);
    RunAddDelete(acc, i, x, y[..i]);
    MeaningGlueDeleted(a, b, acc, a[1..], b[1..], AddDelete(acc, i), x, y, i);
  }

  /** Retain against a shorter delete. */
  lemma {:induction false} MeaningRetainDeleteGt(a: Ops, b: Ops, acc: Ops, x: string, y: string)
    requires TargetLen(a) == BaseLen(b) && |x| == BaseLen(acc) && |y| == BaseLen(a)
    requires ComposeLoop(a, b, acc).Some?
    requires a != [] && b != [] && a[0].Retain? && b[0].Delete? && a[0].n > b[0].n
    ensures MeaningHolds(a, b, acc, x, y)
    decreases |a| + |b|, 0
  {
    var i := a[0].n;
    var j := b[0].n;
    AddLengths(acc, Delete(j));
    TailLengths(a);
    TailLengths(b);
    RunHeadTail(a, Retain(i), y);
    RunHeadTail(b, Delete(j), Run(a, y));
    RetainDeleteLonger(i, j, a[1..], b[1..], y);
    ComposeLoopMeaning([Retain(i - j)] + a[1..], b[1..], AddDelete(acc, j), x + y[..j], y[j..]);
    RunAddDelete(acc, j, x, y[..j]);
    MeaningGlueDeleted(a, b, acc, [Retain(i - j)] + a[1..], b[1..], AddDelete(acc, j), x, y, j);
  }

  /** `compose` is sequential application: it succeeds exactly when the
      lengths meet (for sequences without empty operations), and running its
      result is running `a` and then `b`. */
  lemma ComposeCorrect(a: Ops, b: Ops, s: string)
    requires AllProper(a) && AllProper(b)
    requires TargetLen(a) == BaseLen(b) && BaseLen(a) == |s|
    ensures Compose(a, b).Some?
    ensures BaseLen(Compose(a, b).value) == |s|
    ensures TargetLen(Compose(a, b).value) == TargetLen(b)
    ensures Run(Compose(a, b).value, s) == Run(b, Run(a, s))
  {
    ComposeLoopLengths(a, b, []);
    ComposeLoopMeaning(a, b, [], [], s);
    assert [] + s == s;
  }

  // ---------------------------------------------------------------------
  // Shape
  // ---------------------------------------------------------------------

  lemma NormalizedAllProper(ops: Ops)
    requires Normalized(ops)
    ensures AllProper(ops)
  {
  }

  /** The result is built by the builder alone, so it keeps the canonical
      shape. */
  lemma {:induction false} ComposeLoopNormalized(a: Ops, b: Ops, acc: Ops)
    requires Normalized(acc)
    ensures ComposeLoop(a, b, acc).Some? ==> Normalized(ComposeLoop(a, b, acc).value)
    decreases |a| + |b|
  {
    if a == [] && b == [] {
    } else if a != [] && a[0].Delete? {
      AddNormalized(acc, a[0]);
      ComposeLoopNormalized(a[1..], b, AddDelete(acc, a[0].n));
    } else if b != [] && b[0].Insert? {
      AddNormalized(acc, b[0]);
      ComposeLoopNormalized(a, b[1..], AddInsert(acc, b[0].s));
    } else if a == [] || b == [] {
    } else if a[0].Retain? && b[0].Retain? {
      var i := a[0].n;
      var j := b[0].n;
      AddNormalized(acc, Retain(Min(i, j)));
      if i < j { ComposeLoopNormalized(a[1..], [Retain(j - i)] + b[1..], AddRetain(acc, i)); }
      else if i == j { ComposeLoopNormalized(a[1..], b[1..], AddRetain(acc, i)); }
      else { ComposeLoopNormalized([Retain(i - j)] + a[1..], b[1..], AddRetain(acc, j)); }
    } else if a[0].Insert? && b[0].Delete? {
      var s := a[0].s;
      var j := b[0].n;
      if |s| < j { ComposeLoopNormalized(a[1..], [Delete(j - |s|)] + b[1..], acc); }
      else if |s| == j { ComposeLoopNormalized(a[1..], b[1..], acc); }
      else { ComposeLoopNormalized([Insert(s[j..])] + a[1..], b[1..], acc); }
    } else if a[0].Insert? {
      var s := a[0].s;
      var j := b[0].n;
      if |s| < j {
        AddNormalized(acc, Insert(s));
        ComposeLoopNormalized(a[1..], [Retain(j - |s|)] + b[1..], AddInsert(acc, s));
      } else if |s| == j {
        AddNormalized(acc, Insert(s));
        ComposeLoopNormalized(a[1..], b[1..], AddInsert(acc, s));
      } else {
        AddNormalized(acc, Insert(s[..j]));
        ComposeLoopNormalized([Insert(s[j..])] + a[1..], b[1..], AddInsert(acc, s[..j]));
      }
    } else {
      var i := a[0].n;
      var j := b[0].n;
      AddNormalized(acc, Delete(Min(i, j)));
      if i < j { ComposeLoopNormalized(a[1..], [Delete(j - i)] + b[1..], AddDelete(acc, i)); }
      else if i == j { ComposeLoopNormalized(a[1..], b[1..], AddDelete(acc, j)); }
      else { ComposeLoopNormalized([Retain(i - j)] + a[1..], b[1..], AddDelete(acc, j)); }
    }
  }

  function Min(i: nat, j: nat): nat {
    if i < j then i else j
  }

  /** The crate's `compose` yields a sequence in canonical shape. */
  lemma ComposeNormalized(a: Ops, b: Ops)
    ensures Compose(a, b).Some? ==> Normalized(Compose(a, b).value)
  {
    ComposeLoopNormalized(a, b, []);
  }

  /** Composing two canonical, chained sequences succeeds, stays canonical
      and spans from the first one's base to the second one's target. */
  lemma ComposeLengths(a: Ops, b: Ops)
    requires Normalized(a) && Normalized(b) && TargetLen(a) == BaseLen(b)
    ensures Compose(a, b).Some?
    ensures Normalized(Compose(a, b).value)
    ensures BaseLen(Compose(a, b).value) == BaseLen(a)
    ensures TargetLen(Compose(a, b).value) == TargetLen(b)
  {
    NormalizedAllProper(a);
    NormalizedAllProper(b);
    ComposeCorrect(a, b, Filler(BaseLen(a)));
    ComposeNormalized(a, b);
  }
}
