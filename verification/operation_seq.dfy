/** The operation sequences of the `operational_transform` crate that the
    SmartShare client and server exchange: a document edit written as a walk
    over the old text that retains, deletes or inserts characters.  Lengths
    are counted in characters, as the crate counts `chars()`.

    This module holds the data, the two lengths the crate caches
    (`base_len`, `target_len`), the normalising builder (`retain`, `delete`,
    `insert`) and `apply`.  Composition and transformation live in
    `OtCompose` and `OtTransform`. */
module OperationSeq {
  import opened Common

  datatype Op = Retain(n: nat) | Delete(n: nat) | Insert(s: string)

  type Ops = seq<Op>

  /** Characters of the old text an operation walks over. */
  function OpBase(op: Op): nat {
    match op
    case Retain(n) => n
    case Delete(n) => n
    case Insert(_) => 0
  }

  /** Characters of the new text an operation produces. */
  function OpTarget(op: Op): nat {
    match op
    case Retain(n) => n
    case Delete(_) => 0
    case Insert(s) => |s|
  }

  /** `base_len`: the length of the text the sequence applies to. */
  function BaseLen(ops: Ops): nat {
    if ops == [] then 0 else OpBase(ops[0]) + BaseLen(ops[1..])
  }

  /** `target_len`: the length of the text the sequence produces. */
  function TargetLen(ops: Ops): nat {
    if ops == [] then 0 else OpTarget(ops[0]) + TargetLen(ops[1..])
  }

  lemma {:induction false} LengthsAppend(x: Ops, y: Ops)
    ensures BaseLen(x + y) == BaseLen(x) + BaseLen(y)
    ensures TargetLen(x + y) == TargetLen(x) + TargetLen(y)
  {
    if x != [] {
      assert (x + y)[1..] == x[1..] + y;
      LengthsAppend(x[1..], y);
    } else {
      assert x + y == y;
    }
  }

  // ---------------------------------------------------------------------
  // The builder.  Every sequence the crate produces is built by these three
  // calls, which drop empty operations, merge neighbours of the same kind
  // and keep an insertion in front of an adjacent deletion.
  // ---------------------------------------------------------------------

  /** An operation that moves at least one character. */
  predicate Proper(op: Op) {
    match op
    case Retain(n) => n > 0
    case Delete(n) => n > 0
    case Insert(s) => s != []
  }

  predicate SameKind(x: Op, y: Op) {
    (x.Retain? && y.Retain?) || (x.Delete? && y.Delete?) || (x.Insert? && y.Insert?)
  }

  /** The canonical shape the builder keeps. */
  predicate Normalized(ops: Ops) {
    && (forall i :: 0 <= i < |ops| ==> Proper(ops[i]))
    && (forall i :: 0 < i < |ops| ==> !SameKind(ops[i-1], ops[i]))
    && (forall i :: 0 < i < |ops| ==> !(ops[i-1].Delete? && ops[i].Insert?))
  }

  /** `OperationSeq::retain`. */
  function AddRetain(ops: Ops, n: nat): Ops {
    if n == 0 then ops
    else if ops != [] && ops[|ops|-1].Retain? then ops[..|ops|-1] + [Retain(ops[|ops|-1].n + n)]
    else ops + [Retain(n)]
  }

  /** `OperationSeq::delete`. */
  function AddDelete(ops: Ops, n: nat): Ops {
    if n == 0 then ops
    else if ops != [] && ops[|ops|-1].Delete? then ops[..|ops|-1] + [Delete(ops[|ops|-1].n + n)]
    else ops + [Delete(n)]
  }

  /** `OperationSeq::insert`: appends to a trailing insertion, slides in
      front of a trailing deletion. */
  function AddInsert(ops: Ops, s: string): Ops {
    if s == [] then ops
    else if ops != [] && ops[|ops|-1].Insert? then
      ops[..|ops|-1] + [Insert(ops[|ops|-1].s + s)]
    else if |ops| >= 2 && ops[|ops|-1].Delete? && ops[|ops|-2].Insert? then
      ops[..|ops|-2] + [Insert(ops[|ops|-2].s + s), ops[|ops|-1]]
    else if ops != [] && ops[|ops|-1].Delete? then
      ops[..|ops|-1] + [Insert(s), ops[|ops|-1]]
    else ops + [Insert(s)]
  }

  function Add(ops: Ops, op: Op): Ops {
    match op
    case Retain(n) => AddRetain(ops, n)
    case Delete(n) => AddDelete(ops, n)
    case Insert(s) => AddInsert(ops, s)
  }

  /** The builder keeps the canonical shape. */
  lemma AddNormalized(ops: Ops, op: Op)
    requires Normalized(ops)
    ensures Normalized(Add(ops, op))
  {
    var r := Add(ops, op);
    if op.Insert? && op.s != [] && |ops| >= 2 && ops[|ops|-1].Delete? && !ops[|ops|-2].Insert? {
      assert ops[|ops|-2].Retain?;
    }
  }

  // ---------------------------------------------------------------------
  // apply
  // ---------------------------------------------------------------------

  /** What one operation produces from the characters it walks over. */
  function Emit(op: Op, t: string): (r: string)
    requires |t| == OpBase(op)
    ensures |r| == OpTarget(op)
  {
    match op
    case Retain(_) => t
    case Delete(_) => []
    case Insert(u) => u
  }

  /** The text the sequence produces from `s`: the crate's `apply` once its
      length check has passed. */
  function Run(ops: Ops, s: string): (r: string)
    requires BaseLen(ops) == |s|
    ensures |r| == TargetLen(ops)
  {
    if ops == [] then []
    else
      var k := OpBase(ops[0]);
      Emit(ops[0], s[..k]) + Run(ops[1..], s[k..])
  }

  /** `OperationSeq::apply`: refuses a text whose length is not `base_len`. */
  function Apply(ops: Ops, s: string): (r: Option<string>)
    ensures r.Some? <==> BaseLen(ops) == |s|
    ensures r.Some? ==> |r.value| == TargetLen(ops)
  {
    if BaseLen(ops) == |s| then Some(Run(ops, s)) else None
  }

  /** The slices of `s` at `k` and `b` seen from the slice at the other
      point. */
  lemma SliceFacts(s: string, k: nat, b: nat)
    requires k <= b <= |s|
    ensures s[k..][..b - k] == s[k..b] && s[k..][b - k..] == s[b..]
    ensures s[..b][k..] == s[k..b] && s[..b][..k] == s[..k]
  {
  }

  lemma SliceJoin(doc: string, s: nat, e: nat)
    requires s <= e <= |doc|
    ensures doc[..s] + doc[s..e] == doc[..e]
  {
  }

  /** `Run` on a non-empty sequence: the head on its share, then the rest. */
  lemma RunUnfold(ops: Ops, s: string)
    requires ops != [] && BaseLen(ops) == |s|
    ensures OpBase(ops[0]) <= |s| && BaseLen(ops[1..]) == |s| - OpBase(ops[0])
    ensures Run(ops, s) == Emit(ops[0], s[..OpBase(ops[0])]) + Run(ops[1..], s[OpBase(ops[0])..])
  {
  }

  lemma Assoc(p: string, q: string, r: string)
    ensures (p + q) + r == p + (q + r)
  {
  }

  lemma EmptyConcat(t: string)
    ensures [] + t == t && t + [] == t
  {
  }

  lemma RunOnEqualOps(a: Ops, b: Ops, y: string)
    requires a == b && BaseLen(a) == |y|
    ensures BaseLen(b) == |y| && TargetLen(a) == TargetLen(b)
    ensures Run(a, y) == Run(b, y)
  {
  }

  lemma RunOnEqual(ops: Ops, a: string, b: string)
    requires a == b && BaseLen(ops) == |a|
    ensures Run(ops, a) == Run(ops, b)
  {
  }

  /** `Run` on a concatenation whose first part is not empty. */
  lemma RunConsAppend(x: Ops, y: Ops, s: string)
    requires x != [] && BaseLen(x + y) == |s|
    ensures OpBase(x[0]) <= |s| && BaseLen(x[1..] + y) == |s| - OpBase(x[0])
    ensures Run(x + y, s) == Emit(x[0], s[..OpBase(x[0])]) + Run(x[1..] + y, s[OpBase(x[0])..])
  {
    var xy := x + y;
    assert xy != [] && xy[0] == x[0] && xy[1..] == x[1..] + y;
    RunUnfold(xy, s);
  }

  /** `Run` of a non-empty sequence on the prefix of `s` it covers. */
  lemma RunPrefixUnfold(x: Ops, s: string)
    requires x != [] && BaseLen(x) <= |s|
    ensures OpBase(x[0]) <= BaseLen(x) && BaseLen(x[1..]) == BaseLen(x) - OpBase(x[0])
    ensures Run(x, s[..BaseLen(x)]) == Emit(x[0], s[..OpBase(x[0])]) + Run(x[1..], s[OpBase(x[0])..BaseLen(x)])
  {
    var bx, k := BaseLen(x), OpBase(x[0]);
    var w := s[..bx];
    RunUnfold(x, w);
    SliceFacts(s, k, bx);
    RunOnEqual(x[1..], w[k..], s[k..bx]);
  }

  /** `Run` of a sequence that starts with an insertion. */
  lemma RunStartsInsert(ops: Ops, y: string)
    requires ops != [] && ops[0].Insert? && BaseLen(ops) == |y|
    ensures BaseLen(ops[1..]) == |y|
    ensures Run(ops, y) == ops[0].s + Run(ops[1..], y)
  {
    RunUnfold(ops, y);
    SliceFacts(y, 0, 0);
    RunOnEqual(ops[1..], y[0..], y);
  }

  /** `Run` of a sequence that starts with a deletion. */
  lemma RunStartsDelete(ops: Ops, y: string)
    requires ops != [] && ops[0].Delete? && BaseLen(ops) == |y|
    ensures ops[0].n <= |y| && BaseLen(ops[1..]) == |y| - ops[0].n
    ensures Run(ops, y) == Run(ops[1..], y[ops[0].n..])
  {
    RunUnfold(ops, y);
    EmptyConcat(Run(ops[1..], y[ops[0].n..]));
  }

  /** One step of `RunAppend`: the statement for `x` from the statement for
      its tail on the text after the head's share. */
  lemma RunAppendStep(x: Ops, y: Ops, s: string)
    requires x != [] && BaseLen(x) + BaseLen(y) == |s| && BaseLen(x + y) == |s|
    requires OpBase(x[0]) + BaseLen(x[1..]) + BaseLen(y) == |s|
    requires BaseLen(x[1..] + y) == |s| - OpBase(x[0])
    requires var t := s[OpBase(x[0])..];
      Run(x[1..] + y, t) == Run(x[1..], t[..BaseLen(x[1..])]) + Run(y, t[BaseLen(x[1..])..])
    ensures Run(x + y, s) == Run(x, s[..BaseLen(x)]) + Run(y, s[BaseLen(x)..])
  {
    var bx, k := BaseLen(x), OpBase(x[0]);
    var t := s[k..];
    SliceFacts(s, k, bx);
    RunOnEqual(x[1..], t[..bx - k], s[k..bx]);
    RunOnEqual(y, t[bx - k..], s[bx..]);
    RunConsAppend(x, y, s);
    RunPrefixUnfold(x, s);
    Assoc(Emit(x[0], s[..k]), Run(x[1..], s[k..bx]), Run(y, s[bx..]));
  }

  /** Running a concatenation runs each part on its share of the text. */
  lemma {:induction false} RunAppend(x: Ops, y: Ops, s: string)
    requires BaseLen(x) + BaseLen(y) == |s|
    ensures BaseLen(x + y) == |s|
    ensures Run(x + y, s) == Run(x, s[..BaseLen(x)]) + Run(y, s[BaseLen(x)..])
    decreases |x|
  {
    LengthsAppend(x, y);
    if x == [] {
      assert x + y == y;
      assert s[BaseLen(x)..] == s;
    } else {
      RunAppend(x[1..], y, s[OpBase(x[0])..]);
      RunAppendStep(x, y, s);
    }
  }

  lemma RunSingle(op: Op, s: string)
    requires OpBase(op) == |s|
    ensures BaseLen([op]) == |s|
    ensures Run([op], s) == Emit(op, s)
  {
    assert [op][1..] == [];
    assert s[..OpBase(op)] == s;
  }

  /** Two tails that do the same thing on the same text can be swapped
      behind any common prefix. */
  lemma ReplaceTail(p: Ops, tail: Ops, tail': Ops, s: string)
    requires BaseLen(p) + BaseLen(tail) == |s|
    requires BaseLen(tail') == BaseLen(tail)
    requires Run(tail, s[BaseLen(p)..]) == Run(tail', s[BaseLen(p)..])
    ensures BaseLen(p + tail) == |s| && BaseLen(p + tail') == |s|
    ensures Run(p + tail, s) == Run(p + tail', s)
  {
    RunAppend(p, tail, s);
    RunAppend(p, tail', s);
  }

  lemma RunPair(a: Op, b: Op, t: string)
    requires OpBase(a) + OpBase(b) == |t|
    ensures BaseLen([a, b]) == |t|
    ensures Run([a, b], t) == Emit(a, t[..OpBase(a)]) + Emit(b, t[OpBase(a)..])
  {
    assert [a, b] == [a] + [b];
    LengthsAppend([a], [b]);
    RunAppend([a], [b], t);
    RunSingle(a, t[..OpBase(a)]);
    RunSingle(b, t[OpBase(a)..]);
  }

  /** Two neighbours of the same kind do what their merge does. */
  lemma MergePair(last: Op, op: Op, merged: Op, t: string)
    requires SameKind(last, op)
    requires OpBase(merged) == OpBase(last) + OpBase(op) == |t|
    requires merged.Retain? ==> op.Retain?
    requires merged.Delete? ==> op.Delete?
    requires merged.Insert? ==> op.Insert? && merged.s == last.s + op.s
    ensures BaseLen([last, op]) == |t| && BaseLen([merged]) == |t|
    ensures Run([last, op], t) == Run([merged], t)
  {
    RunPair(last, op, t);
    RunSingle(merged, t);
    if op.Retain? {
      assert t[..OpBase(last)] + t[OpBase(last)..] == t;
    }
  }

  /** Merging the last operation with a new one of the same kind. */
  lemma MergeMeaning(ops: Ops, op: Op, merged: Op, s: string)
    requires ops != [] && SameKind(ops[|ops|-1], op)
    requires OpBase(merged) == OpBase(ops[|ops|-1]) + OpBase(op)
    requires merged.Retain? ==> op.Retain?
    requires merged.Delete? ==> op.Delete?
    requires merged.Insert? ==> op.Insert? && merged.s == ops[|ops|-1].s + op.s
    requires BaseLen(ops) + OpBase(op) == |s|
    ensures BaseLen(ops + [op]) == |s| && BaseLen(ops[..|ops|-1] + [merged]) == |s|
    ensures Run(ops[..|ops|-1] + [merged], s) == Run(ops + [op], s)
  {
    var k := |ops|;
    var p := ops[..k-1];
    var last := ops[k-1];
    SeqLast(ops);
    AppendTwo(p, last, op);
    LengthsAppend(p, [last]);
    LengthsSingle(last);
    var t := s[BaseLen(p)..];
    MergePair(last, op, merged, t);
    ReplaceTail(p, [last, op], [merged], s);
    RunOnEqualOps(p + [last, op], ops + [op], s);
  }

  /** Appending one more element to a sequence ending in a known one. */
  lemma AppendTwo(p: Ops, last: Op, op: Op)
    ensures (p + [last]) + [op] == p + [last, op]
  {
  }

  /** Moving an insertion in front of a trailing deletion. */
  lemma SlideMeaning(p: Ops, d: Op, ins: Op, s: string)
    requires d.Delete? && ins.Insert?
    requires BaseLen(p) + d.n == |s|
    ensures BaseLen(p + [d, ins]) == |s| && BaseLen(p + [ins, d]) == |s|
    ensures Run(p + [d, ins], s) == Run(p + [ins, d], s)
  {
    var t := s[BaseLen(p)..];
    RunPair(d, ins, t);
    RunPair(ins, d, t);
    ReplaceTail(p, [d, ins], [ins, d], s);
  }

  /** Appending to an insertion that sits before a trailing deletion. */
  lemma InsertBehindMeaning(p: Ops, i: Op, d: Op, ins: Op, s: string)
    requires i.Insert? && d.Delete? && ins.Insert?
    requires BaseLen(p) + d.n == |s|
    ensures BaseLen(p + [i, d, ins]) == |s| && BaseLen(p + [Insert(i.s + ins.s), d]) == |s|
    ensures Run(p + [i, d, ins], s) == Run(p + [Insert(i.s + ins.s), d], s)
  {
    var t := s[BaseLen(p)..];
    var tail := [i, d, ins];
    assert tail == [i] + [d, ins];
    LengthsAppend([i], [d, ins]);
    LengthsSingle(i);
    RunPair(d, ins, t);
    RunAppend([i], [d, ins], t);
    RunSingle(i, []);
    RunPair(d, ins, t);
    RunPair(Insert(i.s + ins.s), d, t);
    ReplaceTail(p, tail, [Insert(i.s + ins.s), d], s);
  }

  lemma LengthsSingle(op: Op)
    ensures BaseLen([op]) == OpBase(op) && TargetLen([op]) == OpTarget(op)
  {
    assert [op][1..] == [];
  }

  lemma AddRetainMeaning(ops: Ops, n: nat, s: string)
    requires BaseLen(ops) + n == |s|
    ensures BaseLen(ops + [Retain(n)]) == |s| && BaseLen(AddRetain(ops, n)) == |s|
    ensures Run(AddRetain(ops, n), s) == Run(ops + [Retain(n)], s)
  {
    LengthsAppend(ops, [Retain(n)]);
    LengthsSingle(Retain(n));
    var k := |ops|;
    if n == 0 {
      RunAppend(ops, [Retain(n)], s);
      RunSingle(Retain(n), s[BaseLen(ops)..]);
      assert s[..BaseLen(ops)] == s;
    } else if ops != [] && ops[k-1].Retain? {
      MergeMeaning(ops, Retain(n), Retain(ops[k-1].n + n), s);
    }
  }

  lemma AddDeleteMeaning(ops: Ops, n: nat, s: string)
    requires BaseLen(ops) + n == |s|
    ensures BaseLen(ops + [Delete(n)]) == |s| && BaseLen(AddDelete(ops, n)) == |s|
    ensures Run(AddDelete(ops, n), s) == Run(ops + [Delete(n)], s)
  {
    LengthsAppend(ops, [Delete(n)]);
    LengthsSingle(Delete(n));
    var k := |ops|;
    if n == 0 {
      RunAppend(ops, [Delete(n)], s);
      RunSingle(Delete(n), s[BaseLen(ops)..]);
      assert s[..BaseLen(ops)] == s;
    } else if ops != [] && ops[k-1].Delete? {
      MergeMeaning(ops, Delete(n), Delete(ops[k-1].n + n), s);
    }
  }

  lemma AddInsertMeaning(ops: Ops, u: string, s: string)
    requires BaseLen(ops) == |s|
    ensures BaseLen(ops + [Insert(u)]) == |s| && BaseLen(AddInsert(ops, u)) == |s|
    ensures Run(AddInsert(ops, u), s) == Run(ops + [Insert(u)], s)
  {
    var op := Insert(u);
    LengthsAppend(ops, [op]);
    LengthsSingle(op);
    var k := |ops|;
    if u == [] {
      RunAppend(ops, [op], s);
      RunSingle(op, s[BaseLen(ops)..]);
      assert s[..BaseLen(ops)] == s;
    } else if ops != [] && ops[k-1].Insert? {
      MergeMeaning(ops, op, Insert(ops[k-1].s + u), s);
    } else if k >= 2 && ops[k-1].Delete? && ops[k-2].Insert? {
      AddInsertBehindMeaning(ops, u, s);
    } else if ops != [] && ops[k-1].Delete? {
      AddInsertSlideMeaning(ops, u, s);
    }
  }

  /** Appending the last two elements of a sequence back to its front. */
  lemma AppendLastTwo(ops: Ops, op: Op)
    requires |ops| >= 2
    ensures ops == ops[..|ops|-2] + [ops[|ops|-2], ops[|ops|-1]]
    ensures ops + [op] == ops[..|ops|-2] + [ops[|ops|-2], ops[|ops|-1], op]
  {
  }

  lemma AppendLastOne(ops: Ops, op: Op)
    requires ops != []
    ensures ops == ops[..|ops|-1] + [ops[|ops|-1]]
    ensures ops + [op] == ops[..|ops|-1] + [ops[|ops|-1], op]
  {
  }

  /** The lengths of a sequence of two. */
  lemma LengthsPair(a: Op, b: Op)
    ensures BaseLen([a, b]) == OpBase(a) + OpBase(b)
  {
    assert [a, b][1..] == [b];
    LengthsSingle(b);
  }

  /** An insertion after an insertion and a deletion joins the insertion. */
  lemma AddInsertBehindMeaning(ops: Ops, u: string, s: string)
    requires BaseLen(ops) == |s| && u != []
    requires |ops| >= 2 && ops[|ops|-1].Delete? && ops[|ops|-2].Insert?
    ensures BaseLen(AddInsert(ops, u)) == |s| && BaseLen(ops + [Insert(u)]) == |s|
    ensures Run(AddInsert(ops, u), s) == Run(ops + [Insert(u)], s)
  {
    var k := |ops|;
    var p := ops[..k-2];
    var i, d := ops[k-2], ops[k-1];
    AppendLastTwo(ops, Insert(u));
    LengthsAppend(p, [i, d]);
    LengthsPair(i, d);
    InsertBehindMeaning(p, i, d, Insert(u), s);
    RunOnEqualOps(p + [i, d, Insert(u)], ops + [Insert(u)], s);
  }

  /** An insertion after a deletion that follows no insertion slides in
      front of the deletion. */
  lemma AddInsertSlideMeaning(ops: Ops, u: string, s: string)
    requires BaseLen(ops) == |s| && u != []
    requires ops != [] && ops[|ops|-1].Delete?
    requires !(|ops| >= 2 && ops[|ops|-2].Insert?)
    ensures BaseLen(AddInsert(ops, u)) == |s| && BaseLen(ops + [Insert(u)]) == |s|
    ensures Run(AddInsert(ops, u), s) == Run(ops + [Insert(u)], s)
  {
    var k := |ops|;
    var p := ops[..k-1];
    var d := ops[k-1];
    AppendLastOne(ops, Insert(u));
    LengthsAppend(p, [d]);
    LengthsSingle(d);
    SlideMeaning(p, d, Insert(u), s);
    RunOnEqualOps(p + [d, Insert(u)], ops + [Insert(u)], s);
  }

  /** The builder never changes what a sequence does: adding through it is
      the same as appending the raw operation. */
  lemma AddMeaning(ops: Ops, op: Op, s: string)
    requires BaseLen(ops) + OpBase(op) == |s|
    ensures BaseLen(ops + [op]) == |s|
    ensures BaseLen(Add(ops, op)) == |s|
    ensures TargetLen(Add(ops, op)) == TargetLen(ops) + OpTarget(op)
    ensures Run(Add(ops, op), s) == Run(ops + [op], s)
  {
    LengthsAppend(ops, [op]);
    LengthsSingle(op);
    match op
    case Retain(n) => AddRetainMeaning(ops, n, s);
    case Delete(n) => AddDeleteMeaning(ops, n, s);
    case Insert(u) => AddInsertMeaning(ops, u, s);
  }

  /** Some text of length `n`. */
  function Filler(n: nat): (s: string)
    ensures |s| == n
  {
    seq(n, _ => ' ')
  }
}
