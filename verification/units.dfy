/** The two units in which SmartShare measures offsets into a document:
    characters (Unicode scalar values, what Rust's `chars()` counts) or the
    bytes of the text's UTF-8 encoding.  The client is started with one of
    them (`--format chars|bytes`) and converts every offset it exchanges
    with the editor. */
module Units {
  import opened Common

  datatype Format = Chars | Bytes

  /** Bytes of the UTF-8 encoding of one character. */
  function Width(c: char): (w: nat)
    ensures 1 <= w <= 4
  {
    if c as int < 0x80 then 1
    else if c as int < 0x800 then 2
    else if c as int < 0x1_0000 then 3
    else 4
  }

  /** Bytes of the UTF-8 encoding of a text. */
  function ByteLen(s: string): (n: nat)
    ensures |s| <= n <= 4 * |s|
  {
    if s == [] then 0 else Width(s[0]) + ByteLen(s[1..])
  }

  lemma {:induction false} ByteLenAppend(s: string, t: string)
    ensures ByteLen(s + t) == ByteLen(s) + ByteLen(t)
  {
    if s == [] {
      assert s + t == t;
    } else {
      assert (s + t)[0] == s[0] && (s + t)[1..] == s[1..] + t;
      ByteLenAppend(s[1..], t);
    }
  }

  /** The length of a text in the unit of `f`. */
  function UnitLen(f: Format, s: string): nat {
    match f
    case Chars => |s|
    case Bytes => ByteLen(s)
  }

  lemma UnitLenAppend(f: Format, s: string, t: string)
    ensures UnitLen(f, s + t) == UnitLen(f, s) + UnitLen(f, t)
  {
    if f.Bytes? { ByteLenAppend(s, t); }
  }

  /** The character index that a byte offset designates: `None` for an
      offset past the end or inside the encoding of one character. */
  function ByteToChar(s: string, u: nat): (r: Option<nat>)
    ensures r.Some? ==> r.value <= |s|
  {
    if u == 0 then Some(0)
    else if s == [] || u < Width(s[0]) then None
    else
      match ByteToChar(s[1..], u - Width(s[0]))
      case None => None
      case Some(k) => Some(k + 1)
  }

  /** The character index that an offset in the unit of `f` designates. */
  function CharIndex(f: Format, s: string, u: nat): (r: Option<nat>)
    ensures r.Some? ==> r.value <= |s|
  {
    match f
    case Chars => if u <= |s| then Some(u) else None
    case Bytes => ByteToChar(s, u)
  }

  /** The offset, in the unit of `f`, of character index `k`. */
  function UnitIndex(f: Format, s: string, k: nat): nat
    requires k <= |s|
  {
    UnitLen(f, s[..k])
  }

  /** Every character boundary converts to an offset and back. */
  lemma {:induction false} ByteToCharOfBoundary(s: string, k: nat)
    requires k <= |s|
    ensures ByteToChar(s, ByteLen(s[..k])) == Some(k)
  {
    if k == 0 {
      assert s[..k] == [];
    } else {
      assert s[..k][0] == s[0] && s[..k][1..] == s[1..][..k - 1];
      ByteToCharOfBoundary(s[1..], k - 1);
    }
  }

  /** An offset that converts designates a boundary at that offset. */
  lemma {:induction false} ByteToCharIsBoundary(s: string, u: nat)
    requires ByteToChar(s, u).Some?
    ensures ByteLen(s[..ByteToChar(s, u).value]) == u
  {
    if u == 0 {
      assert s[..0] == [];
    } else {
      var k := ByteToChar(s[1..], u - Width(s[0])).value;
      ByteToCharIsBoundary(s[1..], u - Width(s[0]));
      assert s[..k + 1][0] == s[0] && s[..k + 1][1..] == s[1..][..k];
    }
  }

  /** Converting is a bijection between the character boundaries of a text
      and the offsets that `CharIndex` accepts. */
  lemma CharIndexRoundTrip(f: Format, s: string, k: nat, u: nat)
    requires k <= |s|
    ensures CharIndex(f, s, UnitIndex(f, s, k)) == Some(k)
    ensures CharIndex(f, s, u) == Some(k) <==> UnitIndex(f, s, k) == u
  {
    if f.Bytes? {
      ByteToCharOfBoundary(s, k);
      if ByteToChar(s, u) == Some(k) {
        ByteToCharIsBoundary(s, u);
      }
    }
  }

  /** Larger offsets designate later characters. */
  lemma CharIndexMonotone(f: Format, s: string, u: nat, v: nat)
    requires u <= v && CharIndex(f, s, u).Some? && CharIndex(f, s, v).Some?
    ensures CharIndex(f, s, u).value <= CharIndex(f, s, v).value
  {
    var i := CharIndex(f, s, u).value;
    var j := CharIndex(f, s, v).value;
    if f.Bytes? && j < i {
      ByteToCharIsBoundary(s, u);
      ByteToCharIsBoundary(s, v);
      assert s[..i] == s[..j] + s[j..i];
      ByteLenAppend(s[..j], s[j..i]);
    }
  }
}
