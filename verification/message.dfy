/** The message vocabulary of the editor plugin
    (plugins/vscode/smartshare/src/message.ts): which decoded lines count as
    messages, which handler a message reaches, and the `Update` record with
    the range it covers and the write it performs on the editor's text. */
module EditorMessage {
  import opened Common
  import opened Protocol

  /** The tags `isMessage` lists, in its order. */
  const Tags: seq<string> := ["update", "declare", "error", "requestFile", "file", "ack"]

  /** Every tag a message of the protocol can carry: the six above and the
      cursor message the plugin also handles. */
  predicate IsWireTag(a: string) {
    a in Tags || a == "cursor"
  }

  /** A line after `JSON.parse`: a message of the protocol, or some other
      object with whatever `action` field it has. */
  datatype RawValue = Msg(m: IdeMessage) | Junk(action: Option<string>)

  /** An object whose `action` is a tag of the protocol is taken to carry the
      fields of that kind of message, so it is a `Msg`. */
  type Value = v: RawValue | v.Junk? ==> !(v.action.Some? && IsWireTag(v.action.value))
    witness Junk(None)

  /** The `action` field of a decoded line. */
  function Action(v: Value): (r: Option<string>)
    ensures r.Some? && IsWireTag(r.value) <==> v.Msg?
  {
    match v
    case Msg(m) => Some(Tag(m))
    case Junk(a) => a
  }

  /** Whether `key in [...]` holds, for a string `key`, on the six-element
      array literal of `isMessage`: `in` finds the array's own keys (the
      indices and `length`) and every property it inherits, the
      string-named properties of `Array.prototype` (as of ECMAScript 2023)
      and of `Object.prototype`. */
  predicate IsArrayKey(key: string) {
    key in {
      // the array's own keys
      "0", "1", "2", "3", "4", "5", "length",
      // Array.prototype
      "constructor", "at", "concat", "copyWithin", "entries", "every", "fill",
      "filter", "find", "findIndex", "findLast", "findLastIndex", "flat",
      "flatMap", "forEach", "includes", "indexOf", "join", "keys",
      "lastIndexOf", "map", "pop", "push", "reduce", "reduceRight", "reverse",
      "shift", "slice", "some", "sort", "splice", "toLocaleString",
      "toReversed", "toSorted", "toSpliced", "toString", "unshift", "values",
      "with",
      // Object.prototype
      "__defineGetter__", "__defineSetter__", "__lookupGetter__",
      "__lookupSetter__", "__proto__", "hasOwnProperty", "isPrototypeOf",
      "propertyIsEnumerable", "valueOf"}
  }

  /** `isMessage` as written: `in` on an array literal asks whether the
      action names a property of the array, its own or inherited (an
      index, `length`, or a method such as `push`), not whether it is one
      of the elements. */
  predicate IsMessageAsWritten(v: Value) {
    Action(v).Some? && IsArrayKey(Action(v).value)
  }

  /** `isMessage` as intended: the action is one of the six listed tags. */
  predicate IsMessage(v: Value) {
    Action(v).Some? && Action(v).value in Tags
  }

  /** The intended test accepts exactly the messages of the six listed
      kinds: a cursor message and every other object are refused. */
  lemma IsMessageExactly(v: Value)
    ensures IsMessage(v) <==> v.Msg? && !v.m.Cursors?
  {
  }

  /** No tag of the protocol names a property of an array. */
  lemma WireTagsAreNotKeys()
    ensures !IsArrayKey("update") && !IsArrayKey("declare") && !IsArrayKey("error")
    ensures !IsArrayKey("requestFile") && !IsArrayKey("file") && !IsArrayKey("ack")
    ensures !IsArrayKey("cursor")
  {
  }

  lemma WireTagIsNotKey(a: string)
    requires IsWireTag(a)
    ensures !IsArrayKey(a)
  {
    WireTagsAreNotKeys();
  }

  /** The test as written accepts exactly the objects whose action names a
      property of the array, and none of those is a message of the
      protocol. */
  lemma IsMessageAsWrittenExactly(v: Value)
    ensures IsMessageAsWritten(v) <==> v.Junk? && v.action.Some? && IsArrayKey(v.action.value)
  {
    if v.Msg? {
      WireTagIsNotKey(Tag(v.m));
    }
  }

  /** As written, no message of the protocol passes: every tag is refused,
      while lines whose action is "0", "push" or "constructor" are let
      through. */
  lemma IsMessageAsWrittenRefusesAll(m: IdeMessage)
    ensures !IsMessageAsWritten(Msg(m))
    ensures IsMessage(Msg(m)) <==> !m.Cursors?
    ensures IsMessageAsWritten(Junk(Some("0"))) && !IsMessage(Junk(Some("0")))
    ensures IsMessageAsWritten(Junk(Some("push"))) && !IsMessage(Junk(Some("push")))
    ensures IsMessageAsWritten(Junk(Some("constructor"))) && !IsMessage(Junk(Some("constructor")))
  {
    WireTagIsNotKey(Tag(m));
  }

  /** The handler parameters of `matchMessage`, one per case. */
  datatype Handler = OnUpdate | OnDeclare | OnError | OnRequestFile | OnFile | OnAck

  /** The tag each handler's case of the `switch` tests. */
  function HandlerTag(h: Handler): string {
    match h
    case OnUpdate => "update"
    case OnDeclare => "declare"
    case OnError => "error"
    case OnRequestFile => "requestFile"
    case OnFile => "file"
    case OnAck => "ack"
  }

  /** `matchMessage`: the handler the `switch` on `action` calls; a cursor
      message matches no case. */
  function MatchMessage(m: IdeMessage): (r: Option<Handler>)
    ensures r.None? <==> m.Cursors?
    ensures r.Some? ==> HandlerTag(r.value) == Tag(m)
  {
    match m
    case Update(_) => Some(OnUpdate)
    case Declare(_) => Some(OnDeclare)
    case Error(_) => Some(OnError)
    case RequestFile => Some(OnRequestFile)
    case File(_) => Some(OnFile)
    case Ack => Some(OnAck)
    case Cursors(_, _) => None
  }

  /** Exactly one handler runs for each message `isMessage` accepts: the
      one whose case names the message's tag. */
  lemma MatchMessageExactlyOne(m: IdeMessage, h: Handler)
    requires IsMessage(Msg(m))
    ensures MatchMessage(m) == Some(h) <==> HandlerTag(h) == Tag(m)
  {
  }

  /** The `Update` class of message.ts: its tag and the three fields. */
  datatype UpdateRecord = UpdateRecord(action: string, offset: nat, delete: nat, text: string)

  /** The `Update` constructor. */
  function NewUpdate(offset: nat, deleteParam: nat, text: string): (u: UpdateRecord)
    ensures u.action == "update"
  {
    UpdateRecord("update", offset, deleteParam, text)
  }

  /** The modification an `Update` record describes. */
  function ModificationOf(u: UpdateRecord): TextModification {
    TextModification(u.offset, u.delete, u.text)
  }

  /** The constructor stores what it is given: building a record from a
      modification gives that modification back, and every update record
      is built that way. */
  lemma NewUpdateRoundTrip(m: TextModification, u: UpdateRecord)
    ensures ModificationOf(NewUpdate(m.offset, m.delete, m.text)) == m
    ensures u.action == "update" ==> NewUpdate(u.offset, u.delete, u.text) == u
  {
  }

  /** `TextDocument.positionAt`: an offset past the end is the end. */
  function Clamp(k: nat, n: nat): (r: nat)
    ensures r <= n && r <= k
    ensures r == k || r == n
  {
    if k <= n then k else n
  }

  /** `range()`: from `offset` to `offset + delete` in a text of `doc`'s
      length, each end clamped to the text. */
  function Range(doc: string, m: TextModification): (r: (nat, nat))
    ensures r.0 <= r.1 <= |doc|
    ensures m.offset + m.delete <= |doc| ==> r == (m.offset, m.offset + m.delete)
    ensures m.offset <= |doc| ==> r.0 == m.offset
    ensures r.1 - r.0 <= m.delete
  {
    (Clamp(m.offset, |doc|), Clamp(m.offset + m.delete, |doc|))
  }

  /** `write()`: the editor replaces the range by the text, unless it
      refuses the edit (`editor.edit` resolving to false). */
  function Write(doc: string, m: TextModification, refuses: (string, TextModification) -> bool): (r: Option<string>)
    ensures r.None? <==> refuses(doc, m)
    ensures r.Some? ==>
      var (s, e) := Range(doc, m);
      && |r.value| == |doc| - (e - s) + |m.text|
      && r.value[..s] == doc[..s]
      && r.value[s..s + |m.text|] == m.text
      && r.value[s + |m.text|..] == doc[e..]
  {
    if refuses(doc, m) then None
    else
      var (s, e) := Range(doc, m);
      Some(doc[..s] + m.text + doc[e..])
  }

  /** The change event the editor reports for a write it accepted: the
      replaced range as offset and length, and the inserted text. */
  function Reported(doc: string, m: TextModification): (r: TextModification)
    ensures r.text == m.text
    ensures r == m <==> m.offset + m.delete <= |doc|
  {
    var (s, e) := Range(doc, m);
    TextModification(s, e - s, m.text)
  }
}
