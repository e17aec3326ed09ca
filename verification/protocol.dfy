/** The messages SmartShare exchanges, as decoded values.  `IdeMessage` is
    what travels, one JSON object per line, between the editor plugin and
    the Rust client; `ServerMessage` is what travels between the client and
    the server.  Encoding and decoding of JSON are not part of this model. */
module Protocol {
  import opened Common
  import opened OperationSeq

  /** One editor edit: replace `delete` units at `offset` by `text`. */
  datatype TextModification = TextModification(offset: nat, delete: nat, text: string)

  /** One selection: the caret and the other end of the selection. */
  datatype Cursor = Cursor(cursor: nat, anchor: nat)

  /** The two values of `Declare.offset_format`. */
  datatype OffsetFormat = OffsetBytes | OffsetChar

  datatype IdeMessage =
    | Update(changes: seq<TextModification>)
    | Declare(offsetFormat: OffsetFormat)
    | Error(error: string)
    | RequestFile
    | File(file: string)
    | Ack
    | Cursors(id: int, cursors: seq<Cursor>)

  /** A delta and the revision of the document it was made against. */
  datatype ModifRequest = ModifRequest(delta: Ops, revNum: nat)

  datatype ServerMessage =
    | ServerFile(file: string, version: nat)
    | ServerRequestFile
    | ServerUpdate(request: ModifRequest)
    | ServerAck

  /** The `action` field each message carries on the wire. */
  function Tag(m: IdeMessage): string {
    match m
    case Update(_) => "update"
    case Declare(_) => "declare"
    case Error(_) => "error"
    case RequestFile => "requestFile"
    case File(_) => "file"
    case Ack => "ack"
    case Cursors(_, _) => "cursor"
  }

  /** Distinct kinds of message carry distinct tags. */
  lemma TagDistinguishesKinds(m: IdeMessage, n: IdeMessage)
    ensures Tag(m) == Tag(n) <==>
      (m.Update? && n.Update?) || (m.Declare? && n.Declare?) || (m.Error? && n.Error?) ||
      (m.RequestFile? && n.RequestFile?) || (m.File? && n.File?) || (m.Ack? && n.Ack?) ||
      (m.Cursors? && n.Cursors?)
  {
  }

  /** The wire spelling of `offset_format`. */
  function FormatName(f: OffsetFormat): string {
    match f
    case OffsetBytes => "bytes"
    case OffsetChar => "char"
  }

  /** Reading `offset_format` back: only the two spellings are accepted. */
  function ParseFormatName(s: string): (r: Option<OffsetFormat>)
    ensures r.Some? <==> s == "bytes" || s == "char"
  {
    if s == "bytes" then Some(OffsetBytes)
    else if s == "char" then Some(OffsetChar)
    else None
  }

  lemma FormatNameRoundTrip(f: OffsetFormat, s: string)
    ensures ParseFormatName(FormatName(f)) == Some(f)
    ensures ParseFormatName(s).Some? ==> FormatName(ParseFormatName(s).value) == s
  {
  }
}
