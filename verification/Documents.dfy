/** The data a live document session works on. `N` is the type of ProseMirror nodes. */
module Documents {
  import opened Prelude
  import opened Access
  import opened Comments

  type Bytes = seq<int>

  datatype Mark = Mark(kind: string, attrs: string)

  /** A ProseMirror step as it arrives; `mark` is `None` for steps without one. */
  datatype Step = Step(stepType: string, mark: Option<Mark>, from: int, to: int, slice: string)

  datatype BibOp = NoBibType | SetReference(reference: Option<Json>) | DeleteReference | OtherBib

  datatype BibUpdate = BibUpdate(id: Option<Id>, op: BibOp)

  /** The id of an image as the database reads it: missing, null, a number, or something that is no number. */
  datatype ImageId = NoImageId | NullImageId | ImageId(n: int) | BadImageId

  /** `mine` is whether the sender has the image, as the database says at that moment if it can be asked. */
  datatype ImageOp = NoImageType | SetImage(mine: bool, title: Option<Json>, copyright: Option<Json>) | DeleteImage
                   | OtherImage

  datatype ImageUpdate = ImageUpdate(id: ImageId, op: ImageOp)

  /** The images used in a document; the title column holds text. */
  datatype ImageRow = ImageRow(title: string, copyright: Json)

  type ImageRows = map<int, ImageRow>

  /** A `diff` message. `salt` is the decoded `e2ee_salt` when that is valid base64, `ep` the envelope when it is a
      string; an absent key is `None`. */
  datatype Diff = Diff(v: int, rid: Option<string>, ds: Option<seq<Step>>, ti: Option<string>,
                       cu: Option<seq<Update>>, bu: Option<seq<BibUpdate>>, iu: Option<seq<ImageUpdate>>,
                       salt: Option<Bytes>, ep: Option<string>, serverFix: bool)

  /** What the server sends. */
  datatype Msg =
    | AccessDenied
    | Subscribed
    | SessionInfo(id: nat, rights: Rights)
    | AccessRight(rights: Rights)
    | Connections
    | ConfirmVersion(v: int)
    | ConfirmDiff(rid: string)
    | RejectDiff(rid: string)
    | DiffMsg(d: Diff)
    | Refetch
    | PatchError(user: string)
    | RequestSnapshot(v: int)
    | SnapshotReceived(v: int)
    | RekeyDone(v: int, salt: Bytes, iterations: int)
    | Other(text: string)

  /** What a client sends. */
  datatype Up = UpDiff(d: Diff) | UpCheck(v: Option<int>, offline: bool) | UpOther(text: string)

  /** A stored value: readable by the server, or an encrypted string. */
  datatype Field<T> = Plain(value: T) | Cipher(text: string)

  type Bibliography = map<Json, Json>

  /** The columns of a document, in memory and in the database. */
  datatype Doc<N> = Doc(e2ee: bool, version: int, title: string, content: Field<N>, diffs: seq<Diff>,
                        comments: Field<CommentMap>, bibliography: Field<Bibliography>,
                        salt: Option<Bytes>, iterations: int, snapshotVersion: Option<int>)

  /** A session without its participants: the live document, the node the steps are applied to, the save flags, the
      database row and the rows of the document's images. */
  datatype Core<N> = Core(doc: Doc<N>, node: Option<N>, nodeUpdates: bool, lastSaved: int, row: Doc<N>,
                          images: ImageRows)

  /** A participant. `stored` is whether its user object is one of the database's: that of a share-link guest is not,
      nor that of a logged-in user who came by a share link. */
  datatype Role = Role(rights: Rights, user: string, isOwner: bool, stored: bool)

  /** `apply` is the editing engine; `rust` says which engine owns the content column. */
  datatype Config<!N> = Config(apply: (N, Step) -> Option<N>, rust: bool, saveInterval: int,
                               e2eeRequired: bool, e2eeEnabled: bool)

  /** The result of a handler: the new state, what each participant is sent, and whether the handler returned
      (false: an exception escaped from it). */
  datatype Effect<N> = Effect(core: Core<N>, mail: map<nat, seq<Msg>>, ok: bool)

  const HISTORY_LENGTH := 1000

  function PlainComments(f: Field<CommentMap>): CommentMap {
    if f.Plain? then f.value else map[]
  }
}
