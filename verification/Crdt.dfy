/**
 * The shared document as the room sees it: a grow-only set of operations. Applying an update is set
 * union, so apply is deterministic and idempotent, a clone is the same set, and the update observer
 * fires exactly when the set grew.
 */
module Crdt {
  import opened Basics
  import Locator

  datatype Value = Text(text: string) | NotText

  /** What an operation writes. A slot is overwritten by the later operation on it. */
  datatype Payload =
    | PutFile(key: string, value: Value)
    | RemoveFile(key: string)
    | PutImage(node: nat, src: Option<Value>)
    | RemoveImage(node: nat)
    | Content

  datatype Op = Op(stamp: nat, payload: Payload)

  type Doc = set<Op>

  /** An encoded update. `Truncated` fails to decode after having applied a part of itself. */
  datatype Update = Decodable(ops: Doc) | Truncated(applied: Doc)

  datatype ContentType = Memo | Whiteboard | Unrecognized

  predicate SameSlot(a: Payload, b: Payload) {
    || ((a.PutFile? || a.RemoveFile?) && (b.PutFile? || b.RemoveFile?) && a.key == b.key)
    || ((a.PutImage? || a.RemoveImage?) && (b.PutImage? || b.RemoveImage?) && a.node == b.node)
  }

  /** No later operation in the document overwrites this one. */
  predicate Current(doc: Doc, o: Op) {
    forall p | p in doc && SameSlot(p.payload, o.payload) :: p.stamp <= o.stamp
  }

  predicate ValidValue(v: Value) {
    v.Text? && Locator.ValidLocator(v.text)
  }

  /** `validateAssetsRoot`: every entry of the `files` root is a string locator. */
  predicate ValidFiles(doc: Doc) {
    forall o | o in doc && o.payload.PutFile? && Current(doc, o) :: ValidValue(o.payload.value)
  }

  /** `validateMemoImages`: every image that has a `src` has a string locator there; a missing `src` is skipped. */
  predicate ValidImages(doc: Doc) {
    forall o | o in doc && o.payload.PutImage? && o.payload.src.Some? && Current(doc, o) ::
      ValidValue(o.payload.src.value)
  }

  /** `validateSchema` and `validateStoredContent`. */
  predicate ValidContent(content: ContentType, doc: Doc) {
    match content
    case Whiteboard => ValidFiles(doc)
    case Memo => ValidImages(doc)
    case Unrecognized => true
  }

  predicate HasSchema(content: ContentType) {
    content != Unrecognized
  }

  function Touched(u: Update): Doc {
    match u
    case Decodable(ops) => ops
    case Truncated(applied) => applied
  }

  /** One current entry that is no locator refuses the whole document. */
  lemma OneBadEntryRefuses(doc: Doc, o: Op)
    requires o in doc && Current(doc, o)
    ensures o.payload.PutFile? && (o.payload.value.NotText? || !Locator.ValidLocator(o.payload.value.text)) ==> !ValidContent(Whiteboard, doc)
    ensures o.payload.PutImage? && o.payload.src.Some? ==>
              (o.payload.src.value.NotText? || !Locator.ValidLocator(o.payload.src.value.text) ==> !ValidContent(Memo, doc))
  {}

  /** Nothing but an entry that is no locator is ever refused; a content type without a schema refuses nothing. */
  lemma LocatorsAreAccepted(content: ContentType, doc: Doc)
    requires content == Unrecognized || forall o | o in doc ::
               && (o.payload.PutFile? && content == Whiteboard ==> o.payload.value.Text? && Locator.ValidLocator(o.payload.value.text))
               && (o.payload.PutImage? && content == Memo && o.payload.src.Some? ==>
                     o.payload.src.value.Text? && Locator.ValidLocator(o.payload.src.value.text))
    ensures ValidContent(content, doc)
  {}

  /** A whiteboard is judged by its files alone, a memo by its images alone. */
  lemma EachTypeReadsItsOwnRoot(doc: Doc, more: Doc)
    ensures (forall o | o in more :: !o.payload.PutFile? && !o.payload.RemoveFile?) ==>
              (ValidContent(Whiteboard, doc + more) <==> ValidContent(Whiteboard, doc))
    ensures (forall o | o in more :: !o.payload.PutImage? && !o.payload.RemoveImage?) ==>
              (ValidContent(Memo, doc + more) <==> ValidContent(Memo, doc))
  {
    if forall o | o in more :: !o.payload.PutFile? && !o.payload.RemoveFile? {
      forall o | o in doc && o.payload.PutFile? ensures Current(doc + more, o) <==> Current(doc, o) {}
    }
    if forall o | o in more :: !o.payload.PutImage? && !o.payload.RemoveImage? {
      forall o | o in doc && o.payload.PutImage? ensures Current(doc + more, o) <==> Current(doc, o) {}
    }
  }

  /** A removal later than everything on its slot undoes what the slot held, however bad. */
  lemma RemovedIsForgotten(doc: Doc, key: string, stamp: nat)
    requires forall o | o in doc && SameSlot(o.payload, RemoveFile(key)) :: o.stamp < stamp
    ensures ValidFiles(doc + {Op(stamp, RemoveFile(key))}) <==> ValidFiles(set o | o in doc && !SameSlot(o.payload, RemoveFile(key)))
  {
    var later := Op(stamp, RemoveFile(key));
    var rest := set o | o in doc && !SameSlot(o.payload, RemoveFile(key));
    forall o | o in doc && o.payload.PutFile? ensures Current(doc + {later}, o) <==> o in rest && Current(rest, o) {
      if SameSlot(o.payload, later.payload) {
        assert SameSlot(later.payload, o.payload) && later in doc + {later};
      } else {
        forall p | p in doc + {later} && SameSlot(p.payload, o.payload) ensures p in rest {}
      }
    }
  }

  /**
   * The check cannot be made on the update alone: the same update is accepted by one valid document
   * and refused by another, which is why the room validates a full candidate copy.
   */
  lemma ValidityDependsOnTheDocument()
    ensures exists clean: Doc, later: Doc, u: Doc ::
              ValidFiles(clean) && ValidFiles(later) && !ValidFiles(clean + u) && ValidFiles(later + u)
  {
    var inline := Op(1, PutFile("k", NotText));
    var over := Op(2, RemoveFile("k"));
    var clean: Doc, later: Doc, u: Doc := {}, {over}, {inline};
    assert clean + u == {inline} && later + u == {over, inline};
    assert Current(clean + u, inline);
    assert !ValidFiles(clean + u);
    assert SameSlot(over.payload, inline.payload);
    assert !Current(later + u, inline);
    assert ValidFiles(later + u);
  }
}
