/**
 * Where a document's one durable state lives: a file behind a pointer in the metadata index
 * (internal/adapter/outbound/persistence/fileservice/store.go, metapointer/resolver.go,
 * internal/adapter/outbound/metadatastore/inmemory/store.go). Every remote call may fail, before or
 * after it took effect; how it goes is an input.
 */
module CheckpointStore {
  import opened Basics

  type DocId = string
  type FileId = string

  /** A stored update; `sound` says whether a state vector can be derived from it. */
  datatype Blob = Blob(bytes: seq<nat>, sound: bool)

  /** An index row. An empty string is a blank column. */
  datatype Row = Row(
    contentType: string,
    pointer: string,
    bucket: string,
    owner: string,
    policy: string,
    isMultiUser: Option<bool>,
    migrated: bool,
    version: nat)

  datatype Encoding = V1 | V2 | Unspecified

  datatype SaveResult = Saved(revision: nat) | BadFence | BadEncoding | TooLarge | SaveCorrupt | SaveFailed
  datatype LoadResult = Loaded(blob: Blob) | NotFound | LoadCorrupt | LoadFailed
  datatype Lookup = Pointer(file: FileId, bucket: string) | NoPointer(bucket: string) | LookupFailed
  datatype WriteResult = Written | Missing | WriteFailed

  /** How the remote calls of one save or load go: finding the pointer, the file's, reading the row, and its upsert. */
  datatype Remote = Remote(lookup: bool, file: Reply, row: bool, index: Reply)

  // --- The index -----------------------------------------------------------------------------------

  function Keep(incoming: string, existing: string): string {
    if incoming == "" then existing else incoming
  }

  /** `coalesceBlank`. */
  function CoalesceBlank(incoming: Row, existing: Row): Row {
    incoming.(
      contentType := Keep(incoming.contentType, existing.contentType),
      pointer := Keep(incoming.pointer, existing.pointer),
      bucket := Keep(incoming.bucket, existing.bucket),
      owner := Keep(incoming.owner, existing.owner),
      policy := Keep(incoming.policy, existing.policy),
      isMultiUser := if incoming.isMultiUser.None? then existing.isMultiUser else incoming.isMultiUser,
      migrated := incoming.migrated || existing.migrated)
  }

  /** The row an upsert leaves behind. */
  function Upserted(rows: map<DocId, Row>, d: DocId, row: Row): Row {
    if d in rows then CoalesceBlank(row.(version := rows[d].version + 1), rows[d])
    else row.(migrated := true, version := if row.version == 0 then 1 else row.version)
  }

  function Blank(): Row {
    Row("", "", "", "", "", None, false, 0)
  }

  /** An upsert of blanks changes nothing but the version, so no partial writer can take another's column away. */
  lemma BlankUpsertKeepsAll(rows: map<DocId, Row>, d: DocId, version: nat)
    requires d in rows
    ensures Upserted(rows, d, Blank().(version := version)) == rows[d].(version := rows[d].version + 1)
  {}

  /** A column that is filled wins over what was there, one left blank keeps it, and every upsert is one version more. */
  lemma FilledColumnsWin(rows: map<DocId, Row>, d: DocId, row: Row)
    requires d in rows
    ensures var r, was := Upserted(rows, d, row), rows[d];
            && (row.contentType != "" ==> r.contentType == row.contentType) && (row.contentType == "" ==> r.contentType == was.contentType)
            && (row.pointer != "" ==> r.pointer == row.pointer) && (row.pointer == "" ==> r.pointer == was.pointer)
            && (row.bucket != "" ==> r.bucket == row.bucket) && (row.bucket == "" ==> r.bucket == was.bucket)
            && (row.owner != "" ==> r.owner == row.owner) && (row.owner == "" ==> r.owner == was.owner)
            && (row.policy != "" ==> r.policy == row.policy) && (row.policy == "" ==> r.policy == was.policy)
            && (row.isMultiUser.Some? ==> r.isMultiUser == row.isMultiUser) && (row.isMultiUser.None? ==> r.isMultiUser == was.isMultiUser)
            && (r.migrated <==> row.migrated || was.migrated) && r.version == was.version + 1
  {}

  /** Two partial writers that fill different columns commute, up to nothing: the row has both their columns. */
  lemma PartialWritersCommute(rows: map<DocId, Row>, d: DocId, a: Row, b: Row)
    requires d in rows
    requires (a.contentType == "" || b.contentType == "") && (a.pointer == "" || b.pointer == "") && (a.bucket == "" || b.bucket == "")
    requires (a.owner == "" || b.owner == "") && (a.policy == "" || b.policy == "") && (a.isMultiUser.None? || b.isMultiUser.None?)
    ensures var ab := rows[d := Upserted(rows, d, a)];
            var ba := rows[d := Upserted(rows, d, b)];
            Upserted(ab, d, b) == Upserted(ba, d, a)
  {}

  // --- Size ------------------------------------------------------------------------------------------

  /** `SaveCheckpoint`'s bound on what may be written. */
  predicate Writable(bytes: seq<nat>, limit: int) {
    limit > 0 ==> |bytes| <= limit
  }

  function LimitRead(body: seq<nat>, n: nat): seq<nat> {
    if |body| <= n then body else body[..n]
  }

  /** `readBounded`: one byte more than the limit is read, and its presence is the verdict. */
  function ReadBounded(body: seq<nat>, limit: int): Option<seq<nat>> {
    if limit <= 0 then Some(body)
    else
      var b := LimitRead(body, limit + 1);
      if |b| > limit then None else Some(b)
  }

  /** What may be written may be read, whole, and nothing else may: no legal blob is refused and no cut one accepted. */
  lemma ReadsExactlyTheWritable(body: seq<nat>, limit: int)
    ensures ReadBounded(body, limit) == if Writable(body, limit) then Some(body) else None
  {}

  // --- The store -------------------------------------------------------------------------------------

  /** A document's pointer is the first one ever recorded, no two documents share a file, and the file holds what last took effect. */
  ghost predicate PointersOk(rows: map<DocId, Row>, pointed: map<DocId, FileId>, used: set<FileId>) {
    && (forall d | d in rows && rows[d].pointer != "" :: d in pointed && pointed[d] == rows[d].pointer)
    && (forall d | d in pointed :: d in rows && rows[d].pointer == pointed[d] && pointed[d] != "" && pointed[d] in used)
    && (forall d, e | d in pointed && e in pointed && pointed[d] == pointed[e] :: d == e)
  }

  ghost predicate ContentOk(files: map<FileId, Blob>, pointed: map<DocId, FileId>, last: map<DocId, Blob>, used: set<FileId>,
                            touched: set<FileId>, limit: int) {
    && pointed.Keys == last.Keys
    && files.Keys <= used && touched <= used
    && (forall d | d in pointed && pointed[d] in files && pointed[d] !in touched :: files[pointed[d]] == last[d])
    && (forall d | d in last :: Writable(last[d].bytes, limit))
  }

  function PointerOf(rows: map<DocId, Row>, d: DocId): Lookup {
    if d !in rows then NoPointer("")
    else if rows[d].pointer == "" then NoPointer(rows[d].bucket)
    else Pointer(rows[d].pointer, rows[d].bucket)
  }

  /** The save reaches the document's file: the one it has, or a new one in its own bucket that gets recorded. */
  ghost predicate TakesEffect(rows: map<DocId, Row>, files: map<FileId, Blob>, d: DocId, w: Remote) {
    w.lookup && d in rows &&
    if rows[d].pointer != "" then rows[d].pointer in files && w.file != FailsBefore
    else rows[d].bucket != "" && w.file == Accepts && w.row && w.index != FailsBefore
  }

  /** Nothing the save calls fails. */
  ghost predicate Succeeds(rows: map<DocId, Row>, files: map<FileId, Blob>, d: DocId, w: Remote) {
    w.lookup && d in rows && w.file == Accepts &&
    if rows[d].pointer != "" then rows[d].pointer in files
    else rows[d].bucket != "" && w.row && w.index == Accepts
  }

  /** Every pointer there was is still there, unchanged. */
  ghost predicate Kept(before: map<DocId, FileId>, after: map<DocId, FileId>) {
    forall d | d in before :: d in after && after[d] == before[d]
  }

  lemma KeptOneMore(pointed: map<DocId, FileId>, d: DocId, file: FileId)
    requires d !in pointed
    ensures Kept(pointed, pointed) && Kept(pointed, pointed[d := file])
  {}

  lemma PointerFacts(rows: map<DocId, Row>, pointed: map<DocId, FileId>, used: set<FileId>, d: DocId)
    requires PointersOk(rows, pointed, used)
    ensures PointerOf(rows, d).Pointer? <==> d in pointed
    ensures d in pointed ==> PointerOf(rows, d).file == pointed[d]
  {}

  /** Recording a fresh file gives the document its pointer and disturbs no other. */
  lemma RecordKeeps(rows: map<DocId, Row>, files: map<FileId, Blob>, pointed: map<DocId, FileId>, last: map<DocId, Blob>,
                    used: set<FileId>, touched: set<FileId>, limit: int, d: DocId, file: FileId, blob: Blob)
    requires PointersOk(rows, pointed, used) && ContentOk(files, pointed, last, used, touched, limit)
    requires d !in pointed && file in used && file != "" && file in files && files[file] == blob && Writable(blob.bytes, limit)
    requires forall e | e in pointed :: pointed[e] != file
    ensures var row := (if d in rows then rows[d] else Blank()).(pointer := file);
            && PointersOk(rows[d := Upserted(rows, d, row)], pointed[d := file], used)
            && ContentOk(files, pointed[d := file], last[d := blob], used, touched, limit)
  {}

  lemma PointersHaveContent(files: map<FileId, Blob>, pointed: map<DocId, FileId>, last: map<DocId, Blob>, used: set<FileId>,
                            touched: set<FileId>, limit: int)
    requires ContentOk(files, pointed, last, used, touched, limit)
    ensures pointed.Keys == last.Keys
  {}

  lemma FreshFile(rows: map<DocId, Row>, files: map<FileId, Blob>, pointed: map<DocId, FileId>, last: map<DocId, Blob>,
                  used: set<FileId>, touched: set<FileId>, limit: int, id: FileId)
    requires PointersOk(rows, pointed, used) && ContentOk(files, pointed, last, used, touched, limit) && id !in used
    ensures id !in touched && forall e | e in pointed :: pointed[e] != id
  {}

  /**
   * What one step of a run showed: a save with its result and whether it took effect, or a load with its
   * result and whether the file was untouched.
   */
  datatype Seen =
    | Save(doc: DocId, blob: Blob, saved: SaveResult, took: bool)
    | Load(doc: DocId, loaded: LoadResult, untouched: bool)
    | Other

  datatype Action =
    | Saving(doc: DocId, encoding: Encoding, fence: nat, blob: Blob, id: FileId, remote: Remote)
    | Loading(doc: DocId, remote: Remote)
    | Upserting(doc: DocId, row: Row, reply: Reply)
    | Meddling(file: FileId, content: Option<Blob>)

  /** A load is seen as one, and a save as one unless its file id was used before. */
  ghost predicate Shows(a: Action, x: Seen) {
    && (a.Loading? <==> x.Load?) && (a.Loading? ==> x.doc == a.doc)
    && (x.Save? ==> a.Saving? && x.doc == a.doc && x.blob == a.blob)
  }

  /** What last took effect for a document, `before` being so at the start. */
  function LastTook(trace: seq<Seen>, d: DocId, before: map<DocId, Blob>): Option<Blob> {
    if trace == [] then (if d in before then Some(before[d]) else None)
    else
      var x := trace[|trace| - 1];
      if x.Save? && x.doc == d && x.took then Some(x.blob) else LastTook(trace[..|trace| - 1], d, before)
  }

  /**
   * A load of an untouched file gives what last took effect, and a document is new only if nothing ever
   * did; a save that reports success took effect.
   */
  ghost predicate Honest(trace: seq<Seen>, i: nat, before: map<DocId, Blob>)
    requires i < |trace|
  {
    match trace[i]
    case Save(_, _, saved, took) => saved.Saved? ==> took
    case Load(d, loaded, untouched) =>
      && (loaded.Loaded? && untouched ==> LastTook(trace[..i], d, before) == Some(loaded.blob))
      && (loaded.NotFound? ==> LastTook(trace[..i], d, before).None?)
    case Other => true
  }

  /** The trace so far agrees with the store: what last took effect is what the store has for it. */
  ghost predicate Follows(trace: seq<Seen>, before: map<DocId, Blob>, last: map<DocId, Blob>) {
    && (forall d :: LastTook(trace, d, before) == if d in last then Some(last[d]) else None)
    && (forall i | 0 <= i < |trace| :: Honest(trace, i, before))
  }

  lemma FollowsNone(last: map<DocId, Blob>)
    ensures Follows([], last, last)
  {}

  lemma FollowsStep(trace: seq<Seen>, x: Seen, before: map<DocId, Blob>, last: map<DocId, Blob>, after: map<DocId, Blob>)
    requires Follows(trace, before, last)
    requires x.Save? ==> (x.saved.Saved? ==> x.took) && after == if x.took then last[x.doc := x.blob] else last
    requires !x.Save? ==> after == last
    requires x.Load? && x.loaded.Loaded? && x.untouched ==> x.doc in last && last[x.doc] == x.loaded.blob
    requires x.Load? && x.loaded.NotFound? ==> x.doc !in last
    ensures Follows(trace + [x], before, after)
  {
    var longer := trace + [x];
    assert longer[..|trace|] == trace;
    forall i | 0 <= i < |longer| ensures Honest(longer, i, before) {
      assert longer[..i] == if i < |trace| then trace[..i] else trace;
      if i < |trace| {
        assert Honest(trace, i, before);
      }
    }
  }

  /** A save that reported success is what an untouched file gives, until the next save of the document that takes effect. */
  lemma {:induction false} SavedStays(trace: seq<Seen>, i: nat, j: nat, before: map<DocId, Blob>)
    requires i < j <= |trace| && trace[i].Save? && trace[i].took
    requires forall k | i < k < j :: !(trace[k].Save? && trace[k].doc == trace[i].doc && trace[k].took)
    ensures LastTook(trace[..j], trace[i].doc, before) == Some(trace[i].blob)
  {
    assert trace[..j][..j - 1] == trace[..j - 1];
    if j - 1 > i {
      SavedStays(trace, i, j - 1, before);
    }
  }

  class Store {
    const limit: int
    var rows: map<DocId, Row>
    var files: map<FileId, Blob>
    var used: set<FileId>
    var revision: nat

    // The first pointer of every document, what last took effect behind it, and the files somebody
    // else wrote to. `used` is every file id ever handed out.
    ghost var pointed: map<DocId, FileId>
    ghost var last: map<DocId, Blob>
    ghost var touched: set<FileId>

    ghost predicate Valid()
      reads this
    {
      PointersOk(rows, pointed, used) && ContentOk(files, pointed, last, used, touched, limit)
    }

    constructor (limit: int)
      ensures Valid() && this.limit == limit && rows == map[] && files == map[]
    {
      this.limit := limit;
      rows, files, revision, pointed, last, used, touched := map[], map[], 0, map[], map[], {}, {};
    }

    /** An upsert by anyone but the resolver: it carries no pointer. */
    method Upsert(d: DocId, row: Row, reply: Reply) returns (ok: bool)
      requires Valid() && row.pointer == ""
      modifies `rows
      ensures Valid() && (ok <==> reply == Accepts)
      ensures rows == if reply == FailsBefore then old(rows) else old(rows)[d := Upserted(old(rows), d, row)]
    {
      if reply != FailsBefore {
        rows := rows[d := Upserted(rows, d, row)];
      }
      return reply == Accepts;
    }

    /** `Resolver.Pointer`: no row and a row without a pointer both mean that there is no file yet. */
    method FindPointer(d: DocId, reachable: bool) returns (found: Lookup)
      ensures found == LookupFailed <==> !reachable
      ensures reachable && (d !in rows || rows[d].pointer == "") ==> found == NoPointer(if d in rows then rows[d].bucket else "")
      ensures reachable && d in rows && rows[d].pointer != "" ==> found == Pointer(rows[d].pointer, rows[d].bucket)
    {
      if !reachable {
        return LookupFailed;
      }
      if d !in rows {
        return NoPointer("");
      }
      return if rows[d].pointer == "" then NoPointer(rows[d].bucket) else Pointer(rows[d].pointer, rows[d].bucket);
    }

    /** `rewrite`: the content behind an existing file is replaced; a missing file is reported and not made. */
    method Rewrite(ghost d: DocId, file: FileId, blob: Blob, reply: Reply) returns (r: WriteResult)
      requires Valid() && d in pointed && pointed[d] == file && Writable(blob.bytes, limit)
      modifies `files, `last, `touched
      ensures Valid()
      ensures r.Written? <==> file in old(files) && reply == Accepts
      ensures r.Missing? <==> file !in old(files) && reply == Accepts
      ensures if file in old(files) && reply != FailsBefore
              then files == old(files)[file := blob] && last == old(last)[d := blob] && touched == old(touched) - {file}
              else files == old(files) && last == old(last) && touched == old(touched)
    {
      if file !in files {
        return if reply == Accepts then Missing else WriteFailed;
      }
      if reply != FailsBefore {
        files := files[file := blob];
        last := last[d := blob];
        touched := touched - {file};
      }
      return if reply == Accepts then Written else WriteFailed;
    }

    /** `create`: a file nobody has yet, which may be left behind without its id ever being learnt. */
    method Create(blob: Blob, id: FileId, reply: Reply) returns (created: Option<FileId>)
      requires Valid() && id !in used && id != ""
      modifies `files, `used
      ensures Valid() && created == if reply == Accepts then Some(id) else None
      ensures if reply == FailsBefore then files == old(files) && used == old(used)
              else files == old(files)[id := blob] && used == old(used) + {id}
    {
      if reply == FailsBefore {
        return None;
      }
      files := files[id := blob];
      used := used + {id};
      return if reply == Accepts then Some(id) else None;
    }

    /** `Resolver.Record`: the one writer of a pointer, by reading the row, adding the pointer and saving the whole row. */
    method Record(d: DocId, file: FileId, ghost blob: Blob, readable: bool, reply: Reply) returns (ok: bool)
      requires Valid() && d !in pointed && file in used && file != "" && file in files && files[file] == blob && file !in touched
      requires (forall e | e in pointed :: pointed[e] != file) && Writable(blob.bytes, limit)
      modifies `rows, `pointed, `last
      ensures Valid() && (ok <==> readable && reply == Accepts)
      ensures if readable && reply != FailsBefore
              then pointed == old(pointed)[d := file] && last == old(last)[d := blob]
              else pointed == old(pointed) && last == old(last) && rows == old(rows)
      ensures forall e | e in old(rows) && e != d :: e in rows && rows[e] == old(rows)[e]
      ensures pointed == old(pointed)[d := file] ==>
                && d in rows && rows[d].pointer == file
                && (d in old(rows) ==> rows[d] == old(rows)[d].(pointer := file, version := old(rows)[d].version + 1))
    {
      hide PointersOk, ContentOk;
      if !readable {
        return false;
      }
      RecordKeeps(rows, files, pointed, last, used, touched, limit, d, file, blob);
      var row := (if d in rows then rows[d] else Blank()).(pointer := file);
      if reply != FailsBefore {
        rows := rows[d := Upserted(rows, d, row)];
        pointed := pointed[d := file];
        last := last[d := blob];
      }
      return reply == Accepts;
    }

    /** The first save of a document: its file, then its pointer. */
    method SaveFirst(d: DocId, blob: Blob, id: FileId, w: Remote) returns (r: SaveResult)
      requires Valid() && d !in pointed && id !in used && id != "" && Writable(blob.bytes, limit)
      modifies `rows, `files, `revision, `pointed, `last, `used
      ensures Valid() && Kept(old(pointed), pointed)
      ensures r.Saved? <==> w.file == Accepts && w.row && w.index == Accepts
      ensures last == if w.file == Accepts && w.row && w.index != FailsBefore then old(last)[d := blob] else old(last)
      ensures r.Saved? ==> pointed == old(pointed)[d := id] && id in files && files[id] == blob
      ensures r.Saved? ==> id !in touched && r.revision == revision == old(revision) + 1
      ensures !r.Saved? ==> r.SaveFailed? && revision == old(revision)
    {
      hide PointersOk, ContentOk, Writable, Upserted, Kept;
      FreshFile(rows, files, pointed, last, used, touched, limit, id);
      KeptOneMore(pointed, d, id);
      var created := Create(blob, id, w.file);
      if created.None? {
        return SaveFailed;
      }
      var ok := Record(d, id, blob, w.row, w.index);
      if !ok {
        return SaveFailed;
      }
      revision := revision + 1;
      return Saved(revision);
    }

    /** The save proper, of bytes that may be written. */
    method Replace(d: DocId, blob: Blob, id: FileId, w: Remote) returns (r: SaveResult)
      requires Valid() && id !in used && id != "" && Writable(blob.bytes, limit)
      modifies `rows, `files, `revision, `pointed, `last, `used, `touched
      ensures Valid() && Kept(old(pointed), pointed)
      ensures r.Saved? <==> Succeeds(old(rows), old(files), d, w)
      ensures last == if TakesEffect(old(rows), old(files), d, w) then old(last)[d := blob] else old(last)
      ensures r.Saved? ==>
                && d in pointed && pointed[d] in files && pointed[d] !in touched && files[pointed[d]] == blob
                && r.revision == revision == old(revision) + 1
      ensures !r.Saved? ==> revision == old(revision)
      ensures touched == old(touched) || (d in pointed && touched == old(touched) - {pointed[d]})
      ensures d in old(pointed) && old(pointed)[d] !in old(files) ==> !r.Saved? && files == old(files) && last == old(last)
      ensures d !in old(rows) || (old(rows)[d].pointer == "" && old(rows)[d].bucket == "") ==>
                !r.Saved? && rows == old(rows) && files == old(files) && last == old(last)
    {
      hide PointersOk, ContentOk;
      PointerFacts(rows, pointed, used, d);
      var found := FindPointer(d, w.lookup);
      match found {
        case LookupFailed => return SaveFailed;
        case Pointer(file, _) =>
          var written := Rewrite(d, file, blob, w.file);
          if written.Written? {
            revision := revision + 1;
            return Saved(revision);
          }
          return if written.Missing? then SaveCorrupt else SaveFailed;
        case NoPointer(bucket) =>
          if bucket == "" {
            return SaveCorrupt;
          }
          r := SaveFirst(d, blob, id, w);
      }
    }

    /**
     * `SaveCheckpoint`: the whole state replaces what was there. Only a document without a pointer gets
     * a file, in its own bucket; a pointer whose file is gone is corruption, never a reason for a new one.
     * A document without an index row has no bucket, so it cannot be saved at all.
     */
    method SaveCheckpoint(d: DocId, encoding: Encoding, fence: nat, blob: Blob, id: FileId, w: Remote)
      returns (r: SaveResult, ghost took: bool)
      requires Valid() && id !in used && id != ""
      modifies `rows, `files, `revision, `pointed, `last, `used, `touched
      ensures Valid() && Kept(old(pointed), pointed)
      ensures r.Saved? <==> encoding == V2 && fence == 0 && (limit > 0 ==> |blob.bytes| <= limit) && Succeeds(old(rows), old(files), d, w)
      ensures took <==> encoding == V2 && fence == 0 && (limit > 0 ==> |blob.bytes| <= limit) && TakesEffect(old(rows), old(files), d, w)
      ensures r.Saved? ==>
                && d in pointed && pointed[d] in files && pointed[d] !in touched && files[pointed[d]] == blob && last[d] == blob
                && r.revision == revision == old(revision) + 1
      ensures !r.Saved? ==> revision == old(revision)
      ensures last == if took then old(last)[d := blob] else old(last)
      ensures (r.Saved? ==> took) && old(touched) - (if d in pointed then {pointed[d]} else {}) <= touched <= old(touched)
      ensures d in old(pointed) && old(pointed)[d] !in old(files) ==> !r.Saved? && files == old(files) && last == old(last)
      ensures d !in old(rows) || (old(rows)[d].pointer == "" && old(rows)[d].bucket == "") ==>
                !r.Saved? && rows == old(rows) && files == old(files) && last == old(last)
      ensures encoding != V2 || fence != 0 || !Writable(blob.bytes, limit) ==>
                !r.Saved? && rows == old(rows) && files == old(files) && last == old(last)
    {
      hide PointersOk, ContentOk;
      took := false;
      if fence != 0 {
        r := BadFence;
      } else if encoding != V2 {
        r := BadEncoding;
      } else if limit > 0 && |blob.bytes| > limit {
        r := TooLarge;
      } else {
        took := TakesEffect(rows, files, d, w);
        r := Replace(d, blob, id, w);
      }
    }

    /** `LoadCheckpoint`: only a document without a pointer is new; a pointer whose file is gone is corrupt. */
    method LoadCheckpoint(d: DocId, w: Remote) returns (r: LoadResult)
      requires Valid()
      ensures r.NotFound? <==> w.lookup && d !in pointed
      ensures r.LoadFailed? <==> !w.lookup || (d in pointed && w.file != Accepts)
      ensures r.Loaded? <==>
                && w.lookup && w.file == Accepts && d in pointed && pointed[d] in files
                && files[pointed[d]].sound && (limit > 0 ==> |files[pointed[d]].bytes| <= limit)
      ensures r.Loaded? ==> r.blob == files[pointed[d]] && (pointed[d] !in touched ==> r.blob == last[d])
      ensures w.lookup && w.file == Accepts && d in pointed && pointed[d] in files && pointed[d] !in touched && last[d].sound ==>
                r == Loaded(last[d])
    {
      PointerFacts(rows, pointed, used, d);
      var found := FindPointer(d, w.lookup);
      match found {
        case LookupFailed => return LoadFailed;
        case NoPointer(_) => return NotFound;
        case Pointer(file, _) =>
          if w.file != Accepts {
            return LoadFailed;
          }
          if file !in files {
            return LoadCorrupt;
          }
          ReadsExactlyTheWritable(files[file].bytes, limit);
          match ReadBounded(files[file].bytes, limit) {
            case None => return LoadCorrupt;
            case Some(bytes) => return if files[file].sound then Loaded(Blob(bytes, files[file].sound)) else LoadCorrupt;
          }
      }
    }

    /** A file is removed, or written to, behind the service's back. */
    method Meddle(file: FileId, content: Option<Blob>)
      requires Valid() && file in files
      modifies `files, `touched
      ensures Valid() && files == if content.Some? then old(files)[file := content.value] else old(files) - {file}
    {
      if content.Some? {
        files := files[file := content.value];
        touched := touched + {file};
      } else {
        files := files - {file};
      }
    }

    /** One step, and what it showed. */
    method Act(a: Action) returns (ghost x: Seen)
      requires Valid()
      modifies this
      ensures Valid() && Kept(old(pointed), pointed)
      ensures x.Save? ==> (x.saved.Saved? ==> x.took) && last == if x.took then old(last)[x.doc := x.blob] else old(last)
      ensures !x.Save? ==> last == old(last)
      ensures x.Load? && x.loaded.Loaded? && x.untouched ==> x.doc in last && last[x.doc] == x.loaded.blob
      ensures x.Load? && x.loaded.NotFound? ==> x.doc !in last
      ensures Shows(a, x) && (a.Saving? && a.id !in old(used) && a.id != "" ==> x.Save?)
    {
      PointersHaveContent(files, pointed, last, used, touched, limit);
      hide PointersOk, ContentOk;
      x := Other;
      match a {
        case Saving(d, encoding, fence, blob, id, w) =>
          if id !in used && id != "" {
            var r, took := SaveCheckpoint(d, encoding, fence, blob, id, w);
            x := Save(d, blob, r, took);
          }
        case Loading(d, w) =>
          var r := LoadCheckpoint(d, w);
          x := Load(d, r, d in pointed && pointed[d] !in touched);
        case Upserting(d, row, reply) => var _ := Upsert(d, row.(pointer := ""), reply);
        case Meddling(file, content) => if file in files { Meddle(file, content); }
      }
    }

    /**
     * Any sequence of saves, loads and index upserts with any failures, and files removed or overwritten
     * behind the service's back: every load is honest about the last save that took effect, no document
     * ever changes its pointer.
     */
    method Run(script: seq<Action>) returns (ghost trace: seq<Seen>)
      requires Valid()
      modifies this
      ensures Valid() && Kept(old(pointed), pointed) && |trace| == |script|
      ensures forall i | 0 <= i < |trace| :: Honest(trace, i, old(last)) && Shows(script[i], trace[i])
    {
      hide PointersOk, ContentOk, Honest, LastTook;
      trace := [];
      FollowsNone(last);
      for n := 0 to |script|
        invariant Valid() && Kept(old(pointed), pointed) && |trace| == n
        invariant Follows(trace, old(last), last) && forall i | 0 <= i < n :: Shows(script[i], trace[i])
      {
        ghost var was := last;
        ghost var x := Act(script[n]);
        FollowsStep(trace, x, old(last), was, last);
        trace := trace + [x];
      }
    }
  }
}
