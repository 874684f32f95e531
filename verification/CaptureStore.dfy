/** Saving and clearing captured exchanges, one elementary file operation at a time; each of them may
    fail, and the process may stop after any of them (networkcapture/store.go). */
module CaptureStore {
  import opened Text
  import opened CaptureDisk

  /** The body of one side of a record: in memory, or staged in a file. */
  datatype Side = Side(bytes: Option<Bytes>, path: string, contentType: string, representation: string)

  datatype Record = Record(exchange: Exchange, request: Side, response: Side)

  datatype Saved = NotPersisted | Persisted(key: Key, requestBody: Option<Body>, responseBody: Option<Body>)

  /** Why an operation stopped: its context was done, or a file operation failed. */
  datatype Error = ContextDone | FileFailure

  function BodyOf(digest: Bytes -> Hash, contents: Bytes, contentType: string, representation: string): Body {
    Body(digest(contents), |contents|, contentType, representation)
  }

  /** The start time against which Save compares the last Clear. */
  function EffectiveStart(e: Exchange): int {
    if e.startedAt == 0 then e.completedAt else e.startedAt
  }

  /** The exchange with its blanks filled in. */
  function Normalized(e: Exchange, now: int, freshId: string): Exchange {
    var started := if e.startedAt == 0 then now else e.startedAt;
    var completed := if e.completedAt == 0 then now else e.completedAt;
    e.(version := 1,
       id := if e.id == "" then freshId else e.id,
       startedAt := started,
       completedAt := completed,
       durationMs := if e.durationMs == 0 && completed > started then (completed - started) / 1_000_000
                     else e.durationMs,
       outcome := if e.outcome == "" then "succeeded" else e.outcome)
  }

  predicate ShouldPersist(debug: bool, e: Exchange) {
    var rejected := e.response.Some? && e.response.value.status >= 400;
    if debug then true
    else if e.outcome == "blocked" || e.outcome == "canceled" then rejected
    else if e.error != "" || e.captureError != "" || e.outcome == "failed" then true
    else rejected
  }

  /** The manifest: supplied bodies are attached, and a response body makes a response. */
  function WithBodies(e: Exchange, requestBody: Option<Body>, responseBody: Option<Body>): Exchange {
    var e := if requestBody.Some? then e.(requestBody := requestBody) else e;
    if responseBody.None? then e
    else
      var response := if e.response.Some? then e.response.value else Response(0, None, "");
      e.(response := Some(response.(body := responseBody)))
  }

  function SummaryOf(key: Key, e: Exchange): Summary {
    Summary(key, e.id, e.completedAt, if e.response.Some? then e.response.value.status else 0, e.outcome, e.url,
            e.details)
  }

  /** A line of the index that reached the file with its newline. */
  function WholeLine(encode: Summary -> Bytes, summary: Summary): Chunk {
    Chunk(summary, |encode(summary)| + 1)
  }

  /** Whatever a Save of that manifest did or left half done. */
  ghost predicate SaveEffect(d: Disk, d': Disk, key: Key, manifest: Exchange) {
    && (d'.manifests == d.manifests || d'.manifests == d.manifests[key := manifest])
    && (forall hash :: hash in d.blobs ==> hash in d'.blobs && d'.blobs[hash] == d.blobs[hash])
    && d.index <= d'.index
    && |d'.index| <= |d.index| + 1
  }

  predicate Kept(digest: Bytes -> Hash, blobs: map<Hash, Bytes>, contents: Option<Bytes>) {
    contents.Some? ==> digest(contents.value) in blobs && blobs[digest(contents.value)] == contents.value
  }

  /** The body of a side whose contents were supplied. */
  predicate Describes(digest: Bytes -> Hash, body: Option<Body>, contents: Option<Bytes>) {
    contents.Some? ==>
      body.Some? && body.value.hash == digest(contents.value) && body.value.bytes == |contents.value|
  }

  /** What a completed Save leaves: the manifest under its key, one whole index line, and the supplied
      contents as the blobs its bodies describe. */
  ghost predicate SavedAs(digest: Bytes -> Hash, encode: Summary -> Bytes, d: Disk, d': Disk, key: Key,
                          manifest: Exchange, requestContents: Option<Bytes>, responseContents: Option<Bytes>) {
    && d'.manifests == d.manifests[key := manifest]
    && d'.index == d.index + [WholeLine(encode, SummaryOf(key, manifest))]
    && Describes(digest, manifest.requestBody, requestContents) && Kept(digest, d'.blobs, requestContents)
    && Describes(digest, ResponseBody(manifest), responseContents) && Kept(digest, d'.blobs, responseContents)
  }

  /** The manifests that a successful Clear with clock value `at` leaves behind, and all later ones. */
  ghost predicate StartedSince(d: Disk, at: int) {
    forall key :: key in d.manifests ==> at <= d.manifests[key].startedAt
  }

  /** The disk's history: each state follows from the one before by one elementary operation. */
  ghost predicate Journal(trace: seq<Disk>, ops: seq<FileOp>, disk: Disk) {
    && |trace| == |ops| + 1
    && trace[|ops|] == disk
    && forall i :: 0 <= i < |ops| ==> Possible(trace[i], ops[i]) && trace[i + 1] == Effect(trace[i], ops[i])
  }

  lemma JournalGrows(trace: seq<Disk>, ops: seq<FileOp>, disk: Disk, op: FileOp)
    requires Journal(trace, ops, disk) && Possible(disk, op)
    ensures Journal(trace + [Effect(disk, op)], ops + [op], Effect(disk, op))
  {
  }

  class Store {
    const debug: bool
    const digest: Bytes -> Hash
    const dayOf: int -> string          // local calendar day of a time
    const encode: Summary -> Bytes      // an index line without its newline
    var clearedAt: int
    var disk: Disk
    var stages: map<string, Bytes>      // staged body files, by path
    ghost var trace: seq<Disk>          // every state the disk has been in
    ghost var ops: seq<FileOp>          // the operations between them
    ghost var unbacked: set<Key>        // manifests saved with descriptions of bodies that were not stored
    ghost var clean: bool               // the last Clear succeeded
    ghost var clock: int

    /** The disk changes by elementary operations only, and every state a crash could have left is
        consistent. */
    ghost predicate Valid()
      reads this
    {
      && CollisionFree(digest)
      && Journal(trace, ops, disk)
      && Consistent(disk, digest, unbacked)
      && (forall i :: 0 <= i < |trace| ==> Consistent(trace[i], digest, unbacked))
      && 0 <= clearedAt <= clock
      && (clean ==> 0 < clearedAt && StartedSince(disk, clearedAt))
    }

    /** Opens a store on whatever an earlier process left, crashed or not. */
    constructor (debug: bool, digest: Bytes -> Hash, dayOf: int -> string, encode: Summary -> Bytes, disk: Disk,
                 stages: map<string, Bytes>)
      requires CollisionFree(digest) && Consistent(disk, digest, {})
      ensures Valid() && unbacked == {}
      ensures this.disk == disk && this.digest == digest && this.dayOf == dayOf && this.debug == debug
      ensures this.encode == encode
      ensures clearedAt == 0 && !clean
    {
      this.debug := debug;
      this.digest := digest;
      this.dayOf := dayOf;
      this.encode := encode;
      this.disk := disk;
      this.stages := stages;
      clearedAt, clean, clock, trace, ops, unbacked := 0, false, 0, [disk], [], {};
    }

    /** One elementary file operation, which may fail without effect. */
    method Apply(op: FileOp) returns (ok: bool)
      requires Valid() && Possible(disk, op) && Safe(disk, op, digest, unbacked)
      requires op.RenameToManifest? && clean ==> clearedAt <= disk.temps[op.n].draft.exchange.startedAt
      modifies this`disk, this`trace, this`ops
      ensures Valid()
      ensures ops == if ok then old(ops) + [op] else old(ops)
      ensures disk == if ok then Effect(old(disk), op) else old(disk)
      ensures trace == if ok then old(trace) + [disk] else old(trace)
    {
      ok := *;
      if ok {
        SafeKeepsConsistent(disk, op, digest, unbacked);
        JournalGrows(trace, ops, disk, op);
        disk := Effect(disk, op);
        trace := trace + [disk];
        ops := ops + [op];
      }
    }

    /** Writes a temporary file next to the blob and renames it into place. */
    method WriteBlob(contents: Bytes, hash: Hash) returns (ok: bool)
      requires Valid() && digest(contents) == hash && hash !in disk.blobs
      modifies this`disk, this`trace, this`ops
      ensures Valid() && old(trace) <= trace
      ensures disk.index == old(disk.index) && disk.manifests == old(disk.manifests)
      ensures disk.blobs == if ok then old(disk.blobs)[hash := contents] else old(disk.blobs)
    {
      hide Consistent, Journal;
      var n: nat := *;
      if n in disk.temps {
        return false;
      }
      ok := Apply(CreateTemp(n, BlobTree));
      if !ok {
        return;
      }
      ok := Apply(WriteBlobTemp(n, contents));
      if ok {
        ok := Apply(RenameToBlob(n, hash));
      }
      var _ := Apply(RemoveTemp(n));
    }

    method WriteManifest(key: Key, exchange: Exchange) returns (ok: bool)
      requires Valid() && (key in unbacked || BodiesStored(disk, exchange))
      requires clean ==> clearedAt <= exchange.startedAt
      modifies this`disk, this`trace, this`ops
      ensures Valid() && old(trace) <= trace
      ensures disk.index == old(disk.index) && disk.blobs == old(disk.blobs)
      ensures disk.manifests == if ok then old(disk.manifests)[key := exchange] else old(disk.manifests)
    {
      hide Consistent, Journal;
      var n: nat := *;
      if n in disk.temps {
        return false;
      }
      ok := Apply(CreateTemp(n, ManifestTree));
      if !ok {
        return;
      }
      ok := Apply(WriteManifestTemp(n, exchange));
      if ok {
        ok := Apply(RenameToManifest(n, key));
      }
      var _ := Apply(RemoveTemp(n));
    }

    /** Stores contents held in memory under their hash, unless the blob is already there. */
    method SaveBody(contents: Bytes, contentType: string, representation: string) returns (body: Option<Body>)
      requires Valid()
      modifies this`disk, this`trace, this`ops
      ensures Valid() && old(trace) <= trace
      ensures disk.index == old(disk.index) && disk.manifests == old(disk.manifests)
      ensures body.Some? ==>
                body.value == BodyOf(digest, contents, contentType, representation) &&
                disk.blobs == old(disk.blobs)[digest(contents) := contents]
      ensures body.None? ==> disk.blobs == old(disk.blobs)
    {
      var hash := digest(contents);
      var statFails: bool := *;
      if statFails {
        return None;
      }
      if hash !in disk.blobs {
        var mkdirFails: bool := *;
        if mkdirFails {
          return None;
        }
        var ok := WriteBlob(contents, hash);
        if !ok {
          return None;
        }
      } else {
        assert disk.blobs == disk.blobs[hash := contents];
      }
      return Some(Body(hash, |contents|, contentType, representation));
    }

    /** The same for contents staged in a file. */
    method SaveBodyFile(path: string, contentType: string, representation: string) returns (body: Option<Body>)
      requires Valid()
      modifies this`disk, this`trace, this`ops
      ensures Valid() && old(trace) <= trace
      ensures disk.index == old(disk.index) && disk.manifests == old(disk.manifests)
      ensures body.Some? ==>
                path in stages &&
                body.value == BodyOf(digest, stages[path], contentType, representation) &&
                disk.blobs == old(disk.blobs)[digest(stages[path]) := stages[path]]
      ensures body.None? ==> disk.blobs == old(disk.blobs)
    {
      var readFails: bool := *;
      if readFails || path !in stages {
        return None;
      }
      var contents := stages[path];
      var hash, bytesWritten := digest(contents), |contents|;
      if hash !in disk.blobs {
        var prepareFails: bool := *;
        if prepareFails {
          return None;
        }
        var ok := WriteBlob(contents, hash);
        if !ok {
          return None;
        }
      } else {
        var statFails: bool := *;
        if statFails {
          return None;
        }
        assert disk.blobs == disk.blobs[hash := contents];
      }
      return Some(Body(hash, bytesWritten, contentType, representation));
    }

    /** One side of a record: bytes in memory win over a staged file. */
    method SaveSide(side: Side) returns (ok: bool, body: Option<Body>)
      requires Valid()
      modifies this`disk, this`trace, this`ops
      ensures Valid() && old(trace) <= trace
      ensures disk.index == old(disk.index) && disk.manifests == old(disk.manifests)
      ensures ok ==>
                body == SuppliedBody(side) &&
                disk.blobs == if Supplied(side).Some?
                              then old(disk.blobs)[digest(Supplied(side).value) := Supplied(side).value]
                              else old(disk.blobs)
      ensures !ok ==> disk.blobs == old(disk.blobs)
    {
      hide Trim;
      if side.bytes.Some? {
        body := SaveBody(side.bytes.value, side.contentType, side.representation);
        return body.Some?, body;
      }
      if Trim(side.path) != "" {
        body := SaveBodyFile(side.path, side.contentType, side.representation);
        return body.Some?, body;
      }
      return true, None;
    }

    /** The contents supplied for one side, if any. */
    ghost function Supplied(side: Side): Option<Bytes>
      reads this`stages
    {
      if side.bytes.Some? then side.bytes
      else if Trim(side.path) != "" && side.path in stages then Some(stages[side.path])
      else None
    }

    ghost function SuppliedBody(side: Side): Option<Body>
      reads this`stages
    {
      var contents := Supplied(side);
      if contents.Some? then Some(BodyOf(digest, contents.value, side.contentType, side.representation)) else None
    }

    /** Appends one line to the index; an error may leave any part of it in the file. */
    method AppendIndex(summary: Summary) returns (ok: bool)
      requires Valid() && summary.key in disk.manifests
      modifies this`disk, this`trace, this`ops
      ensures Valid() && old(trace) <= trace
      ensures disk.manifests == old(disk.manifests) && disk.blobs == old(disk.blobs)
      ensures ok ==> disk.index == old(disk.index) + [WholeLine(encode, summary)]
      ensures !ok ==> disk.index == old(disk.index)
                      || exists n: nat :: n <= |encode(summary)| + 1 &&
                                          disk.index == old(disk.index) + [Chunk(summary, n)]
    {
      hide Consistent, Journal;
      ghost var before := disk.index;
      ok := Apply(BeginLine(summary));
      if !ok {
        return;
      }
      for n := 0 to |encode(summary)| + 1
        invariant Valid() && old(trace) <= trace
        invariant disk.manifests == old(disk.manifests) && disk.blobs == old(disk.blobs)
        invariant disk.index == before + [Chunk(summary, n)]
      {
        ok := Apply(ExtendLine);
        if !ok {
          return;
        }
        assert (before + [Chunk(summary, n)])[|before| := Chunk(summary, n + 1)] == before + [Chunk(summary, n + 1)];
      }
      var closeFails: bool := *;
      ok := !closeFails;
    }

    /** The manifest first, then the index entry that names it. */
    method Publish(key: Key, manifest: Exchange) returns (ok: bool)
      requires Valid() && (key in unbacked || BodiesStored(disk, manifest))
      requires clean ==> clearedAt <= manifest.startedAt
      modifies this`disk, this`trace, this`ops
      ensures Valid() && old(trace) <= trace
      ensures disk.blobs == old(disk.blobs)
      ensures disk.manifests == old(disk.manifests) || disk.manifests == old(disk.manifests)[key := manifest]
      ensures old(disk.index) <= disk.index && |disk.index| <= |old(disk.index)| + 1
      ensures ok ==>
                && disk.manifests == old(disk.manifests)[key := manifest]
                && disk.index == old(disk.index) + [WholeLine(encode, SummaryOf(key, manifest))]
    {
      hide Consistent, BodiesStored;
      var mkdirFails: bool := *;
      if mkdirFails {
        return false;
      }
      ok := WriteManifest(key, manifest);
      if ok {
        ok := AppendIndex(SummaryOf(key, manifest));
      }
    }

    /** A capture that started before the last Clear is discarded. */
    predicate Outdated(e: Exchange)
      reads this`clearedAt
    {
      clearedAt != 0 && EffectiveStart(e) != 0 && EffectiveStart(e) < clearedAt
    }

    function KeyOf(e: Exchange): Key {
      Key(dayOf(e.completedAt), SafeId(e.id))
    }

    /** The manifest a record becomes. */
    ghost function ManifestOf(record: Record, now: int, freshId: string): Exchange
      reads this`stages
    {
      WithBodies(Normalized(record.exchange, now, freshId),
                 SuppliedBody(record.request),
                 SuppliedBody(record.response))
    }

    /** Stores both sides of a record. */
    method SaveBodies(record: Record) returns (ok: bool, requestBody: Option<Body>, responseBody: Option<Body>)
      requires Valid()
      modifies this`disk, this`trace, this`ops
      ensures Valid() && old(trace) <= trace
      ensures disk.index == old(disk.index) && disk.manifests == old(disk.manifests)
      ensures forall hash :: hash in old(disk.blobs) ==> hash in disk.blobs && disk.blobs[hash] == old(disk.blobs)[hash]
      ensures ok ==>
                && requestBody == SuppliedBody(record.request)
                && responseBody == SuppliedBody(record.response)
                && Kept(digest, disk.blobs, Supplied(record.request))
                && Kept(digest, disk.blobs, Supplied(record.response))
    {
      hide Trim;
      ghost var start := disk.blobs;
      responseBody := None;
      ok, requestBody := SaveSide(record.request);
      Grown(start, if ok then Supplied(record.request) else None);
      if !ok {
        return;
      }
      ghost var middle := disk.blobs;
      ok, responseBody := SaveSide(record.response);
      Grown(middle, if ok then Supplied(record.response) else None);
    }

    function Grow(blobs: map<Hash, Bytes>, contents: Option<Bytes>): map<Hash, Bytes> {
      if contents.Some? then blobs[digest(contents.value) := contents.value] else blobs
    }

    /** Adding contents under their hash keeps every blob: equal names mean equal contents. */
    lemma Grown(blobs: map<Hash, Bytes>, contents: Option<Bytes>)
      requires CollisionFree(digest) && forall hash :: hash in blobs ==> digest(blobs[hash]) == hash
      ensures forall hash :: hash in blobs ==>
                hash in Grow(blobs, contents) && Grow(blobs, contents)[hash] == blobs[hash]
      ensures Kept(digest, Grow(blobs, contents), contents)
    {
    }

    /** A manifest over kept contents has its bodies stored. */
    lemma BodiesAreStored(e: Exchange, requestContents: Option<Bytes>, responseContents: Option<Bytes>,
                          requestBody: Option<Body>, responseBody: Option<Body>)
      requires requestBody.Some? <==> requestContents.Some?
      requires responseBody.Some? <==> responseContents.Some?
      requires Kept(digest, disk.blobs, requestContents) && Kept(digest, disk.blobs, responseContents)
      requires Describes(digest, requestBody, requestContents) && Describes(digest, responseBody, responseContents)
      ensures (requestContents.None? ==> BodyStored(disk, e.requestBody)) &&
              (responseContents.None? ==> BodyStored(disk, ResponseBody(e))) ==>
                BodiesStored(disk, WithBodies(e, requestBody, responseBody))
      ensures Describes(digest, WithBodies(e, requestBody, responseBody).requestBody, requestContents)
      ensures Describes(digest, ResponseBody(WithBodies(e, requestBody, responseBody)), responseContents)
      ensures WithBodies(e, requestBody, responseBody).startedAt == e.startedAt
    {
    }

    lemma WiderIsConsistent(wider: set<Key>)
      requires Valid() && unbacked <= wider
      ensures Consistent(disk, digest, wider)
      ensures forall i :: 0 <= i < |trace| ==> Consistent(trace[i], digest, wider)
    {
      hide Journal, BodiesStored;
    }

    /** Names the manifest about to be saved, unless its bodies are stored. */
    ghost method Admit(backed: bool, key: Key, manifest: Exchange)
      requires Valid() && (backed ==> BodiesStored(disk, manifest))
      modifies this`unbacked
      ensures Valid() && (key in unbacked || BodiesStored(disk, manifest))
      ensures unbacked == if backed then old(unbacked) else old(unbacked) + {key}
    {
      if !backed {
        WiderIsConsistent(unbacked + {key});
        unbacked := unbacked + {key};
      }
    }

    /** A body description the caller has set is replaced by supplied contents, or already stored. */
    ghost predicate PresetStored(record: Record)
      reads this`stages, this`disk
    {
      && (Supplied(record.request).None? ==> BodyStored(disk, record.exchange.requestBody))
      && (Supplied(record.response).None? ==> BodyStored(disk, ResponseBody(record.exchange)))
    }

    /**
     * Persists bodies, then the manifest, then the index entry. Should the record describe a body that it does not
     * supply and that is not stored, its manifest is the only one that may not be backed.
     */
    method Save(ctxDone: bool, record: Record, now: int, freshId: string) returns (r: Result<Saved, Error>)
      requires Valid() && clock <= now && 0 < now
      modifies this`disk, this`trace, this`ops, this`clock, this`unbacked
      ensures Valid() && old(trace) <= trace
      ensures old(unbacked) <= unbacked <= old(unbacked) + {KeyOf(Normalized(record.exchange, now, freshId))}
      ensures old(PresetStored(record)) || ctxDone || r == Ok(NotPersisted) ==> unbacked == old(unbacked)
      ensures ctxDone <==> r == Err(ContextDone)
      ensures r == Ok(NotPersisted) <==>
              !ctxDone &&
              (Outdated(record.exchange) || !ShouldPersist(debug, Normalized(record.exchange, now, freshId)))
      ensures ctxDone || r == Ok(NotPersisted) ==> disk == old(disk)
      ensures SaveEffect(old(disk), disk, KeyOf(Normalized(record.exchange, now, freshId)),
                         ManifestOf(record, now, freshId))
      ensures r.Ok? && r.value.Persisted? ==>
                var manifest := ManifestOf(record, now, freshId);
                var key := KeyOf(Normalized(record.exchange, now, freshId));
                && r.value.key == key
                && r.value.requestBody == SuppliedBody(record.request)
                && r.value.responseBody == SuppliedBody(record.response)
                && SavedAs(digest, encode, old(disk), disk, key, manifest, Supplied(record.request),
                           Supplied(record.response))
    {
      hide SafeId, Trim, Consistent, WithBodies, Supplied, Kept, Journal, PresetStored, SavedAs;
      if ctxDone {
        return Err(ContextDone);
      }
      var exchange := record.exchange;
      if clearedAt != 0 {
        var startedAt := exchange.startedAt;
        if startedAt == 0 {
          startedAt := exchange.completedAt;
        }
        if startedAt != 0 && startedAt < clearedAt {
          return Ok(NotPersisted);
        }
      }
      clock := now;
      exchange := Normalized(exchange, now, freshId);
      if !ShouldPersist(debug, exchange) {
        return Ok(NotPersisted);
      }
      r := Persist(record, exchange);
    }

    /** The part of Save that touches files. */
    method Persist(record: Record, exchange: Exchange) returns (r: Result<Saved, Error>)
      requires Valid() && (clean ==> clearedAt <= exchange.startedAt)
      requires exchange.requestBody == record.exchange.requestBody
      requires ResponseBody(exchange) == ResponseBody(record.exchange)
      modifies this`disk, this`trace, this`ops, this`unbacked
      ensures Valid() && old(trace) <= trace
      ensures r == Err(FileFailure) || (r.Ok? && r.value.Persisted?)
      ensures old(unbacked) <= unbacked <= old(unbacked) + {KeyOf(exchange)}
      ensures old(PresetStored(record)) ==> unbacked == old(unbacked)
      ensures var manifest := WithBodies(exchange, SuppliedBody(record.request), SuppliedBody(record.response));
              && SaveEffect(old(disk), disk, KeyOf(exchange), manifest)
              && (r.Ok? ==>
                    && r.value ==
                       Persisted(KeyOf(exchange), SuppliedBody(record.request), SuppliedBody(record.response))
                    && SavedAs(digest, encode, old(disk), disk, KeyOf(exchange), manifest, Supplied(record.request),
                               Supplied(record.response)))
    {
      hide SafeId, Trim, Consistent, WithBodies, Supplied, Kept, Journal;
      ghost var backed := PresetStored(record);
      var ok, requestBody, responseBody := SaveBodies(record);
      if !ok {
        return Err(FileFailure);
      }
      var manifest := WithBodies(exchange, requestBody, responseBody);
      var key := Key(dayOf(exchange.completedAt), SafeId(exchange.id));
      BodiesAreStored(exchange, Supplied(record.request),
                      Supplied(record.response), requestBody, responseBody);
      Admit(backed, key, manifest);
      ok := Publish(key, manifest);
      if !ok {
        return Err(FileFailure);
      }
      return Ok(Persisted(key, requestBody, responseBody));
    }

    /** Removes the index, then every manifest, then every blob; stops at the first failure. */
    method Clear(now: int) returns (ok: bool)
      requires Valid() && clock <= now && 0 < now
      modifies this`disk, this`trace, this`ops, this`clock, this`clearedAt, this`clean
      ensures Valid() && old(trace) <= trace
      ensures clearedAt == now && clean == ok
      ensures ok ==> disk.index == [] && disk.manifests == map[] && disk.blobs == map[] && disk.temps == map[]
      ensures disk.manifests.Keys <= old(disk.manifests).Keys && disk.blobs.Keys <= old(disk.blobs).Keys
      ensures disk.blobs.Keys != old(disk.blobs).Keys ==> disk.manifests == map[]
      ensures disk.manifests.Keys != old(disk.manifests).Keys ==> disk.index == []
    {
      clock, clearedAt, clean := now, now, false;
      ok := Apply(RemoveIndex);
      if !ok {
        return;
      }
      ok := RemoveManifests();
      if !ok {
        return;
      }
      ok := RemoveBlobs();
      if !ok {
        return;
      }
      NoTempsLeft(disk);
      var mkdirFails: bool := *;
      ok := !mkdirFails;
      clean := ok;
    }

    /** RemoveAll of the exchanges directory: what is in it goes one by one, in any order. */
    method RemoveManifests() returns (ok: bool)
      requires Valid() && !clean && disk.index == []
      modifies this`disk, this`trace, this`ops
      ensures Valid() && old(trace) <= trace
      ensures disk.index == [] && disk.blobs == old(disk.blobs)
      ensures disk.manifests.Keys <= old(disk.manifests).Keys
      ensures ok ==> disk.manifests == map[] && TempsIn(disk, ManifestTree) == {}
    {
      var left, drafts := disk.manifests.Keys, TempsIn(disk, ManifestTree);
      ok := true;
      while left != {} || drafts != {}
        invariant Valid() && !clean && old(trace) <= trace
        invariant disk.index == [] && disk.blobs == old(disk.blobs)
        invariant disk.manifests.Keys <= old(disk.manifests).Keys
        invariant ok ==> disk.manifests.Keys <= left && TempsIn(disk, ManifestTree) <= drafts
        decreases |left| + |drafts|
      {
        hide Consistent, Journal;
        var takeDraft: bool := *;
        var removed;
        if left == {} || (takeDraft && drafts != {}) {
          var n :| n in drafts;
          drafts := drafts - {n};
          removed := Apply(RemoveTemp(n));
        } else {
          var key :| key in left;
          left := left - {key};
          removed := Apply(RemoveManifest(key));
        }
        ok := ok && removed;
      }
    }

    method RemoveBlobs() returns (ok: bool)
      requires Valid() && !clean && disk.manifests == map[]
      modifies this`disk, this`trace, this`ops
      ensures Valid() && old(trace) <= trace
      ensures disk.index == old(disk.index) && disk.manifests == map[]
      ensures disk.blobs.Keys <= old(disk.blobs).Keys
      ensures TempsIn(disk, ManifestTree) <= TempsIn(old(disk), ManifestTree)
      ensures ok ==> disk.blobs == map[] && TempsIn(disk, BlobTree) == {}
    {
      var left, drafts := disk.blobs.Keys, TempsIn(disk, BlobTree);
      ok := true;
      while left != {} || drafts != {}
        invariant Valid() && !clean && old(trace) <= trace
        invariant disk.index == old(disk.index) && disk.manifests == map[]
        invariant disk.blobs.Keys <= old(disk.blobs).Keys
        invariant TempsIn(disk, ManifestTree) <= TempsIn(old(disk), ManifestTree)
        invariant ok ==> disk.blobs.Keys <= left && TempsIn(disk, BlobTree) <= drafts
        decreases |left| + |drafts|
      {
        hide Consistent, Journal;
        var takeDraft: bool := *;
        var removed;
        if left == {} || (takeDraft && drafts != {}) {
          var n :| n in drafts;
          drafts := drafts - {n};
          removed := Apply(RemoveTemp(n));
        } else {
          var hash :| hash in left;
          left := left - {hash};
          removed := Apply(RemoveBlob(hash));
        }
        ok := ok && removed;
      }
    }
  }

  /** The temporary files in one of the two trees. */
  function TempsIn(d: Disk, place: Place): set<nat> {
    set n | n in d.temps && d.temps[n].place == place
  }

  lemma NoTempsLeft(d: Disk)
    requires TempsIn(d, BlobTree) == {} && TempsIn(d, ManifestTree) == {}
    ensures d.temps == map[]
  {
    forall n ensures n in d.temps ==> n in TempsIn(d, BlobTree) || n in TempsIn(d, ManifestTree) {
    }
  }
}
