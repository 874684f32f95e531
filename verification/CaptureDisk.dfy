/** The capture directory as crash-visible state: content-addressed blobs, one manifest per exchange,
    an append-only index, and the temporary files of atomic writes (networkcapture/store.go). */
module CaptureDisk {
  import opened Text

  newtype Byte = b: int | 0 <= b < 256
  type Bytes = seq<Byte>
  type Hash = string

  datatype Body = Body(hash: Hash, bytes: nat, contentType: string, representation: string)

  datatype Response = Response(status: int, body: Option<Body>, details: string)

  /** `url` belongs to the request; `request` and `details` stand for the fields that are stored as they come. Times are
      nanoseconds since Go's zero time; 0 is the zero time. */
  datatype Exchange = Exchange(
    version: int, id: string, startedAt: int, completedAt: int, durationMs: int, outcome: string,
    error: string, captureError: string, url: string, request: string, requestBody: Option<Body>,
    response: Option<Response>, details: string)

  /** exchanges/<day>/<name>.json */
  datatype Key = Key(day: string, name: string)

  /** `details` stands for the fields that no query looks at. */
  datatype Summary = Summary(
    key: Key, id: string, completedAt: int, status: int, outcome: string, url: string, details: string)

  /** One append to index.jsonl, and how many bytes of its line (newline included) reached the file. */
  datatype Chunk = Chunk(summary: Summary, written: nat)

  /** Temporary files live beside their target, below blobs or below exchanges. */
  datatype Place = BlobTree | ManifestTree
  datatype Draft = Partial | BlobDraft(contents: Bytes) | ManifestDraft(exchange: Exchange)
  datatype Temp = Temp(place: Place, draft: Draft)

  datatype Disk = Disk(
    index: seq<Chunk>, manifests: map<Key, Exchange>, blobs: map<Hash, Bytes>, temps: map<nat, Temp>)

  // ------------------------------------------------------ elementary operations

  datatype FileOp =
    | CreateTemp(n: nat, place: Place)
    | WriteBlobTemp(n: nat, contents: Bytes)
    | WriteManifestTemp(n: nat, exchange: Exchange)
    | RenameToBlob(n: nat, hash: Hash)
    | RenameToManifest(n: nat, key: Key)
    | RemoveTemp(n: nat)
    | BeginLine(summary: Summary)
    | ExtendLine
    | RemoveIndex
    | RemoveManifest(key: Key)
    | RemoveBlob(hash: Hash)

  predicate Possible(d: Disk, op: FileOp) {
    match op
    case CreateTemp(n, _) => n !in d.temps
    case WriteBlobTemp(n, _) => n in d.temps
    case WriteManifestTemp(n, _) => n in d.temps
    case RenameToBlob(n, _) => n in d.temps && d.temps[n].draft.BlobDraft?
    case RenameToManifest(n, _) => n in d.temps && d.temps[n].draft.ManifestDraft?
    case ExtendLine => d.index != []
    case _ => true
  }

  /** One more byte of the last line. */
  function LastExtended(index: seq<Chunk>): seq<Chunk> {
    if index == [] then []
    else
      var last := index[|index| - 1];
      index[|index| - 1 := last.(written := last.written + 1)]
  }

  function Effect(d: Disk, op: FileOp): Disk
    requires Possible(d, op)
  {
    match op
    case CreateTemp(n, place) => d.(temps := d.temps[n := Temp(place, Partial)])
    case WriteBlobTemp(n, contents) => d.(temps := d.temps[n := d.temps[n].(draft := BlobDraft(contents))])
    case WriteManifestTemp(n, exchange) => d.(temps := d.temps[n := d.temps[n].(draft := ManifestDraft(exchange))])
    case RenameToBlob(n, hash) => d.(blobs := d.blobs[hash := d.temps[n].draft.contents], temps := d.temps - {n})
    case RenameToManifest(n, key) =>
      d.(manifests := d.manifests[key := d.temps[n].draft.exchange], temps := d.temps - {n})
    case RemoveTemp(n) => d.(temps := d.temps - {n})
    case BeginLine(summary) => d.(index := d.index + [Chunk(summary, 0)])
    case ExtendLine => d.(index := LastExtended(d.index))
    case RemoveIndex => d.(index := [])
    case RemoveManifest(key) => d.(manifests := d.manifests - {key})
    case RemoveBlob(hash) => d.(blobs := d.blobs - {hash})
  }

  // ---------------------------------------------------------------- consistency

  /** The digest is injective (SHA-256, FIPS 180-4, taken as collision-free). */
  ghost predicate CollisionFree(digest: Bytes -> Hash) {
    forall a, b :: digest(a) == digest(b) ==> a == b
  }

  predicate BodyStored(d: Disk, body: Option<Body>) {
    body.Some? ==> body.value.hash in d.blobs && |d.blobs[body.value.hash]| == body.value.bytes
  }

  function ResponseBody(e: Exchange): Option<Body> {
    if e.response.Some? then e.response.value.body else None
  }

  predicate BodiesStored(d: Disk, e: Exchange) {
    BodyStored(d, e.requestBody) && BodyStored(d, ResponseBody(e))
  }

  /**
   * Index entries name manifests, manifests' bodies exist with their length, blobs are named by their hash. Only the
   * manifests that `unbacked` names may describe bodies that are not there.
   */
  ghost predicate Consistent(d: Disk, digest: Bytes -> Hash, unbacked: set<Key>) {
    && (forall i :: 0 <= i < |d.index| ==> d.index[i].summary.key in d.manifests)
    && (forall key :: key in d.manifests && key !in unbacked ==> BodiesStored(d, d.manifests[key]))
    && (forall hash :: hash in d.blobs ==> digest(d.blobs[hash]) == hash)
  }

  /** When an elementary operation cannot break a consistent disk. */
  predicate Safe(d: Disk, op: FileOp, digest: Bytes -> Hash, unbacked: set<Key>)
    requires Possible(d, op)
  {
    match op
    case RenameToBlob(n, hash) => digest(d.temps[n].draft.contents) == hash && hash !in d.blobs
    case RenameToManifest(n, key) => key in unbacked || BodiesStored(d, d.temps[n].draft.exchange)
    case BeginLine(summary) => summary.key in d.manifests
    case RemoveManifest(key) => d.index == []
    case RemoveBlob(hash) => d.manifests == map[]
    case _ => true
  }

  /** The order of writes and of deletes is what keeps every crash point consistent. */
  lemma SafeKeepsConsistent(d: Disk, op: FileOp, digest: Bytes -> Hash, unbacked: set<Key>)
    requires Consistent(d, digest, unbacked) && Possible(d, op) && Safe(d, op, digest, unbacked)
    ensures Consistent(Effect(d, op), digest, unbacked)
  {
    var d' := Effect(d, op);
    forall key | key in d'.manifests && key !in unbacked ensures BodiesStored(d', d'.manifests[key]) {
      assert op.RenameToManifest? || key in d.manifests;
    }
  }

  /** A manifest may be put in place exactly when its bodies are stored. */
  lemma ManifestNeedsBodies(d: Disk, n: nat, key: Key, digest: Bytes -> Hash, unbacked: set<Key>)
    requires Consistent(d, digest, unbacked) && Possible(d, RenameToManifest(n, key)) && key !in unbacked
    ensures Consistent(Effect(d, RenameToManifest(n, key)), digest, unbacked) <==>
            BodiesStored(d, d.temps[n].draft.exchange)
  {
    var d' := Effect(d, RenameToManifest(n, key));
    assert key in d'.manifests && d'.blobs == d.blobs;
    if BodiesStored(d, d.temps[n].draft.exchange) {
      SafeKeepsConsistent(d, RenameToManifest(n, key), digest, unbacked);
    }
  }

  /** Whatever sequence of safe operations runs, every state in between is consistent. */
  lemma {:induction false} EveryCrashPointConsistent(
    trace: seq<Disk>, ops: seq<FileOp>, digest: Bytes -> Hash, unbacked: set<Key>, i: nat)
    requires |trace| == |ops| + 1 && i < |trace|
    requires Consistent(trace[0], digest, unbacked)
    requires forall j :: 0 <= j < |ops| ==>
               Possible(trace[j], ops[j]) && Safe(trace[j], ops[j], digest, unbacked) &&
               trace[j + 1] == Effect(trace[j], ops[j])
    ensures Consistent(trace[i], digest, unbacked)
  {
    hide Consistent, Possible, Safe, Effect;
    if i > 0 {
      EveryCrashPointConsistent(trace, ops, digest, unbacked, i - 1);
      SafeKeepsConsistent(trace[i - 1], ops[i - 1], digest, unbacked);
    }
  }

  // ----------------------------------------------------------- what readers see

  predicate SafeChar(c: char) {
    'a' <= c <= 'z' || 'A' <= c <= 'Z' || '0' <= c <= '9' || c == '-' || c == '_'
  }

  /** Every character outside [A-Za-z0-9_-] becomes an underscore. */
  function SafeId(id: string): (r: string)
    ensures |r| == |id|
    ensures forall i :: 0 <= i < |id| ==> SafeChar(r[i]) && (SafeChar(id[i]) ==> r[i] == id[i])
  {
    if id == "" then "" else [if SafeChar(id[0]) then id[0] else '_'] + SafeId(id[1..])
  }

  predicate AllSafe(id: string) {
    forall i :: 0 <= i < |id| ==> SafeChar(id[i])
  }

  /** safeID fixes exactly the ids made of safe characters, which is what ReadExchange accepts. */
  lemma SafeIdFixes(id: string)
    ensures SafeId(id) == id <==> AllSafe(id)
  {
    var safe := SafeId(id);
    hide SafeId;
    if AllSafe(id) {
      assert forall i :: 0 <= i < |id| ==> safe[i] == id[i];
    }
  }

  lemma SafeIdIdempotent(id: string)
    ensures SafeId(SafeId(id)) == SafeId(id)
  {
    SafeIdFixes(SafeId(id));
  }

  lemma SafeCharIsNoSpace(c: char)
    requires SafeChar(c)
    ensures !IsSpace(c)
  {
  }

  lemma SafeIdTrimmed(id: string)
    requires AllSafe(id)
    ensures Trim(id) == id
  {
    if id != "" {
      SafeCharIsNoSpace(id[0]);
      SafeCharIsNoSpace(id[|id| - 1]);
    }
    TrimFixed(id);
  }

  /** safeID is not injective: different exchange ids can share a manifest name. */
  lemma SafeIdsCollide()
    ensures "a/b" != "a_b" && SafeId("a/b") == SafeId("a_b")
  {
    assert "a/b"[1] != "a_b"[1];
    forall i | 0 <= i < 3 ensures SafeId("a/b")[i] == SafeId("a_b")[i] {
    }
  }

  datatype ReadError = InvalidId | NotFound | NotUnique

  function KeysNamed(d: Disk, name: string): set<Key> {
    set key | key in d.manifests && key.name == name
  }

  /** ReadExchange: the manifest of that name, whatever its day, provided there is just one. */
  ghost function ReadExchange(d: Disk, rawId: string): (r: Result<Exchange, ReadError>)
    ensures r.Ok? ==> exists key :: key in d.manifests && key.name == Trim(rawId) && r.value == d.manifests[key]
  {
    var id := Trim(rawId);
    var keys := KeysNamed(d, id);
    if id == "" || SafeId(id) != id then Err(InvalidId)
    else if keys == {} then Err(NotFound)
    else if |keys| > 1 then Err(NotUnique)
    else
      var key :| key in keys;
      Ok(d.manifests[key])
  }

  lemma SingletonKeys(keys: set<Key>, key: Key)
    requires key in keys
    ensures |keys| > 1 <==> keys != {key}
  {
    if keys != {key} {
      var other :| other in keys && other != key;
      assert {key, other} <= keys;
      SubsetSize({key, other}, keys);
    }
  }

  lemma SubsetSize(a: set<Key>, b: set<Key>)
    requires a <= b
    ensures |a| <= |b|
  {
    assert b == a + (b - a);
  }

  /** Reading an id back finds its manifest exactly when no other day holds the same name. */
  lemma ReadBack(d: Disk, key: Key)
    requires key in d.manifests && key.name != "" && SafeId(key.name) == key.name
    ensures ReadExchange(d, key.name) ==
            if KeysNamed(d, key.name) == {key} then Ok(d.manifests[key]) else Err(NotUnique)
  {
    hide SafeId, Trim;
    SafeIdFixes(key.name);
    SafeIdTrimmed(key.name);
    hide AllSafe;
    SingletonKeys(KeysNamed(d, key.name), key);
  }
}
