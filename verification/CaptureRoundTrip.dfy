/** What is read back after Save, across any later saves (networkcapture/store.go, query.go). */
module CaptureRoundTrip {
  import opened Text
  import opened CaptureDisk
  import opened CaptureStore

  datatype BodyError = UnknownSide | NoBody

  /** BodyPath: the blob that a stored exchange names for one side. */
  function BodyBlob(e: Exchange, rawSide: string): Result<Hash, BodyError> {
    var side := Lower(Trim(rawSide));
    if side != "request" && side != "response" then Err(UnknownSide)
    else
      var body := if side == "request" then e.requestBody else ResponseBody(e);
      if body.None? then Err(NoBody) else Ok(body.value.hash)
  }

  predicate OnlyDay(d: Disk, key: Key) {
    forall other :: other in d.manifests && other.name == key.name ==> other == key
  }

  lemma ReadsTheOnlyDay(d: Disk, key: Key)
    requires key in d.manifests && key.name != "" && AllSafe(key.name)
    ensures ReadExchange(d, key.name) == if OnlyDay(d, key) then Ok(d.manifests[key]) else Err(NotUnique)
  {
    hide ReadExchange, SafeId, Trim, AllSafe;
    SafeIdFixes(key.name);
    ReadBack(d, key);
    if OnlyDay(d, key) {
      assert KeysNamed(d, key.name) == {key};
    } else {
      var other :| other in d.manifests && other.name == key.name && other != key;
      assert other in KeysNamed(d, key.name);
    }
  }

  /** Directly after Save the exchange reads back as persisted, exactly when its manifest name is not
      already taken on another day. */
  lemma SavedExchangeReadsBack(digest: Bytes -> Hash, encode: Summary -> Bytes, d: Disk, d': Disk, key: Key,
                               manifest: Exchange, requestContents: Option<Bytes>, responseContents: Option<Bytes>)
    requires SavedAs(digest, encode, d, d', key, manifest, requestContents, responseContents)
    requires key.name != "" && AllSafe(key.name)
    ensures ReadExchange(d', key.name) == if OnlyDay(d, key) then Ok(manifest) else Err(NotUnique)
  {
    hide ReadExchange;
    ReadsTheOnlyDay(d', key);
    OnlyDayStep(d, d', Attempt(key, manifest, true), key);
  }

  /** The stored exchange leads to exactly the bytes supplied; a side that has no body leads nowhere. */
  lemma SavedBodiesReadBack(digest: Bytes -> Hash, encode: Summary -> Bytes, d: Disk, d': Disk, key: Key,
                            manifest: Exchange, requestContents: Option<Bytes>, responseContents: Option<Bytes>,
                            rawSide: string)
    requires SavedAs(digest, encode, d, d', key, manifest, requestContents, responseContents)
    requires Lower(Trim(rawSide)) == "request" || Lower(Trim(rawSide)) == "response"
    ensures var isRequest := Lower(Trim(rawSide)) == "request";
            var contents := if isRequest then requestContents else responseContents;
            match BodyBlob(manifest, rawSide)
            case Ok(hash) => contents.Some? ==> hash in d'.blobs && d'.blobs[hash] == contents.value
            case Err(e) =>
              contents.None? && e == NoBody &&
              (if isRequest then manifest.requestBody.None? else ResponseBody(manifest).None?)
  {
    hide Trim, Lower;
  }

  // ------------------------------------------------------------ runs of saves

  /** One call of Save: where it would put which manifest, and whether it got that far. */
  datatype Attempt = Attempt(key: Key, manifest: Exchange, wrote: bool)

  /** A run of saves, completed or not. */
  ghost predicate SaveRun(disks: seq<Disk>, attempts: seq<Attempt>) {
    && |disks| == |attempts| + 1
    && forall i :: 0 <= i < |attempts| ==>
         var a := attempts[i];
         && SaveEffect(disks[i], disks[i + 1], a.key, a.manifest)
         && disks[i + 1].manifests == if a.wrote then disks[i].manifests[a.key := a.manifest] else disks[i].manifests
  }

  /** Every Save is such an attempt. */
  lemma SaveIsAnAttempt(d: Disk, d': Disk, key: Key, manifest: Exchange)
    requires SaveEffect(d, d', key, manifest)
    ensures exists wrote :: SaveRun([d, d'], [Attempt(key, manifest, wrote)])
  {
    var wrote := d'.manifests == d.manifests[key := manifest];
    assert SaveRun([d, d'], [Attempt(key, manifest, wrote)]);
  }

  /** What the last manifest write under a key stored, if any did. */
  function LastWritten(attempts: seq<Attempt>, key: Key, manifest: Exchange): Exchange {
    if attempts == [] then manifest
    else
      var last := attempts[|attempts| - 1];
      if last.wrote && last.key == key then last.manifest
      else LastWritten(attempts[..|attempts| - 1], key, manifest)
  }

  predicate WritesOtherDay(attempts: seq<Attempt>, key: Key) {
    exists i :: 0 <= i < |attempts| && attempts[i].wrote && attempts[i].key.name == key.name && attempts[i].key != key
  }

  lemma {:induction false} AfterAttempts(disks: seq<Disk>, attempts: seq<Attempt>, key: Key)
    requires SaveRun(disks, attempts) && key in disks[0].manifests
    ensures var final := disks[|attempts|];
            && key in final.manifests
            && final.manifests[key] == LastWritten(attempts, key, disks[0].manifests[key])
            && (OnlyDay(final, key) <==> OnlyDay(disks[0], key) && !WritesOtherDay(attempts, key))
            && (forall hash :: hash in disks[0].blobs ==>
                  hash in final.blobs && final.blobs[hash] == disks[0].blobs[hash])
    decreases |attempts|
  {
    if attempts != [] {
      var n := |attempts| - 1;
      var a := attempts[n];
      AfterAttempts(disks[..n + 1], attempts[..n], key);
      OnlyDayStep(disks[n], disks[n + 1], a, key);
      WritesOneMore(attempts[..n], a, key);
      assert attempts == attempts[..n] + [a];
      assert SaveEffect(disks[n], disks[n + 1], a.key, a.manifest);
      hide OnlyDay, WritesOtherDay;
    }
  }

  lemma OnlyDayStep(d: Disk, d': Disk, a: Attempt, key: Key)
    requires d'.manifests == if a.wrote then d.manifests[a.key := a.manifest] else d.manifests
    ensures OnlyDay(d', key) <==> OnlyDay(d, key) && !(a.wrote && a.key.name == key.name && a.key != key)
  {
    if a.wrote {
      assert a.key in d'.manifests;
    }
    if OnlyDay(d', key) {
      forall other | other in d.manifests && other.name == key.name ensures other == key {
        assert other in d'.manifests;
      }
    }
  }

  lemma WritesOneMore(attempts: seq<Attempt>, a: Attempt, key: Key)
    ensures WritesOtherDay(attempts + [a], key) <==>
            WritesOtherDay(attempts, key) || (a.wrote && a.key.name == key.name && a.key != key)
  {
    var all := attempts + [a];
    assert all[|attempts|] == a;
    if WritesOtherDay(attempts, key) {
      var i :| 0 <= i < |attempts| && attempts[i].wrote && attempts[i].key.name == key.name && attempts[i].key != key;
      assert all[i] == attempts[i];
    }
  }

  /**
   * Exactly when an exchange saved under a safe name reads back after any later saves, completed or not: no
   * manifest of its name exists or gets written on another day, and the last manifest written under its own key
   * is its own again.
   */
  lemma ReadsBackExactly(digest: Bytes -> Hash, encode: Summary -> Bytes, before: Disk, disks: seq<Disk>,
                         attempts: seq<Attempt>, key: Key, manifest: Exchange,
                         requestContents: Option<Bytes>, responseContents: Option<Bytes>)
    requires SaveRun(disks, attempts)
    requires SavedAs(digest, encode, before, disks[0], key, manifest, requestContents, responseContents)
    requires key.name != "" && AllSafe(key.name)
    ensures ReadExchange(disks[|attempts|], key.name) == Ok(manifest) <==>
            && OnlyDay(before, key) && !WritesOtherDay(attempts, key)
            && LastWritten(attempts, key, manifest) == manifest
  {
    AfterAttempts(disks, attempts, key);
    ReadsTheOnlyDay(disks[|attempts|], key);
    OnlyDayStep(before, disks[0], Attempt(key, manifest, true), key);
    hide ReadExchange, AllSafe, OnlyDay, WritesOtherDay, LastWritten;
  }

  /** The two ways to lose it, concretely: an id that safeID maps to the same name, saved later the same day ... */
  lemma CollidingIdReplaces(digest: Bytes -> Hash, encode: Summary -> Bytes, d: Disk, d': Disk, d'': Disk,
                            day: string, first: Exchange, second: Exchange, contents: seq<Option<Bytes>>)
    requires first.id == "a_b" && second.id == "a/b" && |contents| == 4
    requires SavedAs(digest, encode, d, d', Key(day, SafeId(first.id)), first, contents[0], contents[1])
    requires SavedAs(digest, encode, d', d'', Key(day, SafeId(second.id)), second, contents[2], contents[3])
    requires OnlyDay(d, Key(day, SafeId(first.id)))
    ensures ReadExchange(d', "a_b") == Ok(first)
    ensures ReadExchange(d'', "a_b") == Ok(second) && second != first
  {
    SafeIdsCollide();
    var key := Key(day, "a_b");
    SafeIdFixes("a_b");
    PlainId();
    hide SafeId;
    OnlyDayStep(d, d', Attempt(key, first, true), key);
    OnlyDayStep(d', d'', Attempt(key, second, true), key);
    ReadsTheOnlyDay(d', key);
    ReadsTheOnlyDay(d'', key);
  }

  lemma PlainId()
    ensures AllSafe("a_b")
  {
  }

  /** ... or the same name on another day. */
  lemma SecondDayHides(d: Disk, key: Key, other: Key)
    requires key in d.manifests && other in d.manifests && key != other && key.name == other.name
    requires key.name != "" && AllSafe(key.name)
    ensures ReadExchange(d, key.name) == Err(NotUnique)
  {
    ReadsTheOnlyDay(d, key);
  }

  lemma OneSaveKeeps(d: Disk, d': Disk, key: Key, manifest: Exchange, rawId: string)
    requires SaveEffect(d, d', key, manifest) && Trim(rawId) != key.name
    ensures ReadExchange(d', rawId) == ReadExchange(d, rawId)
  {
    hide Trim;
    var id := Trim(rawId);
    assert KeysNamed(d', id) == KeysNamed(d, id);
    if KeysNamed(d, id) != {} && |KeysNamed(d, id)| <= 1 {
      var known :| known in KeysNamed(d, id);
      SingletonKeys(KeysNamed(d, id), known);
    }
  }

  /** Saves under other names, even failing ones, change neither what an id reads nor any blob. */
  lemma {:induction false} LaterSavesKeep(disks: seq<Disk>, attempts: seq<Attempt>, rawId: string)
    requires SaveRun(disks, attempts)
    requires forall i :: 0 <= i < |attempts| ==> attempts[i].key.name != Trim(rawId)
    ensures ReadExchange(disks[|attempts|], rawId) == ReadExchange(disks[0], rawId)
    ensures forall hash :: hash in disks[0].blobs ==>
              hash in disks[|attempts|].blobs && disks[|attempts|].blobs[hash] == disks[0].blobs[hash]
    decreases |attempts|
  {
    hide ReadExchange, Trim;
    if attempts != [] {
      var n := |attempts| - 1;
      LaterSavesKeep(disks[..n + 1], attempts[..n], rawId);
      assert SaveEffect(disks[n], disks[n + 1], attempts[n].key, attempts[n].manifest);
      OneSaveKeeps(disks[n], disks[n + 1], attempts[n].key, attempts[n].manifest, rawId);
    }
  }

  lemma {:induction false} OwnNameOnly(attempts: seq<Attempt>, key: Key, manifest: Exchange)
    requires forall i :: 0 <= i < |attempts| ==> attempts[i].key.name != key.name
    ensures LastWritten(attempts, key, manifest) == manifest && !WritesOtherDay(attempts, key)
  {
    if attempts != [] {
      OwnNameOnly(attempts[..|attempts| - 1], key, manifest);
    }
  }

  /** The whole round trip: an exchange saved under a safe name used once reads back after any later
      saves under other names, and each side leads to exactly the bytes supplied. */
  lemma RoundTrip(digest: Bytes -> Hash, encode: Summary -> Bytes, before: Disk, disks: seq<Disk>,
                  attempts: seq<Attempt>, key: Key, manifest: Exchange,
                  requestContents: Option<Bytes>, responseContents: Option<Bytes>)
    requires SaveRun(disks, attempts)
    requires SavedAs(digest, encode, before, disks[0], key, manifest, requestContents, responseContents)
    requires key.name != "" && AllSafe(key.name)
    requires forall other :: other in before.manifests ==> other.name != key.name
    requires forall i :: 0 <= i < |attempts| ==> attempts[i].key.name != key.name
    ensures ReadExchange(disks[|attempts|], key.name) == Ok(manifest)
    ensures requestContents.Some? ==>
              BodyBlob(manifest, "request").Ok? &&
              var hash := BodyBlob(manifest, "request").value;
              hash in disks[|attempts|].blobs && disks[|attempts|].blobs[hash] == requestContents.value
    ensures responseContents.Some? ==>
              BodyBlob(manifest, "response").Ok? &&
              var hash := BodyBlob(manifest, "response").value;
              hash in disks[|attempts|].blobs && disks[|attempts|].blobs[hash] == responseContents.value
  {
    hide ReadExchange, Trim, Lower, AllSafe;
    OwnNameOnly(attempts, key, manifest);
    ReadsBackExactly(digest, encode, before, disks, attempts, key, manifest, requestContents, responseContents);
    AfterAttempts(disks, attempts, key);
    SideNames();
    SavedBodiesReadBack(digest, encode, before, disks[0], key, manifest, requestContents, responseContents, "request");
    SavedBodiesReadBack(digest, encode, before, disks[0], key, manifest, requestContents, responseContents, "response");
  }

  lemma SideNames()
    ensures Lower(Trim("request")) == "request" && Lower(Trim("response")) == "response"
  {
    hide Trim, Lower;
    PlainWord("request");
    PlainWord("response");
  }

  lemma PlainWord(s: string)
    requires forall i :: 0 <= i < |s| ==> 'a' <= s[i] <= 'z'
    ensures Trim(s) == s && Lower(s) == s
  {
    TrimFixed(s);
    LowerFixed(s);
  }

  lemma LowerFixed(s: string)
    requires forall i :: 0 <= i < |s| ==> LowerChar(s[i]) == s[i]
    ensures Lower(s) == s
  {
    var l := Lower(s);
    hide Lower;
    assert forall i :: 0 <= i < |s| ==> l[i] == s[i];
  }
}
