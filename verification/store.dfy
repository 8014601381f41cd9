/**
 * The key/value store behind the contract binding, and what loading and
 * submitting read from and write to it, as functions of the store's contents.
 */
module PreferenceStore {
  import opened Records
  import opened Ordering

  /**
   * What `getData(key)` yields once its bytes are decoded: no bytes at all, an
   * array of ids, a record object, text that does not parse, or a read that throws.
   */
  datatype Entry = Empty | Ids(ids: seq<string>) | Record(rec: StoredRecord) | Malformed | Throws(message: string)

  type Contents = map<string, Entry>

  const IndexKey := "preference_keys"
  const RecordKeyPrefix := "preference_"

  function RecordKey(id: string): string { RecordKeyPrefix + id }

  /** An absent key reads as zero bytes. */
  function Lookup(st: Contents, key: string): Entry
  {
    if key in st then st[key] else Empty
  }

  lemma RecordKeyInjective(a: string, b: string)
    ensures RecordKey(a) == RecordKey(b) <==> a == b
  {
    if RecordKey(a) == RecordKey(b) {
      assert a == RecordKey(a)[|RecordKeyPrefix|..];
      assert b == RecordKey(b)[|RecordKeyPrefix|..];
    }
  }

  /** The index as loading sees it: None when reading or iterating it throws. */
  function IndexIds(e: Entry): Option<seq<string>>
  {
    match e
    case Empty => Some([])
    case Malformed => Some([])
    case Ids(ids) => Some(ids)
    case Record(_) => None     // a JSON object is not iterable
    case Throws(_) => None
  }

  /** The record loading finds for `id`; an empty, malformed or throwing entry is skipped. */
  function RecordAt(st: Contents, id: string): Option<StoredRecord>
  {
    match Lookup(st, RecordKey(id))
    case Record(r) => Some(r)
    case _ => None
  }

  /** The list the loading loop builds, in index order, before it is sorted. */
  function Collect(st: Contents, ids: seq<string>): seq<Preference>
  {
    if ids == [] then []
    else
      var id := ids[|ids| - 1];
      Collect(st, ids[..|ids| - 1]) +
        (match RecordAt(st, id) case Some(r) => [FromStored(id, r)] case None => [])
  }

  /** The list a load shows, or None when it returns early and keeps the previous list. */
  function Loaded(st: Contents, available: bool): Option<seq<Preference>>
  {
    if !available then None
    else match IndexIds(Lookup(st, IndexKey))
      case None => None
      case Some(ids) => Some(SortByTimestampDesc(Collect(st, ids)))
  }

  /** The list shown after a load that found `st`: the loaded list, or `previous` when the load returned early. */
  function Reloaded(st: Contents, available: bool, previous: seq<Preference>): seq<Preference>
  {
    match Loaded(st, available) case Some(list) => list case None => previous
  }

  /** `p` is what loading builds from the entry of `id`. */
  predicate LoadsAs(st: Contents, id: string, p: Preference)
  {
    match RecordAt(st, id) case Some(r) => p == FromStored(id, r) case None => false
  }

  /** Loading keeps exactly the index ids whose entry is a decodable record. */
  lemma {:induction false} CollectMembers(st: Contents, ids: seq<string>, p: Preference)
    ensures p in Collect(st, ids) <==> exists i :: 0 <= i < |ids| && LoadsAs(st, ids[i], p)
  {
    if ids != [] {
      var init := ids[..|ids| - 1];
      CollectMembers(st, init, p);
      if exists i :: 0 <= i < |init| && LoadsAs(st, init[i], p) {
        var i :| 0 <= i < |init| && LoadsAs(st, init[i], p);
        assert ids[i] == init[i];
      }
      if exists i :: 0 <= i < |ids| && LoadsAs(st, ids[i], p) {
        var i :| 0 <= i < |ids| && LoadsAs(st, ids[i], p);
        if i < |init| {
          assert init[i] == ids[i];
        }
      }
    }
  }

  /** Number of index ids whose entry loads. */
  function LoadableCount(st: Contents, ids: seq<string>): (n: nat)
    ensures n <= |ids|
  {
    if ids == [] then 0
    else LoadableCount(st, ids[..|ids| - 1]) + (if RecordAt(st, ids[|ids| - 1]).Some? then 1 else 0)
  }

  /** Every index id is counted exactly when every one of them names a readable record. */
  lemma {:induction false} LoadableCountAll(st: Contents, ids: seq<string>)
    ensures LoadableCount(st, ids) == |ids| <==>
      forall i :: 0 <= i < |ids| ==> RecordAt(st, ids[i]).Some?
  {
    if ids != [] {
      var init := ids[..|ids| - 1];
      LoadableCountAll(st, init);
      if LoadableCount(st, ids) == |ids| {
        assert LoadableCount(st, init) == |init| && RecordAt(st, ids[|ids| - 1]).Some?;
        forall i | 0 <= i < |ids| ensures RecordAt(st, ids[i]).Some? {
          if i < |init| {
            assert init[i] == ids[i];
          }
        }
      }
      if forall i :: 0 <= i < |ids| ==> RecordAt(st, ids[i]).Some? {
        forall i | 0 <= i < |init| ensures RecordAt(st, init[i]).Some? {
          assert init[i] == ids[i];
        }
      }
    }
  }

  /** An index of N loadable ids and M others yields exactly N records. */
  lemma {:induction false} CollectLength(st: Contents, ids: seq<string>)
    ensures |Collect(st, ids)| == LoadableCount(st, ids)
  {
    if ids != [] {
      CollectLength(st, ids[..|ids| - 1]);
    }
  }

  /** Every loaded record carries an id taken from the index. */
  lemma CollectIdsFromIndex(st: Contents, ids: seq<string>, p: Preference)
    requires p in Collect(st, ids)
    ensures p.id in ids
  {
    CollectMembers(st, ids, p);
  }

  /** Two stores that agree on the records of the index ids load the same list. */
  lemma {:induction false} CollectFrame(st: Contents, st': Contents, ids: seq<string>)
    requires forall i :: 0 <= i < |ids| ==> RecordAt(st, ids[i]) == RecordAt(st', ids[i])
    ensures Collect(st, ids) == Collect(st', ids)
  {
    if ids != [] {
      var init := ids[..|ids| - 1];
      forall i | 0 <= i < |init| ensures RecordAt(st, init[i]) == RecordAt(st', init[i]) {
        assert init[i] == ids[i];
      }
      CollectFrame(st, st', init);
    }
  }

  /**
   * A successful load shows a list sorted newest first that holds exactly the
   * records loaded from the index, each once per occurrence.
   */
  lemma LoadedIsSortedPermutation(st: Contents)
    requires Loaded(st, true).Some?
    ensures var ids := IndexIds(Lookup(st, IndexKey)).value;
      SortedDesc(Loaded(st, true).value) &&
      multiset(Loaded(st, true).value) == multiset(Collect(st, ids)) &&
      |Loaded(st, true).value| == LoadableCount(st, ids)
  {
    var ids := IndexIds(Lookup(st, IndexKey)).value;
    SortIsSortedPermutation(Collect(st, ids));
    CollectLength(st, ids);
    assert |Loaded(st, true).value| == |multiset(Loaded(st, true).value)|;
  }

  /** Record entries, whatever they hold, never make a load fail: only the index does. */
  lemma LoadFailsOnlyOnIndex(st: Contents, st': Contents, available: bool)
    requires Lookup(st, IndexKey) == Lookup(st', IndexKey)
    ensures Loaded(st, available).Some? <==> Loaded(st', available).Some?
  {
  }

  /** A missing, empty or unparseable index shows the empty list. */
  lemma EmptyIndexLoadsNothing(st: Contents)
    requires Lookup(st, IndexKey) == Empty || Lookup(st, IndexKey) == Malformed
    ensures Loaded(st, true) == Some([])
  {
  }

  // Submitting.

  /** `${n}` for a non-negative integer. */
  function Decimal(n: nat): (r: string)
    ensures |r| >= 1
    ensures forall i :: 0 <= i < |r| ==> '0' <= r[i] <= '9'
  {
    if n < 10 then ["0123456789"[n]] else Decimal(n / 10) + ["0123456789"[n % 10]]
  }

  /**
   * `${Date.now()}-${suffix}`: the clock reading and the random suffix are
   * parameters. Such an id never names the index key.
   */
  function PreferenceId(millis: nat, suffix: string): (id: string)
    ensures RecordKey(id) != IndexKey
    ensures '-' in id
  {
    var d := Decimal(millis);
    var id := d + "-" + suffix;
    assert RecordKey(id) != IndexKey by {
      assert RecordKey(id)[|RecordKeyPrefix| + |d|] == '-';
      assert forall i :: |RecordKeyPrefix| <= i < |IndexKey| ==> IndexKey[i] != '-';
    }
    id
  }

  /** The record a submit writes: the draft's fields, the account and the time in seconds. */
  function NewRecord(draft: Draft, account: string, nowMillis: nat, encoded: string): StoredRecord
  {
    StoredRecord("FHE-" + encoded, nowMillis / 1000, account, draft.exhibitId,
                 draft.lightingIntensity, draft.colorTemperature, draft.visionCondition)
  }

  /** The message of the TypeError from `keys.push` when the index holds an object. */
  const PushNotAFunction := "keys.push is not a function"

  /** The store after a submit's writes, and the error that stopped it, if any. */
  datatype WriteOutcome = WriteOutcome(store: Contents, error: Option<string>)

  /**
   * The record write, then the re-read of the index, then the index write; each
   * write fails with the given message when one is given.
   */
  function SubmitWrites(st: Contents, id: string, rec: StoredRecord,
                        recordFailure: Option<string>, indexFailure: Option<string>): WriteOutcome
  {
    if recordFailure.Some? then WriteOutcome(st, recordFailure)
    else
      var st1 := st[RecordKey(id) := Record(rec)];
      match Lookup(st1, IndexKey)
      case Throws(m) => WriteOutcome(st1, Some(m))
      case Record(_) => WriteOutcome(st1, Some(PushNotAFunction))
      case _ =>
        var keys := match Lookup(st1, IndexKey) case Ids(ids) => ids case _ => [];
        if indexFailure.Some? then WriteOutcome(st1, indexFailure)
        else WriteOutcome(st1[IndexKey := Ids(keys + [id])], None)
  }

  /** A failed record write leaves the store as it was. */
  lemma RecordFailureWritesNothing(st: Contents, id: string, rec: StoredRecord,
                                   recordFailure: string, indexFailure: Option<string>)
    ensures SubmitWrites(st, id, rec, Some(recordFailure), indexFailure) == WriteOutcome(st, Some(recordFailure))
  {
  }

  /**
   * A successful submit stores the record under its key and appends its id to the
   * old index (to `[id]` when the old index was missing or malformed); every other
   * key keeps its entry.
   */
  lemma SubmitSuccessEffect(st: Contents, id: string, rec: StoredRecord)
    requires RecordKey(id) != IndexKey
    requires SubmitWrites(st, id, rec, None, None).error == None
    ensures var st' := SubmitWrites(st, id, rec, None, None).store;
      && IndexIds(Lookup(st, IndexKey)).Some?
      && Lookup(st', RecordKey(id)) == Record(rec)
      && Lookup(st', IndexKey) == Ids(IndexIds(Lookup(st, IndexKey)).value + [id])
      && (Lookup(st, IndexKey) == Malformed ==> Lookup(st', IndexKey) == Ids([id]))
      && forall k :: k != RecordKey(id) && k != IndexKey ==> Lookup(st', k) == Lookup(st, k)
  {
  }

  /**
   * When the record write succeeds and anything after it fails, the record is in
   * the store but the index is not touched, so no later load shows it.
   */
  lemma OrphanedRecordNotLoaded(st: Contents, id: string, rec: StoredRecord, indexFailure: Option<string>)
    requires RecordKey(id) != IndexKey
    requires IndexIds(Lookup(st, IndexKey)).Some? ==> id !in IndexIds(Lookup(st, IndexKey)).value
    requires SubmitWrites(st, id, rec, None, indexFailure).error.Some?
    ensures var st' := SubmitWrites(st, id, rec, None, indexFailure).store;
      && Lookup(st', RecordKey(id)) == Record(rec)
      && Lookup(st', IndexKey) == Lookup(st, IndexKey)
      && (Loaded(st', true).Some? ==> forall p :: p in Loaded(st', true).value ==> p.id != id)
  {
    var st' := SubmitWrites(st, id, rec, None, indexFailure).store;
    assert st' == st[RecordKey(id) := Record(rec)];
    assert Lookup(st', IndexKey) == Lookup(st, IndexKey);
    NotInIndexNotLoaded(st', id);
  }

  /** A record whose id is not in the index is never shown. */
  lemma NotInIndexNotLoaded(st: Contents, id: string)
    requires IndexIds(Lookup(st, IndexKey)).Some? ==> id !in IndexIds(Lookup(st, IndexKey)).value
    ensures Loaded(st, true).Some? ==> forall p :: p in Loaded(st, true).value ==> p.id != id
  {
    if Loaded(st, true).Some? {
      var ids := IndexIds(Lookup(st, IndexKey)).value;
      SortIsSortedPermutation(Collect(st, ids));
      forall p | p in Loaded(st, true).value ensures p.id != id {
        assert p in multiset(Collect(st, ids));
        CollectIdsFromIndex(st, ids, p);
      }
    }
  }

  /** After a successful submit of a fresh id, loading builds the old list with the new record at its end. */
  lemma CollectAfterSubmit(st: Contents, id: string, rec: StoredRecord)
    requires RecordKey(id) != IndexKey
    requires SubmitWrites(st, id, rec, None, None).error == None
    requires IndexIds(Lookup(st, IndexKey)).Some? ==> id !in IndexIds(Lookup(st, IndexKey)).value
    ensures IndexIds(Lookup(st, IndexKey)).Some?
    ensures var st' := SubmitWrites(st, id, rec, None, None).store;
      var ids := IndexIds(Lookup(st, IndexKey)).value;
      Lookup(st', IndexKey) == Ids(ids + [id]) &&
      Collect(st', ids + [id]) == Collect(st, ids) + [FromStored(id, rec)]
  {
    var st' := SubmitWrites(st, id, rec, None, None).store;
    SubmitSuccessEffect(st, id, rec);
    var ids := IndexIds(Lookup(st, IndexKey)).value;
    var ids' := ids + [id];
    forall i | 0 <= i < |ids| ensures RecordAt(st, ids[i]) == RecordAt(st', ids[i]) {
      RecordKeyInjective(ids[i], id);
    }
    CollectFrame(st, st', ids);
    assert ids'[..|ids'| - 1] == ids;
  }

  /**
   * After a successful submit of a fresh id, the next load shows the records it
   * showed before plus the new one.
   */
  lemma SubmitThenLoad(st: Contents, id: string, rec: StoredRecord)
    requires RecordKey(id) != IndexKey
    requires SubmitWrites(st, id, rec, None, None).error == None
    requires IndexIds(Lookup(st, IndexKey)).Some? ==> id !in IndexIds(Lookup(st, IndexKey)).value
    ensures var st' := SubmitWrites(st, id, rec, None, None).store;
      && Loaded(st, true).Some? && Loaded(st', true).Some?
      && multiset(Loaded(st', true).value) == multiset(Loaded(st, true).value) + multiset{FromStored(id, rec)}
  {
    var st' := SubmitWrites(st, id, rec, None, None).store;
    CollectAfterSubmit(st, id, rec);
    var ids := IndexIds(Lookup(st, IndexKey)).value;
    assert Loaded(st', true) == Some(SortByTimestampDesc(Collect(st, ids) + [FromStored(id, rec)]));
    SortIsSortedPermutation(Collect(st, ids));
    SortIsSortedPermutation(Collect(st, ids) + [FromStored(id, rec)]);
  }
}
