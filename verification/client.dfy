/**
 * The dashboard component's store client: the contract binding as an object
 * over the store's contents, and the component state that loading and
 * submitting update.
 */
module Client {
  import opened Records
  import opened Ordering
  import opened PreferenceStore
  import opened Messages

  /** The generic key/value contract: `getData`, `setData` and `isAvailable`. */
  class Contract {
    var data: Contents
    var available: bool

    constructor (data: Contents, available: bool)
      ensures this.data == data && this.available == available
    {
      this.data := data;
      this.available := available;
    }

    /**
     * `setData(key, value)`: the transaction either goes through or fails with the
     * given message (a rejected signature, a reverted transaction, a network error).
     */
    method SetData(key: string, value: Entry, failure: Option<string>) returns (error: Option<string>)
      modifies this
      ensures error == failure
      ensures available == old(available)
      ensures data == if failure.None? then old(data)[key := value] else old(data)
    {
      error := failure;
      if failure.None? {
        data := data[key := value];
      }
    }
  }

  /**
   * The two writes of a submit in their order: the record under its key, then
   * the re-read of the index and the index with the id appended.
   */
  method WriteRecordAndIndex(contract: Contract, id: string, rec: StoredRecord,
                             recordFailure: Option<string>, indexFailure: Option<string>)
    returns (error: Option<string>)
    modifies contract
    ensures contract.available == old(contract.available)
    ensures var w := SubmitWrites(old(contract.data), id, rec, recordFailure, indexFailure);
      contract.data == w.store && error == w.error
  {
    error := contract.SetData(RecordKey(id), Record(rec), recordFailure);
    if error.None? {
      var keys: seq<string> := [];
      match Lookup(contract.data, IndexKey) {
        case Throws(m) => error := Some(m);
        case Record(_) => error := Some(PushNotAFunction);
        case Ids(ids) => keys := ids;
        case _ =>
      }
      if error.None? {
        keys := keys + [id];
        error := contract.SetData(IndexKey, Ids(keys), indexFailure);
      }
    }
  }

  /** The transaction banner. */
  datatype Status = Hidden | Pending(message: string) | Succeeded(message: string) | Failed(message: string)

  const ConnectWalletFirst := "Please connect wallet first"
  const SelectExhibit := "Please select an exhibit"
  const EncryptingMessage := "Encrypting lighting preferences with FHE..."
  const StoredMessage := "Lighting preferences encrypted and stored!"
  const NoSignerMessage := "Failed to get contract with signer"

  /** The banner a finished submit shows: success, or the classified error. */
  function Banner(error: Option<string>): Status
  {
    match error
    case None => Succeeded(StoredMessage)
    case Some(m) => Failed(SubmitErrorMessage(m))
  }

  class App {
    var account: string
    var connected: bool            // a wallet provider is set
    var preferences: seq<Preference>
    var draft: Draft
    var creating: bool
    var refreshing: bool
    var loading: bool
    var status: Status
    var alerts: seq<string>        // the blocking alerts shown so far

    /** The shown list is always newest first. */
    ghost predicate Valid()
      reads this
    {
      SortedDesc(preferences)
    }

    constructor ()
      ensures Valid()
      ensures account == "" && !connected && preferences == [] && draft == DefaultDraft
      ensures !creating && !refreshing && loading && status == Hidden && alerts == []
    {
      account := "";
      connected := false;
      preferences := [];
      draft := DefaultDraft;
      creating := false;
      refreshing := false;
      loading := true;
      status := Hidden;
      alerts := [];
    }

    /**
     * `loadPreferences`: with no contract, an unavailable one, or an index that
     * cannot be read or iterated, the list is left as it was; otherwise it becomes
     * the records of the index ids, sorted newest first.
     */
    method Load(contract: Contract?)
      requires Valid()
      modifies this`preferences, this`refreshing, this`loading
      ensures Valid()
      ensures !refreshing && !loading
      ensures contract == null ==> preferences == old(preferences)
      ensures contract != null ==> preferences == Reloaded(contract.data, contract.available, old(preferences))
    {
      refreshing := true;
      if contract != null && contract.available {
        var index := IndexIds(Lookup(contract.data, IndexKey));
        if index.Some? {
          var keys := index.value;
          var list: seq<Preference> := [];
          for i := 0 to |keys|
            invariant list == Collect(contract.data, keys[..i])
          {
            var key := keys[i];
            match Lookup(contract.data, RecordKey(key)) {
              case Record(r) =>
                list := list + [FromStored(key, r)];
              case _ =>
            }
            assert keys[..i + 1][..i] == keys[..i];
          }
          assert keys[..|keys|] == keys;
          list := SortByTimestamp(list);
          preferences := list;
        }
      }
      refreshing := false;
      loading := false;
    }

    /**
     * What `submitPreference` leaves behind. Without a wallet: an alert and
     * nothing else. Otherwise the record is written under its fresh key, the
     * index is re-read, the id is appended and the index is written back;
     * success reloads the list, any failure shows the classified error message.
     * Either way the account, the wallet and the draft are kept.
     */
    twostate predicate SubmitOutcome(contract: Contract?, idMillis: nat, randomSuffix: string, nowMillis: nat,
                                     encodedDraft: string, recordFailure: Option<string>, indexFailure: Option<string>)
      reads this, contract
    {
      && account == old(account) && connected == old(connected) && draft == old(draft)
      && (contract != null ==> contract.available == old(contract.available))
      && (!old(connected) ==>
        && alerts == old(alerts) + [ConnectWalletFirst]
        && preferences == old(preferences) && status == old(status) && creating == old(creating)
        && refreshing == old(refreshing) && loading == old(loading)
        && (contract != null ==> contract.data == old(contract.data)))
      && (old(connected) ==> alerts == old(alerts) && !creating)
      && (old(connected) && contract == null ==>
        && status == Failed(SubmitErrorMessage(NoSignerMessage)) && preferences == old(preferences)
        && refreshing == old(refreshing) && loading == old(loading))
      && (old(connected) && contract != null ==>
        var w := SubmitWrites(old(contract.data), PreferenceId(idMillis, randomSuffix),
                              NewRecord(old(draft), old(account), nowMillis, encodedDraft),
                              recordFailure, indexFailure);
        && contract.data == w.store
        && status == Banner(w.error)
        && preferences == (if w.error.None? then Reloaded(w.store, contract.available, old(preferences))
                           else old(preferences))
        && (if w.error.None? then !refreshing && !loading
            else refreshing == old(refreshing) && loading == old(loading)))
    }

    /** `submitPreference`. */
    method Submit(contract: Contract?, idMillis: nat, randomSuffix: string, nowMillis: nat,
                  encodedDraft: string, recordFailure: Option<string>, indexFailure: Option<string>)
      requires Valid()
      modifies this, contract
      ensures Valid()
      ensures SubmitOutcome(contract, idMillis, randomSuffix, nowMillis, encodedDraft, recordFailure, indexFailure)
    {
      if !connected {
        alerts := alerts + [ConnectWalletFirst];
        return;
      }
      SubmitConnected(contract, PreferenceId(idMillis, randomSuffix),
                      NewRecord(draft, account, nowMillis, encodedDraft), recordFailure, indexFailure);
    }

    /** A submit with a wallet connected, from the pending banner on. */
    method SubmitConnected(contract: Contract?, id: string, rec: StoredRecord,
                           recordFailure: Option<string>, indexFailure: Option<string>)
      requires Valid()
      modifies this`status, this`preferences, this`refreshing, this`loading, this`creating, contract
      ensures Valid() && !creating
      ensures contract != null ==> contract.available == old(contract.available)
      ensures contract == null ==>
        && status == Failed(SubmitErrorMessage(NoSignerMessage)) && preferences == old(preferences)
        && refreshing == old(refreshing) && loading == old(loading)
      ensures contract != null ==>
        var w := SubmitWrites(old(contract.data), id, rec, recordFailure, indexFailure);
        && contract.data == w.store
        && status == Banner(w.error)
        && preferences == (if w.error.None? then Reloaded(w.store, contract.available, old(preferences))
                           else old(preferences))
        && (if w.error.None? then !refreshing && !loading
            else refreshing == old(refreshing) && loading == old(loading))
    {
      if contract == null {
        creating := true;
        status := Pending(EncryptingMessage);
        status := Failed(SubmitErrorMessage(NoSignerMessage));
        creating := false;
      } else {
        WriteAndConclude(contract, id, rec, recordFailure, indexFailure);
      }
    }

    /** A submit whose signer contract is obtained, from the pending banner on. */
    method WriteAndConclude(contract: Contract, id: string, rec: StoredRecord,
                            recordFailure: Option<string>, indexFailure: Option<string>)
      requires Valid()
      modifies this`status, this`preferences, this`refreshing, this`loading, this`creating, contract
      ensures Valid() && !creating
      ensures contract.available == old(contract.available)
      ensures var w := SubmitWrites(old(contract.data), id, rec, recordFailure, indexFailure);
        && contract.data == w.store
        && status == Banner(w.error)
        && preferences == (if w.error.None? then Reloaded(w.store, contract.available, old(preferences))
                           else old(preferences))
        && (if w.error.None? then !refreshing && !loading
            else refreshing == old(refreshing) && loading == old(loading))
    {
      creating := true;
      status := Pending(EncryptingMessage);
      var error := WriteRecordAndIndex(contract, id, rec, recordFailure, indexFailure);
      Conclude(contract, error);
    }

    /** The end of a submit: the success banner and a reload, or the classified error. */
    method Conclude(contract: Contract, error: Option<string>)
      requires Valid()
      modifies this`status, this`preferences, this`refreshing, this`loading, this`creating
      ensures Valid() && !creating
      ensures status == Banner(error)
      ensures preferences == if error.None? then Reloaded(contract.data, contract.available, old(preferences))
                             else old(preferences)
      ensures error.None? ==> !refreshing && !loading
      ensures error.Some? ==> refreshing == old(refreshing) && loading == old(loading)
    {
      if error.None? {
        status := Succeeded(StoredMessage);
        Load(contract);
      } else {
        status := Failed(SubmitErrorMessage(error.value));
      }
      creating := false;
    }

    /** `ModalCreate.handleSubmit`: an empty exhibit id stops at an alert; otherwise submit. */
    method HandleSubmit(contract: Contract?, idMillis: nat, randomSuffix: string, nowMillis: nat,
                        encodedDraft: string, recordFailure: Option<string>, indexFailure: Option<string>)
      requires Valid()
      modifies this, contract
      ensures Valid()
      ensures old(draft.exhibitId) == "" ==>
        && alerts == old(alerts) + [SelectExhibit]
        && preferences == old(preferences) && status == old(status)
        && account == old(account) && connected == old(connected) && draft == old(draft)
        && creating == old(creating) && refreshing == old(refreshing) && loading == old(loading)
        && (contract != null ==> contract.data == old(contract.data) && contract.available == old(contract.available))
      ensures old(draft.exhibitId) != "" ==>
        SubmitOutcome(contract, idMillis, randomSuffix, nowMillis, encodedDraft, recordFailure, indexFailure)
    {
      if draft.exhibitId == "" {
        alerts := alerts + [SelectExhibit];
        return;
      }
      Submit(contract, idMillis, randomSuffix, nowMillis, encodedDraft, recordFailure, indexFailure);
    }
  }
}
