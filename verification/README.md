# ExhibitLight dashboard: preference store client and dashboard rules

This project models the logic inside the museum lighting-preference dashboard
(`frontend/web/src/App.tsx`). Visitors record a preferred lighting intensity,
colour temperature and vision condition for an exhibit. The dashboard keeps
these records in a generic on-chain key/value contract: one entry per record
under `preference_{id}`, plus an index of all ids under `preference_keys`.

The model has two parts:

* **The store client** (`client.dfy`, specified by `store.dfy`).
  * `Contract` holds the store's contents as a `map<string, Entry>`. An absent
    key reads as zero bytes. The JSON/UTF-8 decoding is abstracted into the
    kind of value decoded: an id array, a record object, unparseable text, or a
    read that throws.
  * `App` holds the dashboard state that loading and submitting update.
  * `App.Load` is the loading loop followed by the sort. `App.Submit` performs
    two ordered `setData` writes: the record first, then the re-read and
    rewritten index. Each write may fail with a given message.
  * The clock readings, the random id suffix and the draft's opaque encoding
    are parameters.
* **The dashboard's pure rules** (`dashboard.dfy`, `messages.dfy`): intensity
  and colour-temperature buckets, the temperature swatch, case-insensitive
  owner matching and the "My Preferences" filter, and the submit error message.
  The sort of the loaded list is in `ordering.dfy`: a stable sort, newest
  first, as `Array.prototype.sort` is stable.

Properties proved:

* The buckets partition the list, and their counts add up to its length.
* The swatch and the statistics disagree exactly at 5000 K. The statistics
  count 5000 K as neutral, but the swatch paints it cool.
* A successful load shows a list that is sorted newest first. The list is a
  permutation of the records of the index ids whose entry decodes.
* Empty, malformed or throwing record entries are skipped and never make a load
  fail. An empty or malformed index loads as the empty list.
* A successful submit appends the id to the old index without deduplication.
  If the old index was malformed, the new index is `[id]`. The record is stored
  under its own key, and no other key changes.
* If a write fails after the record write succeeded, the record stays in the
  store but is orphaned: no later load shows it.
* After a successful submit, the next load shows the earlier records plus the
  new one. This assumes that a write is in the store once `setData` returns
  and that nobody else writes in between (see "Left out").
* The sort is stable: records with equal timestamps keep their index order.
  The "My Preferences" filter keeps list order, so its rows are newest first.

The index is never deduplicated, so an id listed twice shows its record twice.
The multiset statements above count such duplicates.

## Model

| member | source | states |
|---|---|---|
| `Ordering.SortByTimestamp` | frontend/web/src/App.tsx:135 | the sorted list equals the stable newest-first sort of the built list, is sorted by non-increasing timestamp, and is a permutation of it |
| `Ordering.SortIsSortedPermutation` | frontend/web/src/App.tsx:135 | the newest-first sort yields a non-increasing sequence of timestamps holding exactly the input records |
| `Ordering.SortKeepsSortedInput` | frontend/web/src/App.tsx:135 | a list already in newest-first order is left unchanged by the sort |
| `Ordering.InsertStable` | frontend/web/src/App.tsx:135 | inserting into a newest-first list puts the new record after every record with the same timestamp |
| `Ordering.SortIsStable` | frontend/web/src/App.tsx:135 | for every timestamp, the records carrying it appear in the sorted list in the same order as in the input (the sort is stable) |
| `Dashboard.CountWhere` | frontend/web/src/App.tsx:44-54 | `filter(f).length` never exceeds the list length |
| `Dashboard.CountWhereSplit` | frontend/web/src/App.tsx:44-54 | the count over a joined list is the sum of the counts over its parts |
| `Dashboard.IntensityBucketsExclusive` | frontend/web/src/App.tsx:44-48 | every preference is in exactly one of low (<40), medium (40..70) and high (>70) |
| `Dashboard.IntensityCountsPartition` | frontend/web/src/App.tsx:44-48 | low + medium + high equals the number of preferences |
| `Dashboard.TemperatureBucketsExclusive` | frontend/web/src/App.tsx:50-54 | every preference is in exactly one of warm (<3500), neutral (3500..5000) and cool (>5000) |
| `Dashboard.TemperatureCountsPartition` | frontend/web/src/App.tsx:50-54 | warm + neutral + cool equals the number of preferences |
| `Dashboard.SwatchAgreesWithBucketsExceptAt5000` | frontend/web/src/App.tsx:541-543 | the swatch is the warm colour iff warm, neutral colour iff neutral and not 5000 K, cool colour iff cool or exactly 5000 K |
| `Dashboard.LowerCase` | frontend/web/src/App.tsx:281 | lower-casing keeps the length and lower-cases each character in place |
| `Dashboard.IsOwnerCharwise` | frontend/web/src/App.tsx:280-282 | `isOwner` holds iff account and address have equal length and agree character by character up to letter case |
| `Dashboard.IsOwnerEquivalence` | frontend/web/src/App.tsx:280-282 | owner matching is reflexive, symmetric and transitive |
| `Dashboard.LowerCasedAddressMatches` | frontend/web/src/App.tsx:280-282 | every address matches its own lower-cased form, whatever its letter case |
| `Dashboard.NonLetterDifferenceNotOwner` | frontend/web/src/App.tsx:280-282 | two addresses that differ at some position in a character that is not a letter never match |
| `Dashboard.MyPreferences` | frontend/web/src/App.tsx:520 | the "My Preferences" rows are never more than the loaded preferences |
| `Dashboard.MyPreferencesMultiplicity` | frontend/web/src/App.tsx:520 | each preference whose owner matches appears in the rows as often as in the loaded list; every other preference appears zero times |
| `Dashboard.MyPreferencesMembers` | frontend/web/src/App.tsx:520 | a preference is a row iff it is loaded and its owner matches the account |
| `Dashboard.MyPreferencesSplit` | frontend/web/src/App.tsx:520 | the filter keeps list order: filtering a joined list joins the filtered parts |
| `Dashboard.MyPreferencesKeepsSorted` | frontend/web/src/App.tsx:520 | the rows of a newest-first list are newest first |
| `Messages.SubmitErrorMessage` | frontend/web/src/App.tsx:222-224 | the banner is "Transaction rejected by user" iff the error text contains "user rejected transaction"; otherwise it is "Submission failed: " followed by the error text, or "Unknown error" when that is empty |
| `Messages.WalletRejectionRecognised` | frontend/web/src/App.tsx:222-224 | any error text with "user rejected transaction" anywhere in it yields the rejection banner |
| `PreferenceStore.CollectMembers` | frontend/web/src/App.tsx:110-133 | a preference is in the built list iff some index id has a decodable record entry that yields it |
| `PreferenceStore.LoadableCount` | frontend/web/src/App.tsx:110-133 | the number of index ids with a decodable record is at most the index length |
| `PreferenceStore.LoadableCountAll` | frontend/web/src/App.tsx:110-133 | every index id is counted iff every index id names a decodable record |
| `PreferenceStore.CollectLength` | frontend/web/src/App.tsx:110-133 | an index with N loadable ids and M others yields exactly N records |
| `PreferenceStore.CollectIdsFromIndex` | frontend/web/src/App.tsx:116-117 | every loaded preference carries an id taken from the index |
| `PreferenceStore.LoadedIsSortedPermutation` | frontend/web/src/App.tsx:108-136 | a successful load shows a newest-first list that is a permutation of the loadable records, one per loadable index id |
| `PreferenceStore.LoadFailsOnlyOnIndex` | frontend/web/src/App.tsx:110-133 | whether a load succeeds depends only on availability and the index entry, never on the record entries |
| `PreferenceStore.EmptyIndexLoadsNothing` | frontend/web/src/App.tsx:97-106 | an absent, empty or unparseable index loads as the empty list |
| `PreferenceStore.NotInIndexNotLoaded` | frontend/web/src/App.tsx:110-112 | a record whose id is not in the index is never shown |
| `PreferenceStore.Decimal` | frontend/web/src/App.tsx:167 | the decimal rendering of the clock reading is non-empty and all digits |
| `PreferenceStore.PreferenceId` | frontend/web/src/App.tsx:167 | a generated id contains '-' and its record key is never the index key |
| `PreferenceStore.RecordFailureWritesNothing` | frontend/web/src/App.tsx:180-183 | a failed record write leaves the store unchanged and reports that failure |
| `PreferenceStore.SubmitSuccessEffect` | frontend/web/src/App.tsx:180-201 | a successful submit stores the record under its key, sets the index to the old ids plus the new id (to `[id]` after a malformed index), and leaves every other key unchanged |
| `PreferenceStore.OrphanedRecordNotLoaded` | frontend/web/src/App.tsx:180-201 | when the record write succeeds and a later step fails, the record is stored, the index entry is unchanged and no later load shows the record |
| `PreferenceStore.SubmitThenLoad` | frontend/web/src/App.tsx:196-209 | after a successful submit of a fresh id, and with the writes applied and no other writer in between, the loaded multiset is the previous one plus the new preference |
| `Client.Contract.SetData` | frontend/web/src/App.tsx:180-183 | a write either stores the value under its key or fails with the given message and changes nothing |
| `Client.App.constructor` | frontend/web/src/App.tsx:20-41 | the initial state: no account, no wallet, empty list, default draft, loading |
| `Client.App.Load` | frontend/web/src/App.tsx:84-143 | no contract, an unavailable contract or an unreadable index leaves the list unchanged; otherwise the list becomes the loadable records sorted newest first; the refreshing and loading flags end false; the list stays sorted |
| `Client.App.Submit` | frontend/web/src/App.tsx:145-238 | (through `SubmitOutcome`) account, wallet and draft are kept; without a wallet, only an alert and every other field unchanged; without a signer contract, the "Failed to get contract with signer" error; otherwise the store becomes the result of the record write, index re-read and index write, success reloads the list and clears the refreshing and loading flags, and failure shows the classified message; with a wallet, every failure keeps both flags as they were |
| `Client.WriteRecordAndIndex` | frontend/web/src/App.tsx:180-201 | the record write, the index re-read and the index write leave the store as the submit specification says and report its error |
| `Client.App.SubmitConnected` | frontend/web/src/App.tsx:151-165 | with a wallet: no signer contract gives the "Failed to get contract with signer" banner, no write, and unchanged refreshing and loading flags; otherwise the writes, banner, reload and flags of a submit |
| `Client.App.WriteAndConclude` | frontend/web/src/App.tsx:180-209 | the store ends as the submit's writes leave it; the banner, the list and the refreshing and loading flags follow their outcome (flags cleared after the reload, kept on failure) |
| `Client.App.Conclude` | frontend/web/src/App.tsx:203-231 | success shows the stored banner, reloads the list and ends with both refreshing and loading false; an error shows its classified message and keeps the list and both flags; the list stays sorted |
| `Client.App.HandleSubmit` | frontend/web/src/App.tsx:727-734 | an empty exhibit id shows an alert and changes nothing else; otherwise every outcome of `Submit` (its alert, banner, writes, reload and refreshing and loading flags) |

## Left out

- Wallet session handling (`onWalletSelect`, `onDisconnect`, the `accountsChanged` listener) is provider I/O. The model keeps only its result, the `account` and `connected` fields.
- `checkAvailability` is a liveness probe that only sets the banner.
- The contract binding's own calls are foreign. `getContractReadOnly` and `getContractWithSigner` become a possibly-null `Contract`. `getData` becomes a lookup in the store. `setData` is a write whose failure message is a parameter.
- JSON, UTF-8 and base64 encodings are opaque. A stored value is the kind of value it decodes to. The draft's `btoa(JSON.stringify(...))` text is the `encodedDraft` parameter; the model keeps only the `"FHE-"` prefix in front of it.
- Decoded values other than an id array or a record object are not modelled. These include a number, `null`, or a JSON string (which `for...of` would iterate character by character).
- PreferenceStore.RecordAt: a record key whose value decodes to an array is skipped. The source instead pushes a record whose fields are all undefined. This client's own writes produce that only for the id `keys`, which generated ids never equal; any other writer to the store could produce it for any id.
- PreferenceStore.Entry: a decoded record object is taken to be complete and well-typed. Anyone can write to the store, and the source does not validate what it reads. A record with a missing intensity or temperature lands in no bucket. A missing timestamp makes the sort comparator return NaN, so the list may not be sorted. A missing owner makes the owner filter throw.
- Client.Contract.SetData: a write is in the store as soon as the call returns. The source awaits only the sending of the transaction, not its inclusion in a block. So the index re-read and the reload may not yet see the writes. A transaction that reverts later is still reported as a success, with the index possibly updated and the record missing. `SubmitThenLoad` and the reload in `Client.App.Submit` hold only under this assumption.
- `Date.now`, `Math.random` and date formatting are not modelled. The id's clock reading, the record's clock reading and the random suffix are parameters, because the source reads the clock twice.
- PreferenceStore.OrphanedRecordNotLoaded: requires that the new id is not already in the index. The source relies on its random suffix for this and does not check it.
- PreferenceStore.SubmitThenLoad: requires that the new id is not already in the index. The source relies on its random suffix for this and does not check it.
- Client.App.Submit: the reload after a successful submit uses the same `Contract` object. The source fetches a new read-only binding over the same store.
- Floating-point chart percentages, JSX rendering, CSS and FAQ text are not modelled.
- The `setTimeout` transitions are not modelled: hiding the banner, closing the modal and resetting the draft after 2 s or 3 s.
- The lost-update race between two concurrent submits is not modelled. It comes from async interleaving, and this model is sequential.
- The form's field handlers (`handleChange`, `handleIntensityChange`, `handleTemperatureChange`) only copy input values into the draft. The draft's fields are taken as given.
- Dashboard.LowerCase: lower-cases ASCII letters only. JavaScript's `toLowerCase` also folds other Unicode letters; wallet addresses are hexadecimal.
- Messages.SubmitErrorMessage: takes the error's message as a string. A thrown value without a `message` makes the source's classification throw, which is not modelled.
- `Ordering.SortByTimestamp` returns a new sequence instead of sorting the local array in place. The array is local to the load and is never aliased.
