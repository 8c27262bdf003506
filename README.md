# Translation layer of the legislative tracker server

This project models the server's Chinese-to-English translation layer.
That layer is a resolver with tiers, a bounded cache with first-in-first-out
eviction, and four record rewriters. It proves what the layer promises
callers.

* **Resolver** (`Translate`). A text is handled by the first tier that applies:
  1. A blank or non-string value comes back unchanged.
  2. A hit in the static dictionary of known party, gender, status and yes/no
     values wins.
  3. Otherwise a cache hit is used.
  4. Otherwise a printable-ASCII text is treated as English and comes back
     unchanged.
  5. Anything left is *pending* and needs the external translation service.

  `TranslateText` sends one pending text. `TranslateBatch` sends every pending
  text of a list in a single request, in input order. It writes each reply
  element back into the slot it came from, and caches what it wrote. With no
  client configured, or when the call throws, both paths fail open: every
  pending text comes back as it was and the cache is not touched. Each method
  is proved equal to a specification function (`TextResult`/`TextCache`,
  `BatchResults`/`BatchCache`), and the lemmas are about those functions.
* **Cache** (`TranslationCache`). A JavaScript `Map` is modelled by the class
  `OrderedMap`: insertion order plus entries. The store step `Put` works like
  this:
  * If the map holds at least `cap` keys, it deletes the first key.
  * Then it sets the new key. A key that already exists keeps its place.

  `MAX_CACHE_SIZE` is 5000. The invariant is that the order lists each key
  exactly once and never has more than the capacity.
* **Static dictionary**. `StaticPairs` holds the 25 pairs the code lists, in
  order. `StaticGet` reads them the way `new Map(pairs)` does: the last pair
  with a key wins.
* **Record rewriters** (`TranslateFields`). Each record type has a *layout*:
  the ordered list of its scalar fields and its list fields, with the kind of
  each list. A single `Flatten` and a single `Rebuilt`, both driven by that
  layout, specify the batch of texts and the rebuilt record. Each of the four
  hand-written methods (`TranslateLegislator`, `TranslateBill`,
  `TranslateCommittee`, `TranslateInterpellation`) is proved to send exactly
  `Flatten`'s texts in one batch. It is also proved to write back exactly
  `Rebuilt`. So flatten order and rebuild order cannot drift apart. When a
  committee or attachment entry is `null` or `undefined`, the code throws a
  `TypeError` while it builds the batch. The model returns `ThrewTypeError`
  and proves that nothing changed.

The external service is the class `TranslateClient`. Its replies are
functions of the request, fixed when it is constructed. It keeps a ghost log
of the requests made. A `null` client stands for "no API key configured".

Behaviours of the code that the model keeps as they are:
* The dictionary holds exactly the 25 pairs the code lists.
* Re-setting a key that is already cached keeps its eviction position. A store
  at capacity still evicts the oldest key first, even when the key being
  stored is already present.
* The single-text path stores and returns whatever the service replied, even
  a falsy value. The batch path falls back to the original text for a falsy
  or missing reply element, and caches that fallback.
* The rewriters replace list fields with new arrays. They do not update them
  element by element. A non-string entry of a text list is kept but sends `''`
  to the batch.
* A committee entry that is not a string becomes `{...entry, name}`. An
  attachment always becomes `{...attachment, name}`, even when it had no name.
* The rewriters are not fail-open: building the batch can throw a `TypeError`.

## Model

| member | source | states |
|---|---|---|
| JsValues.WithName | server/lib/translateFields.js:56 | the object spread with `name` replaced: an object whose `name` is the new text and whose every other property is the entry's own property; an object entry gains only `name` |
| JsValues.JsObject.Set | server/lib/translateFields.js:47 | assigning a property changes that key and no other |
| TranslationCache.OrderedMap.Has | server/lib/translate.js:72 | `has` answers whether the key is stored |
| TranslationCache.OrderedMap.Get | server/lib/translate.js:72 | `get` returns the stored value, `undefined` for a missing key |
| TranslationCache.OrderedMap.Size | server/lib/translate.js:83 | `size` is both the number of entries and the length of the insertion order |
| TranslationCache.OrderedMap.FirstKey | server/lib/translate.js:84 | the first key of `keys()` is the oldest inserted key, and there is one exactly when the map is non-empty |
| TranslationCache.OrderedMap.Delete | server/lib/translate.js:85 | deleting removes the key from the entries and the order, keeps the rest in order and keeps the invariant |
| TranslationCache.OrderedMap.Set | server/lib/translate.js:87 | setting a new key appends it; setting an existing key keeps its position; the invariant holds |
| TranslationCache.WithoutMembers | server/lib/translate.js:85 | after a delete the order holds every other key and only those, and is no longer |
| TranslationCache.SizeIsCount | server/lib/translate.js:83 | in a well-formed cache, the number of entries equals the number of keys in the order |
| TranslationCache.PutEffect | server/lib/translate.js:83-87 | below capacity a store only appends or overwrites; at capacity it drops the oldest key first, then appends or overwrites |
| TranslationCache.PutBounded | server/lib/translate.js:83-87 | a store keeps the cache well formed and within capacity, and the key then maps to the stored value |
| TranslationCache.PutAllBounded | server/lib/translate.js:144-154 | every store of a batch keeps the cache well formed and within capacity |
| TranslationCache.PutAllKeeps | server/lib/translate.js:144-154 | with room for the whole batch, no earlier key is lost and every requested key is stored |
| TranslationCache.PutAllLast | server/lib/translate.js:144-154 | with room, a key holds the value of its last store in the batch |
| TranslationCache.PutAllFrame | server/lib/translate.js:144-154 | a batch of stores adds no key but its own: every key held afterwards was held before or was stored |
| TranslationCache.PutKeepsNewer | server/lib/translate.js:149-153 | one store keeps the stored key with its value, and never evicts a key newer than the ones held before the batch |
| TranslationCache.PutAllFresh | server/lib/translate.js:144-154 | a batch of at most capacity keys the cache did not hold keeps them all, even in a full cache: only keys held before the batch are evicted |
| TranslationCache.PutAllFreshLast | server/lib/translate.js:144-154 | in such a batch, even in a full cache, a key holds the value of its last store |
| TranslationCache.FillOrder | server/lib/translate.js:149-153 | filling an empty cache with distinct keys leaves them in insertion order and holds exactly those keys |
| TranslationCache.FillKeepsValues | server/lib/translate.js:149-153 | filling an empty cache with distinct keys keeps each key with its own value |
| TranslationCache.OverflowEvictsFirst | server/lib/translate.js:83-87 | storing capacity+1 distinct keys into an empty cache evicts exactly the first and keeps the others with their values |
| TranslationCache.CapacityTwoExample | server/lib/translate.js:149-153 | at capacity 2, storing a, b, c drops a and keeps b and c |
| Translate.FindLastNone | server/lib/translate.js:4-43 | the dictionary lacks a key exactly when no pair has that key |
| Translate.FindLastWitness | server/lib/translate.js:4-43 | a found value comes from a pair with that key, and no later pair has the key |
| Translate.FindLastAt | server/lib/translate.js:4-43 | the last pair with a key gives that key's value |
| Translate.FindLastAbsent | server/lib/translate.js:4-43 | a key that no pair has is not found |
| Translate.TrimStartSpec | server/lib/translate.js:65 | trimming the start drops only leading white space and stops at the first other character |
| Translate.TrimEndSpec | server/lib/translate.js:65 | trimming the end drops only trailing white space and stops at the last other character |
| Translate.TrimSpec | server/lib/translate.js:65-66 | `trim()` is empty exactly when the text is all white space; otherwise it starts and ends with non-space |
| Translate.TierPrecedence | server/lib/translate.js:107-125 | each tier applies exactly when every earlier tier does not: blank, then dictionary, then cache, then ASCII, else pending |
| Translate.TranslateClient.TranslateString | server/lib/translate.js:81 | a single-text call returns the service's reply to the trimmed text and logs that one request |
| Translate.TranslateClient.TranslateList | server/lib/translate.js:141 | a list call returns the service's reply to the whole request and logs that one request |
| Translate.StoreWithEviction | server/lib/translate.js:83-87 | the evict-then-set step: the cache becomes `Put` of the old cache and stays within 5000 |
| Translate.TranslateText | server/lib/translate.js:62-93 | the result, the new cache and the request log are those of the single-text path; a service call happens only for a pending text |
| Translate.ResolveLocally | server/lib/translate.js:107-125 | one loop step: pending exactly when no local tier applies, with the trimmed text as its key; otherwise the local value |
| Translate.ScanTexts | server/lib/translate.js:103-126 | the first loop fills every local slot, and collects the pending texts with their indices in input order |
| Translate.PendingShape | server/lib/translate.js:122-125 | the pending indices are strictly increasing, match the request one to one, and each names a pending text whose trimmed form is the request element |
| Translate.PendingPrefix | server/lib/translate.js:122-125 | the pending list only grows as the loop advances |
| Translate.RestoreOriginals | server/lib/translate.js:158-160 | every pending slot gets its original text back and no other slot changes |
| Translate.StoreTranslations | server/lib/translate.js:144-154 | each pending slot gets its reply element or the original; the cache receives the same values in request order and stays within 5000 |
| Translate.TranslateBatch | server/lib/translate.js:99-164 | the results, the new cache and the request log are those of the batch specification: at most one request, carrying exactly the pending texts |
| Translate.BatchResults | server/lib/translate.js:99-164 | the result has as many slots as the input |
| Translate.BatchCache | server/lib/translate.js:149-153 | a batch keeps the cache well formed and within 5000 |
| Translate.TextCache | server/lib/translate.js:83-87 | the single-text path keeps the cache well formed and within 5000 |
| Translate.BatchSlot | server/lib/translate.js:107-146 | positional correspondence: a local slot holds its local value; a pending slot's request position carries its trimmed text and the slot holds what the reply gave there |
| Translate.PendingRank | server/lib/translate.js:123-124 | a pending slot's request position maps back to that slot |
| Translate.StaticWins | server/lib/translate.js:116-117 | a dictionary hit gives the dictionary value in both paths, whatever the cache or the service says |
| Translate.BlankPassthrough | server/lib/translate.js:109-112 | an empty, blank or non-string value comes back unchanged in both paths |
| Translate.AsciiPassthrough | server/lib/translate.js:120-121 | an ASCII text missed by dictionary and cache comes back unchanged on both paths, is never requested, and neither path caches it |
| Translate.StaticNotAscii | server/lib/translate.js:4-43 | no dictionary key is all ASCII |
| Translate.BatchKeepsPendingKeys | server/lib/translate.js:144-154 | a batch stores only texts that were pending, so the cache holds neither dictionary keys nor ASCII texts afterwards if it held none before |
| Translate.TextKeepsPendingKeys | server/lib/translate.js:69-87 | the single-text path stores only a pending text, so it keeps the same cache invariant |
| Translate.AsciiNeverPending | server/lib/translate.js:109-125 | in any cache filled only by the two paths, an all-ASCII text is never pending: it comes back untrimmed on both paths, is never requested and is never cached |
| Translate.AsciiTier | server/lib/translate.js:120-121 | such a text falls in the ASCII tier |
| Translate.AsciiSlot | server/lib/translate.js:120-121 | an ASCII-tier text comes back unchanged in both paths and is not in the request |
| Translate.NotPendingNotRequested | server/lib/translate.js:107-126 | a slot resolved locally is never part of the request |
| Translate.LocalAgrees | server/lib/translate.js:62-126 | for any text not pending, the batch path and the single-text path give the same result |
| Translate.ReplyFallback | server/lib/translate.js:145 | a pending slot holds its reply element when that is truthy, and its original text when the element is missing or falsy |
| Translate.NothingPending | server/lib/translate.js:129 | with nothing pending the batch returns its local values and leaves the cache alone |
| Translate.FailOpen | server/lib/translate.js:131-161 | no client and a failed call give the same results; every pending slot keeps its original text and the cache is unchanged |
| Translate.TextFailOpen | server/lib/translate.js:77-92 | the single-text path also returns the original text and leaves the cache unchanged with no client or a failed call |
| Translate.TextTwice | server/lib/translate.js:72-87 | after a successful single-text call the text is a cache hit, and a second call returns the same translation with no service call |
| Translate.NoPendingNoRequest | server/lib/translate.js:129 | when no slot is pending the request is empty |
| Translate.TierAfterGrowth | server/lib/translate.js:118-119 | a text resolved locally stays resolved once the cache has gained keys |
| Translate.BatchStoresRequest | server/lib/translate.js:144-154 | with room, a successful batch keeps every earlier key and caches every requested text |
| Translate.SecondBatchIsLocal | server/lib/translate.js:118-154 | with room, repeating a successful batch needs no request |
| Translate.CachedAsReturned | server/lib/translate.js:145-153 | a pending text is cached with exactly the value returned in its slot, the original-text fallback included, even into a full cache, unless a later slot repeats it or the request is longer than the capacity |
| Translate.BatchCacheKeys | server/lib/translate.js:144-154 | a batch caches nothing but its request's texts |
| Translate.RequestIsNew | server/lib/translate.js:118-124 | no text of a request is already cached |
| Translate.BatchCachesRequest | server/lib/translate.js:144-154 | after a reply, a request no longer than the capacity is cached whole, even into a full cache |
| Translate.MixedBatchScan | server/lib/translate.js:107-126 | for `["", 民主進步黨, "Hello", 新詞]` only the last slot is pending and the request is `[新詞]` |
| Translate.MixedBatchResults | server/lib/translate.js:99-164 | that batch gives `["", "Democratic Progressive Party", "Hello", "New Word"]` |
| Translate.MixedBatchCache | server/lib/translate.js:144-154 | that batch leaves only 新詞 → "New Word" in an empty cache |
| Translate.OnePendingResults | server/lib/translate.js:144-146 | with exactly one pending slot the results are the local values with that slot filled from reply element 0 |
| Translate.OnePendingCache | server/lib/translate.js:144-154 | with exactly one pending slot and a reply, the cache gains just that one store |
| Translate.FourSlotScan | server/lib/translate.js:107-126 | a blank, a dictionary, an ASCII and a pending slot: only the last is requested and the others resolve locally |
| Translate.TrimmedAlready | server/lib/translate.js:65 | a text with no space at either end trims to itself |
| Translate.TierOfTrimmed | server/lib/translate.js:107-125 | the tier of an already trimmed text, by dictionary, cache and ASCII |
| Translate.PartyTier | server/lib/translate.js:6 | 民主進步黨 resolves from the dictionary to "Democratic Progressive Party" |
| Translate.HelloTier | server/lib/translate.js:120-121 | "Hello" falls in the ASCII tier |
| Translate.NewWordTier | server/lib/translate.js:122-125 | 新詞 is pending, keyed by itself |
| TranslateFields.FieldTexts | server/lib/translateFields.js:16-35 | each field contributes as many batch texts as the slots it occupies |
| TranslateFields.FlattenLength | server/lib/translateFields.js:37-42 | the flattened batch is exactly as long as the slots of all fields together |
| TranslateFields.FlattenDefined | server/lib/translateFields.js:17-19 | building the batch throws exactly when some field's texts throw |
| TranslateFields.NeverThrows | server/lib/translateFields.js:22-35 | a record type with only scalars and text lists always builds its batch |
| TranslateFields.NeverThrowsWithoutCommittees | server/lib/translateFields.js:16-19 | a legislator whose `committees` is not an array never throws |
| TranslateFields.FlattenSlot | server/lib/translateFields.js:37-42 | a field's m-th text sits at the field's start slot plus m |
| TranslateFields.RebuildOutside | server/lib/translateFields.js:46-79 | a property outside the layout keeps its presence and value |
| TranslateFields.RebuildField | server/lib/translateFields.js:46-77 | each field of the layout ends with the value written from its own slots, and is present when written or already present |
| TranslateFields.BeforeScalars | server/lib/translateFields.js:46-50 | after n scalar fields the cursor is n |
| TranslateFields.ScalarSlot | server/lib/translateFields.js:46-50 | a scalar is read into slot s and is set to element s of the translations |
| TranslateFields.ListTextSlot | server/lib/translateFields.js:16-42 | the i-th entry of a list field sends its text to the list's start slot plus i |
| TranslateFields.ListEntrySlot | server/lib/translateFields.js:52-58 | a non-empty list becomes an array of the same length whose i-th entry is rebuilt from the list's start slot plus i |
| TranslateFields.EmptyListUntouched | server/lib/translateFields.js:53 | a list field with no entries uses no slot and keeps its value |
| TranslateFields.WrappedScalar | server/lib/translateFields.js:22-26 | a truthy non-array education-like value becomes a one-element array |
| TranslateFields.OutsideUntouched | server/lib/translateFields.js:46-79 | properties not named in the layout are left as they were |
| TranslateFields.RestorableEntry | server/lib/translateFields.js:17-66 | rebuilding an entry from its own batch text gives it back exactly when it is a string, or an object whose name is truthy or `''` |
| TranslateFields.IdentityScalar | server/lib/translateFields.js:46-50 | translating every text to itself leaves each scalar field's value unchanged |
| TranslateFields.IdentityEntry | server/lib/translateFields.js:52-77 | under the identity translation a restorable entry comes back unchanged |
| TranslateFields.IdentityList | server/lib/translateFields.js:61-68 | under the identity translation an array of restorable entries comes back unchanged |
| TranslateFields.IdentityKey | server/lib/translateFields.js:46-79 | under the identity translation each property of a record whose fields are all restorable keeps its presence and value |
| TranslateFields.IdentityRecord | server/lib/translateFields.js:6-80 | the record round trip: when every scalar is present and every list is empty or an array of restorable entries, rebuilding from the record's own texts gives the record back exactly |
| TranslateFields.NonStringEntryKept | server/lib/translateFields.js:63-66 | a non-string entry of a text list sends `''` and is kept as it was |
| TranslateFields.CommitteeEntryRenamed | server/lib/translateFields.js:54-57 | a non-string committee i becomes `{...entry, name}` with `name` from slot 4 + i, so it keeps every own property of the entry and gains only `name` |
| TranslateFields.AttachmentRenamed | server/lib/translateFields.js:128-134 | attachment i becomes `{...attachment, name}` with `name` from the slot after the six scalars and all law names |
| TranslateFields.AttachmentWithoutName | server/lib/translateFields.js:105-132 | an attachment without a truthy name gains `name: ''` even when nothing is translated |
| TranslateFields.CommitteeWriteBack | server/lib/translateFields.js:143-148 | a committee's name, responsibilities and category take slots 0, 1 and 2; id and categoryId are untouched |
| TranslateFields.KuomintangExample | server/lib/translateFields.js:44-47 | a legislator with party 中國國民黨 gets party "Kuomintang (KMT)" from an empty cache with no client |
| TranslateFields.KuomintangResolves | server/lib/translate.js:7 | a batch starting with 中國國民黨 resolves that slot to "Kuomintang (KMT)" |
| TranslateFields.WriteBackLegislator | server/lib/translateFields.js:46-77 | the cursor-driven write-back produces exactly the layout's rebuilt record |
| TranslateFields.TranslateLegislator | server/lib/translateFields.js:6-80 | throws with nothing changed when an entry is nullish; otherwise one batch of the flattened texts, the record rebuilt from its results, and the cache and request log of that batch |
| TranslateFields.WriteBackBill | server/lib/translateFields.js:110-134 | the cursor-driven write-back produces exactly the layout's rebuilt record |
| TranslateFields.TranslateBill | server/lib/translateFields.js:85-137 | throws with nothing changed when an attachment is nullish; otherwise one batch of the flattened texts and the rebuilt record |
| TranslateFields.TranslateCommittee | server/lib/translateFields.js:142-151 | never throws; one batch of three texts and the rebuilt record |
| TranslateFields.WriteBackInterpellation | server/lib/translateFields.js:170-181 | the cursor-driven write-back produces exactly the layout's rebuilt record |
| TranslateFields.TranslateInterpellation | server/lib/translateFields.js:156-184 | never throws; one batch of the flattened texts and the rebuilt record |

## Left out

- `getClient` (server/lib/translate.js:49-56): the environment-variable check and the lazy construction of the client are not modelled. The client is a parameter, and `null` means no key is configured.
- `async`/`await`: each operation is modelled as one atomic step. Interleaving of concurrent calls on the shared cache is not modelled.
- The language tags (`zh-TW`, `en`) sent to the service, and the `console.error` logging on failure.
- A non-array argument to `translateBatch` (server/lib/translate.js:100): every caller passes an array. An empty array gives an empty result.
- Numbers are modelled as mathematical reals, so NaN and other floating-point behaviour are not modelled. They matter only for truthiness.
- Strings are sequences of Dafny characters, not UTF-16 code units. The ASCII test and the white-space set of `trim()` are checked per character.
- The property order of plain objects is not modelled: records are maps. The insertion order of the cache is modelled.
- Exceptions carry no details: a failed service call is the reply `Threw`, and a rewriter that throws returns `ThrewTypeError`.
- The module-level cache and client are passed to every operation explicitly.
- A read of `translated[idx]` past the end of the array is modelled as `undefined`. That read never happens: the batch result is as long as the flattened texts (`FlattenLength`, `BatchResults`).
- Each rewriter builds its batch with the shared `Flatten` function over the record's layout, not with a loop of its own. The write-back is imperative, as in the code.
