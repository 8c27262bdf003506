/**
 * The text resolver: a static dictionary, the bounded cache, an ASCII
 * passthrough and one external translation call, combined into a
 * single-text path (`translateText`) and a batch path (`translateBatch`).
 * Both fail open: without a client, or when the call throws, the original
 * text comes back.
 */
module Translate {
  import opened JsValues
  import opened TranslationCache

  /**
   * The pairs the static dictionary is built from, in source order: parties,
   * bill statuses, bill categories, bill sources, gender, committee
   * categories, yes/no.
   */
  const StaticPairs: seq<(string, string)> := [
    ("民主進步黨", "Democratic Progressive Party"),
    ("中國國民黨", "Kuomintang (KMT)"),
    ("台灣民眾黨", "Taiwan People's Party"),
    ("時代力量", "New Power Party"),
    ("無黨籍", "Independent"),
    ("排入院會", "Scheduled for Plenary"),
    ("審查完畢", "Review Complete"),
    ("三讀", "Third Reading (Passed)"),
    ("交付審查", "Referred for Review"),
    ("不予審議", "Not Reviewed"),
    ("退回程序", "Returned"),
    ("撤回", "Withdrawn"),
    ("法律案", "Legislation"),
    ("預算案", "Budget"),
    ("決議案", "Resolution"),
    ("其他", "Other"),
    ("政府提案", "Government Proposal"),
    ("委員提案", "Legislator Proposal"),
    ("男", "Male"),
    ("女", "Female"),
    ("國會改革前舊委員會名稱", "Pre-Reform Committee"),
    ("常設委員會", "Standing Committee"),
    ("特種委員會", "Special Committee"),
    ("是", "Yes"),
    ("否", "No")
  ]

  /** The value of the last pair whose key is `key`, as a `Map` built from `pairs` holds it. */
  function FindLast(pairs: seq<(string, string)>, key: string): Option<string> {
    if pairs == [] then None
    else if pairs[|pairs| - 1].0 == key then Some(pairs[|pairs| - 1].1)
    else FindLast(pairs[..|pairs| - 1], key)
  }

  /** `staticMap.get(key)`, `None` where `staticMap.has(key)` is false. */
  function StaticGet(key: string): Option<string> {
    FindLast(StaticPairs, key)
  }

  /** No dictionary key is all ASCII: every one starts with a CJK character. */
  lemma StaticNotAscii(key: string)
    ensures IsAscii(key) ==> StaticGet(key).None?
  {
    if StaticGet(key).Some? {
      FindLastNone(StaticPairs, key);
      var i :| 0 <= i < |StaticPairs| && StaticPairs[i].0 == key;
      assert forall j :: 0 <= j < |StaticPairs| ==> |StaticPairs[j].0| > 0 && StaticPairs[j].0[0] as int >= 0x80;
      assert key[0] as int >= 0x80;
    }
  }

  /** A `Map` built from a list of pairs lacks a key exactly when no pair has it. */
  lemma {:induction false} FindLastNone(pairs: seq<(string, string)>, key: string)
    ensures FindLast(pairs, key).None? <==> forall i :: 0 <= i < |pairs| ==> pairs[i].0 != key
  {
    if pairs != [] {
      var init := pairs[..|pairs| - 1];
      FindLastNone(init, key);
      if pairs[|pairs| - 1].0 != key && FindLast(init, key).None? {
        forall i | 0 <= i < |pairs|
          ensures pairs[i].0 != key
        {
          if i < |init| {
            assert pairs[i] == init[i];
          }
        }
      }
    }
  }

  /** A key the `Map` holds comes with the last pair that has it, and the value is that pair's. */
  lemma {:induction false} FindLastWitness(pairs: seq<(string, string)>, key: string) returns (i: nat)
    requires FindLast(pairs, key).Some?
    ensures i < |pairs| && pairs[i] == (key, FindLast(pairs, key).value)
    ensures forall j :: i < j < |pairs| ==> pairs[j].0 != key
  {
    if pairs[|pairs| - 1].0 == key {
      i := |pairs| - 1;
    } else {
      var init := pairs[..|pairs| - 1];
      i := FindLastWitness(init, key);
      assert pairs[i] == init[i];
      forall j | i < j < |pairs|
        ensures pairs[j].0 != key
      {
        if j < |init| {
          assert pairs[j] == init[j];
        }
      }
    }
  }

  /** The pair at `i` is the last with its key, so its value is found. */
  lemma {:induction false} FindLastAt(pairs: seq<(string, string)>, key: string, i: nat)
    requires i < |pairs| && pairs[i].0 == key
    requires forall j :: i < j < |pairs| ==> pairs[j].0 != key
    ensures FindLast(pairs, key) == Some(pairs[i].1)
  {
    if i < |pairs| - 1 {
      FindLastAt(pairs[..|pairs| - 1], key, i);
    }
  }

  /** No pair has the key, so it is not found. */
  lemma {:induction false} FindLastAbsent(pairs: seq<(string, string)>, key: string)
    requires forall j :: 0 <= j < |pairs| ==> pairs[j].0 != key
    ensures FindLast(pairs, key) == None
  {
    if pairs != [] {
      FindLastAbsent(pairs[..|pairs| - 1], key);
    }
  }

  // ---------------------------------------------------------------------
  // String helpers
  // ---------------------------------------------------------------------

  /** The code points of ECMAScript WhiteSpace and LineTerminator: what `String.prototype.trim` strips. */
  const JsSpaces: set<int> := {
    0x09, 0x0A, 0x0B, 0x0C, 0x0D, 0x20, 0xA0, 0x1680,
    0x2000, 0x2001, 0x2002, 0x2003, 0x2004, 0x2005, 0x2006, 0x2007, 0x2008, 0x2009, 0x200A,
    0x2028, 0x2029, 0x202F, 0x205F, 0x3000, 0xFEFF
  }

  predicate IsJsSpace(c: char) {
    c as int in JsSpaces
  }

  /** `s` without its leading white space. */
  function TrimStart(s: string): string {
    if s != [] && IsJsSpace(s[0]) then TrimStart(s[1..]) else s
  }

  /** `s` without its trailing white space. */
  function TrimEnd(s: string): string {
    if s != [] && IsJsSpace(s[|s| - 1]) then TrimEnd(s[..|s| - 1]) else s
  }

  /** `s.trim()` */
  function Trim(s: string): string {
    TrimEnd(TrimStart(s))
  }

  /** Trimming the start drops a run of white space and stops at the first other character. */
  lemma {:induction false} TrimStartSpec(s: string)
    ensures var r := TrimStart(s);
      && |r| <= |s| && r == s[|s| - |r|..]
      && (forall i :: 0 <= i < |s| - |r| ==> IsJsSpace(s[i]))
      && (r != [] ==> !IsJsSpace(r[0]))
  {
    if s != [] && IsJsSpace(s[0]) {
      TrimStartSpec(s[1..]);
    }
  }

  /** Trimming the end drops a run of white space and stops at the last other character. */
  lemma {:induction false} TrimEndSpec(s: string)
    ensures var r := TrimEnd(s);
      && |r| <= |s| && r == s[..|r|]
      && (forall i :: |r| <= i < |s| ==> IsJsSpace(s[i]))
      && (r != [] ==> !IsJsSpace(r[|r| - 1]))
  {
    if s != [] && IsJsSpace(s[|s| - 1]) {
      TrimEndSpec(s[..|s| - 1]);
    }
  }

  /**
   * `s.trim()` is `s` without its leading and trailing white space: it is
   * empty exactly when `s` is all white space, and otherwise it starts and
   * ends with a character that is not.
   */
  lemma TrimSpec(s: string)
    ensures var r := Trim(s);
      && (r == [] <==> forall i :: 0 <= i < |s| ==> IsJsSpace(s[i]))
      && (r != [] ==> !IsJsSpace(r[0]) && !IsJsSpace(r[|r| - 1]))
      && |r| <= |s|
  {
    var head := TrimStart(s);
    TrimStartSpec(s);
    TrimEndSpec(head);
    var r := TrimEnd(head);
    assert r == [] ==> head == [];
    assert r != [] ==> r[0] == head[0];
  }

  /** `/^[\x00-\x7F]*$/.test(s)`: every character is ASCII. */
  predicate IsAscii(s: string) {
    forall i :: 0 <= i < |s| ==> s[i] as int < 0x80
  }

  // ---------------------------------------------------------------------
  // Resolution tiers
  // ---------------------------------------------------------------------

  /** `!text || typeof text !== 'string' || !text.trim()` */
  predicate IsBlank(text: Value) {
    !Truthy(text) || !text.Str? || Trim(text.s) == ""
  }

  /** Which check resolves a text; `Pending` texts need the external call. */
  datatype Tier =
    | Blank
    | Static(english: string)
    | Cached(hit: Value)
    | Ascii
    | Pending(key: string)

  /** The trimmed text used as dictionary and cache key. */
  function KeyOf(text: Value): string {
    if text.Str? then Trim(text.s) else ""
  }

  /** The checks in the order both paths make them: blank, static dictionary, cache, ASCII. */
  function TierOf(text: Value, entries: map<string, Value>): (t: Tier)
    ensures t.Pending? ==> text.Str? && t.key == KeyOf(text)
  {
    if IsBlank(text) then Blank
    else
      var key := Trim(text.s);
      if StaticGet(key).Some? then Static(StaticGet(key).value)
      else if key in entries then Cached(entries[key])
      else if IsAscii(key) then Ascii
      else Pending(key)
  }

  /**
   * The tiers in order of precedence: a blank text is never looked up; a
   * dictionary hit wins whatever the cache holds; the cache is consulted
   * before the ASCII test; only what all four miss is pending.
   */
  lemma TierPrecedence(text: Value, entries: map<string, Value>)
    ensures var t := TierOf(text, entries);
      && (t.Blank? <==> IsBlank(text))
      && (t.Static? <==> !IsBlank(text) && StaticGet(KeyOf(text)).Some?)
      && (t.Static? ==> t.english == StaticGet(KeyOf(text)).value)
      && (t.Cached? <==> !IsBlank(text) && StaticGet(KeyOf(text)).None? && KeyOf(text) in entries)
      && (t.Cached? ==> t.hit == entries[KeyOf(text)])
      && (t.Ascii? <==> !IsBlank(text) && StaticGet(KeyOf(text)).None? && KeyOf(text) !in entries && IsAscii(KeyOf(text)))
      && (t.Pending? <==> !IsBlank(text) && StaticGet(KeyOf(text)).None? && KeyOf(text) !in entries && !IsAscii(KeyOf(text)))
  {
  }

  /**
   * What the first loop of the batch path leaves in a slot. A dictionary or
   * cache hit gives the stored value; a blank or ASCII text is returned
   * untrimmed; a pending slot is still a hole.
   */
  function Local(text: Value, entries: map<string, Value>): Value {
    match TierOf(text, entries)
    case Blank => text
    case Static(english) => Str(english)
    case Cached(hit) => hit
    case Ascii => text
    case Pending(_) => Undefined
  }

  function Locals(texts: seq<Value>, entries: map<string, Value>): seq<Value> {
    seq(|texts|, i requires 0 <= i < |texts| => Local(texts[i], entries))
  }

  /** `apiIndices` after the first loop has seen `texts[..n]`. */
  function PendingIndices(texts: seq<Value>, entries: map<string, Value>, n: nat): seq<nat>
    requires n <= |texts|
  {
    if n == 0 then []
    else PendingIndices(texts, entries, n - 1) + (if TierOf(texts[n - 1], entries).Pending? then [n - 1] else [])
  }

  /** `apiTexts` after the first loop has seen `texts[..n]`. */
  function PendingKeys(texts: seq<Value>, entries: map<string, Value>, n: nat): seq<string>
    requires n <= |texts|
  {
    if n == 0 then []
    else
      var t := TierOf(texts[n - 1], entries);
      PendingKeys(texts, entries, n - 1) + (if t.Pending? then [t.key] else [])
  }

  /** The texts of the one external call a batch makes, if it makes one. */
  function ApiRequest(texts: seq<Value>, entries: map<string, Value>): seq<string> {
    PendingKeys(texts, entries, |texts|)
  }

  /** How many slots before `i` are pending: the position of slot `i` in the request. */
  function Rank(texts: seq<Value>, entries: map<string, Value>, i: nat): nat
    requires i <= |texts|
  {
    |PendingIndices(texts, entries, i)|
  }

  lemma {:induction false} PendingLength(texts: seq<Value>, entries: map<string, Value>, n: nat)
    requires n <= |texts|
    ensures |PendingKeys(texts, entries, n)| == |PendingIndices(texts, entries, n)|
  {
    if n > 0 {
      PendingLength(texts, entries, n - 1);
    }
  }

  /** Every pending index is below `n` and names a pending slot, whose trimmed text is the request text at the same position. */
  lemma {:induction false} PendingMembers(texts: seq<Value>, entries: map<string, Value>, n: nat)
    requires n <= |texts|
    ensures |PendingKeys(texts, entries, n)| == |PendingIndices(texts, entries, n)|
    ensures forall j :: 0 <= j < |PendingIndices(texts, entries, n)| ==>
      && PendingIndices(texts, entries, n)[j] < n
      && TierOf(texts[PendingIndices(texts, entries, n)[j]], entries).Pending?
      && PendingKeys(texts, entries, n)[j] == KeyOf(texts[PendingIndices(texts, entries, n)[j]])
  {
    PendingLength(texts, entries, n);
    if n > 0 {
      PendingMembers(texts, entries, n - 1);
      var prev := PendingIndices(texts, entries, n - 1);
      var idxs := PendingIndices(texts, entries, n);
      var keys := PendingKeys(texts, entries, n);
      forall j | 0 <= j < |idxs|
        ensures idxs[j] < n && TierOf(texts[idxs[j]], entries).Pending? && keys[j] == KeyOf(texts[idxs[j]])
      {
        if j < |prev| {
          assert idxs[j] == prev[j];
          assert keys[j] == PendingKeys(texts, entries, n - 1)[j];
        }
      }
    }
  }

  /** The pending indices come in increasing order. */
  lemma {:induction false} PendingIncreasing(texts: seq<Value>, entries: map<string, Value>, n: nat)
    requires n <= |texts|
    ensures forall a, b :: 0 <= a < b < |PendingIndices(texts, entries, n)| ==>
      PendingIndices(texts, entries, n)[a] < PendingIndices(texts, entries, n)[b]
  {
    if n > 0 {
      PendingIncreasing(texts, entries, n - 1);
      PendingMembers(texts, entries, n - 1);
      var prev := PendingIndices(texts, entries, n - 1);
      var idxs := PendingIndices(texts, entries, n);
      forall a, b | 0 <= a < b < |idxs|
        ensures idxs[a] < idxs[b]
      {
        assert idxs[a] == prev[a];
        if b < |prev| {
          assert idxs[b] == prev[b];
        } else {
          assert prev[a] < n - 1;
        }
      }
    }
  }

  /** The pending slots, in increasing order, each with its request text. */
  lemma PendingShape(texts: seq<Value>, entries: map<string, Value>, n: nat)
    requires n <= |texts|
    ensures |PendingKeys(texts, entries, n)| == |PendingIndices(texts, entries, n)|
    ensures forall j :: 0 <= j < |PendingIndices(texts, entries, n)| ==>
      && PendingIndices(texts, entries, n)[j] < n
      && TierOf(texts[PendingIndices(texts, entries, n)[j]], entries).Pending?
      && PendingKeys(texts, entries, n)[j] == KeyOf(texts[PendingIndices(texts, entries, n)[j]])
    ensures forall a, b :: 0 <= a < b < |PendingIndices(texts, entries, n)| ==>
      PendingIndices(texts, entries, n)[a] < PendingIndices(texts, entries, n)[b]
  {
    PendingMembers(texts, entries, n);
    PendingIncreasing(texts, entries, n);
  }

  /** The pending indices of a prefix are a prefix of the pending indices. */
  lemma {:induction false} PendingPrefix(texts: seq<Value>, entries: map<string, Value>, m: nat, n: nat)
    requires m <= n <= |texts|
    ensures var short := PendingIndices(texts, entries, m);
      |short| <= |PendingIndices(texts, entries, n)| && PendingIndices(texts, entries, n)[..|short|] == short
  {
    if m < n {
      PendingPrefix(texts, entries, m, n - 1);
    }
  }

  // ---------------------------------------------------------------------
  // The external call and the patched result
  // ---------------------------------------------------------------------

  /** What `client.translate(...)` gave: the destructured `translations`, or an exception. */
  datatype Reply = Replied(translations: Value) | Threw

  /** `Array.isArray(translations) ? translations : [translations]` */
  function Items(v: Value): seq<Value> {
    if v.Arr? then v.items else [v]
  }

  /**
   * The value the batch path puts in the `j`-th pending slot, whose text is
   * `original`: `translatedArray[j] || original` after a reply, and the
   * original text with no client (`None`) or after an exception.
   */
  function Fill(resp: Option<Reply>, j: nat, original: Value): Value {
    match resp
    case None => original
    case Some(Threw) => original
    case Some(Replied(translations)) =>
      var arr := Items(translations);
      if j < |arr| && Truthy(arr[j]) then arr[j] else original
  }

  function Fills(texts: seq<Value>, idxs: seq<nat>, resp: Option<Reply>): seq<Value>
    requires forall j :: 0 <= j < |idxs| ==> idxs[j] < |texts|
  {
    seq(|idxs|, j requires 0 <= j < |idxs| => Fill(resp, j, texts[idxs[j]]))
  }

  /** `base` after `results[idxs[j]] = vals[j]` for j < n. */
  function Patched(base: seq<Value>, idxs: seq<nat>, vals: seq<Value>, n: nat): (r: seq<Value>)
    requires n <= |idxs| && n <= |vals|
    requires forall j :: 0 <= j < |idxs| ==> idxs[j] < |base|
    ensures |r| == |base|
  {
    if n == 0 then base else Patched(base, idxs, vals, n - 1)[idxs[n - 1] := vals[n - 1]]
  }

  lemma {:induction false} PatchedAt(base: seq<Value>, idxs: seq<nat>, vals: seq<Value>, n: nat, i: nat)
    requires n <= |idxs| && n <= |vals|
    requires forall j :: 0 <= j < |idxs| ==> idxs[j] < |base|
    requires forall a, b :: 0 <= a < b < |idxs| ==> idxs[a] < idxs[b]
    requires i < |base|
    ensures (forall j :: 0 <= j < n ==> idxs[j] != i) ==> Patched(base, idxs, vals, n)[i] == base[i]
    ensures forall j :: 0 <= j < n && idxs[j] == i ==> Patched(base, idxs, vals, n)[i] == vals[j]
  {
    if n > 0 {
      PatchedAt(base, idxs, vals, n - 1, i);
    }
  }

  /** The array `translateBatch` returns. */
  function BatchResults(texts: seq<Value>, entries: map<string, Value>, resp: Option<Reply>): (r: seq<Value>)
    ensures |r| == |texts|
  {
    var idxs := PendingIndices(texts, entries, |texts|);
    PendingShape(texts, entries, |texts|);
    Patched(Locals(texts, entries), idxs, Fills(texts, idxs, resp), |idxs|)
  }

  /** The cache after `translateBatch`: every pending text stored, in request order, only after a reply. */
  function BatchCache(c: CacheState, texts: seq<Value>, resp: Option<Reply>): (r: CacheState)
    ensures Bounded(c, MAX_CACHE_SIZE) ==> Bounded(r, MAX_CACHE_SIZE)
  {
    var idxs := PendingIndices(texts, c.entries, |texts|);
    PendingShape(texts, c.entries, |texts|);
    if resp.Some? && resp.value.Replied? then
      var r := PutAll(c, MAX_CACHE_SIZE, ApiRequest(texts, c.entries), Fills(texts, idxs, resp), |idxs|);
      assert Bounded(c, MAX_CACHE_SIZE) ==> Bounded(r, MAX_CACHE_SIZE) by {
        if Bounded(c, MAX_CACHE_SIZE) {
          PutAllBounded(c, MAX_CACHE_SIZE, ApiRequest(texts, c.entries), Fills(texts, idxs, resp), |idxs|);
        }
      }
      r
    else c
  }

  /** The value `translateText` returns. */
  function TextResult(text: Value, entries: map<string, Value>, resp: Option<Reply>): Value {
    if TierOf(text, entries).Pending? then
      if resp.Some? && resp.value.Replied? then resp.value.translations else text
    else Local(text, entries)
  }

  /** The cache after `translateText`: a pending text is stored only after a reply, with whatever came back. */
  function TextCache(c: CacheState, text: Value, resp: Option<Reply>): (r: CacheState)
    ensures Bounded(c, MAX_CACHE_SIZE) ==> Bounded(r, MAX_CACHE_SIZE)
  {
    var t := TierOf(text, c.entries);
    if t.Pending? && resp.Some? && resp.value.Replied? then
      var r := Put(c, MAX_CACHE_SIZE, t.key, resp.value.translations);
      assert Bounded(c, MAX_CACHE_SIZE) ==> Bounded(r, MAX_CACHE_SIZE) by {
        if Bounded(c, MAX_CACHE_SIZE) {
          PutBounded(c, MAX_CACHE_SIZE, t.key, resp.value.translations);
        }
      }
      r
    else c
  }

  // ---------------------------------------------------------------------
  // The external client
  // ---------------------------------------------------------------------

  datatype ApiCall = TranslateOne(text: string) | TranslateMany(texts: seq<string>)

  /**
   * The external translation service, seen as an oracle: a fixed reply for
   * each request. `requests` records every call made to it.
   */
  class TranslateClient {
    const one: string -> Reply
    const many: seq<string> -> Reply
    ghost var requests: seq<ApiCall>

    constructor (one: string -> Reply, many: seq<string> -> Reply)
      ensures this.one == one && this.many == many && requests == []
    {
      this.one := one;
      this.many := many;
      requests := [];
    }

    /** `client.translate(text, { from: 'zh-TW', to: 'en' })` */
    method TranslateString(text: string) returns (r: Reply)
      modifies this
      ensures r == one(text)
      ensures requests == old(requests) + [TranslateOne(text)]
    {
      r := one(text);
      requests := requests + [TranslateOne(text)];
    }

    /** `client.translate(texts, { from: 'zh-TW', to: 'en' })` */
    method TranslateList(texts: seq<string>) returns (r: Reply)
      modifies this
      ensures r == many(texts)
      ensures requests == old(requests) + [TranslateMany(texts)]
    {
      r := many(texts);
      requests := requests + [TranslateMany(texts)];
    }
  }

  /** What a batch call obtains: nothing without a client, else the client's reply to the request. */
  function BatchResponse(client: TranslateClient?, texts: seq<Value>, entries: map<string, Value>): Option<Reply> {
    if client == null then None else Some(client.many(ApiRequest(texts, entries)))
  }

  /** The external calls a batch makes: one carrying the request, or none when nothing is pending. */
  function BatchCalls(texts: seq<Value>, entries: map<string, Value>): seq<ApiCall> {
    if ApiRequest(texts, entries) == [] then [] else [TranslateMany(ApiRequest(texts, entries))]
  }

  function TextResponse(client: TranslateClient?, text: Value): Option<Reply> {
    if client == null then None else Some(client.one(KeyOf(text)))
  }

  // ---------------------------------------------------------------------
  // The two resolution paths
  // ---------------------------------------------------------------------

  /** Evict the oldest entry when the cache is full, then store `key`. */
  method StoreWithEviction(cache: OrderedMap, key: string, value: Value)
    requires cache.Valid() && |cache.order| <= MAX_CACHE_SIZE
    modifies cache
    ensures cache.Valid() && |cache.order| <= MAX_CACHE_SIZE
    ensures cache.State() == Put(old(cache.State()), MAX_CACHE_SIZE, key, value)
  {
    PutBounded(cache.State(), MAX_CACHE_SIZE, key, value);
    var size := cache.Size();
    if size >= MAX_CACHE_SIZE {
      var first := cache.FirstKey();
      if first.Some? {
        cache.Delete(first.value);
      }
    }
    cache.Set(key, value);
  }

  /** `translateText(text)` */
  method TranslateText(text: Value, cache: OrderedMap, client: TranslateClient?) returns (r: Value)
    requires cache.Valid() && |cache.order| <= MAX_CACHE_SIZE
    modifies cache, client
    ensures cache.Valid() && |cache.order| <= MAX_CACHE_SIZE
    ensures r == TextResult(text, old(cache.entries), TextResponse(client, text))
    ensures cache.State() == TextCache(old(cache.State()), text, TextResponse(client, text))
    ensures client != null ==>
      client.requests == old(client.requests) + (if TierOf(text, old(cache.entries)).Pending? then [TranslateOne(KeyOf(text))] else [])
  {
    if !Truthy(text) || !text.Str? {
      return text;
    }
    var trimmed := Trim(text.s);
    if trimmed == "" {
      return text;
    }
    var english := StaticGet(trimmed);
    if english.Some? {
      return Str(english.value);
    }
    var hit := cache.Has(trimmed);
    if hit {
      r := cache.Get(trimmed);
      return;
    }
    if IsAscii(trimmed) {
      return text;
    }
    if client == null {
      return text;
    }
    var reply := client.TranslateString(trimmed);
    match reply
    case Threw =>
      r := text;
    case Replied(translation) =>
      StoreWithEviction(cache, trimmed, translation);
      r := translation;
  }

  /**
   * One step of the first loop of `translateBatch`: the checks in tier
   * order for one text. Either the slot is resolved here, or the text is
   * pending and its trimmed form goes into the request.
   */
  method ResolveLocally(text: Value, cache: OrderedMap) returns (pending: bool, local: Value, trimmed: string)
    requires cache.Valid()
    ensures pending <==> TierOf(text, cache.entries).Pending?
    ensures pending ==> trimmed == KeyOf(text)
    ensures !pending ==> local == Local(text, cache.entries)
  {
    pending, local, trimmed := false, text, "";
    if !Truthy(text) || !text.Str? || Trim(text.s) == "" {
      return;
    }
    trimmed := Trim(text.s);
    var hit := cache.Has(trimmed);
    var english := StaticGet(trimmed);
    if english.Some? {
      local := Str(english.value);
    } else if hit {
      local := cache.Get(trimmed);
    } else if !IsAscii(trimmed) {
      pending := true;
    }
  }

  /**
   * The first loop of `translateBatch`: every slot that the dictionary, the
   * cache or the passthrough rules resolve is filled; the others are
   * collected, with their trimmed text, in order.
   */
  method ScanTexts(texts: seq<Value>, cache: OrderedMap) returns (res: array<Value>, apiTexts: seq<string>, apiIndices: seq<nat>)
    requires cache.Valid()
    ensures fresh(res)
    ensures res[..] == Locals(texts, cache.entries)
    ensures apiIndices == PendingIndices(texts, cache.entries, |texts|)
    ensures apiTexts == ApiRequest(texts, cache.entries)
  {
    res := new Value[|texts|](_ => Undefined);
    apiTexts := [];
    apiIndices := [];
    for i := 0 to |texts|
      invariant apiIndices == PendingIndices(texts, cache.entries, i)
      invariant apiTexts == PendingKeys(texts, cache.entries, i)
      invariant forall k :: 0 <= k < i ==> res[k] == Local(texts[k], cache.entries)
      invariant forall k :: i <= k < |texts| ==> res[k] == Undefined
    {
      var pending, local, trimmed := ResolveLocally(texts[i], cache);
      if pending {
        apiTexts := apiTexts + [trimmed];
        apiIndices := apiIndices + [i];
      } else {
        res[i] := local;
      }
    }
  }

  /** With no client, or after the call throws, every pending slot gets its original text back. */
  method RestoreOriginals(res: array<Value>, texts: seq<Value>, idxs: seq<nat>)
    requires forall j :: 0 <= j < |idxs| ==> idxs[j] < res.Length && idxs[j] < |texts|
    modifies res
    ensures res[..] == Patched(old(res[..]), idxs, Fills(texts, idxs, None), |idxs|)
  {
    ghost var base := res[..];
    for j := 0 to |idxs|
      invariant res[..] == Patched(base, idxs, Fills(texts, idxs, None), j)
    {
      res[idxs[j]] := texts[idxs[j]];
    }
  }

  /**
   * The second loop of `translateBatch` after a reply: element `j` of the
   * reply, or the original text when it is missing or falsy, goes into the
   * `j`-th pending slot and is stored under the `j`-th request text.
   */
  method StoreTranslations(res: array<Value>, cache: OrderedMap, texts: seq<Value>, idxs: seq<nat>, keys: seq<string>, translations: Value)
    requires cache.Valid() && |cache.order| <= MAX_CACHE_SIZE
    requires |keys| == |idxs|
    requires forall j :: 0 <= j < |idxs| ==> idxs[j] < res.Length && idxs[j] < |texts|
    modifies res, cache
    ensures cache.Valid() && |cache.order| <= MAX_CACHE_SIZE
    ensures cache.State() == PutAll(old(cache.State()), MAX_CACHE_SIZE, keys, Fills(texts, idxs, Some(Replied(translations))), |idxs|)
    ensures res[..] == Patched(old(res[..]), idxs, Fills(texts, idxs, Some(Replied(translations))), |idxs|)
  {
    ghost var base := res[..];
    ghost var start := cache.State();
    ghost var fills := Fills(texts, idxs, Some(Replied(translations)));
    var translatedArray := if translations.Arr? then translations.items else [translations];
    for j := 0 to |idxs|
      invariant cache.Valid() && |cache.order| <= MAX_CACHE_SIZE
      invariant cache.State() == PutAll(start, MAX_CACHE_SIZE, keys, fills, j)
      invariant res[..] == Patched(base, idxs, fills, j)
    {
      var translated := if j < |translatedArray| && Truthy(translatedArray[j]) then translatedArray[j] else texts[idxs[j]];
      res[idxs[j]] := translated;
      StoreWithEviction(cache, keys[j], translated);
    }
  }

  /** `translateBatch(texts)` */
  method TranslateBatch(texts: seq<Value>, cache: OrderedMap, client: TranslateClient?) returns (results: seq<Value>)
    requires cache.Valid() && |cache.order| <= MAX_CACHE_SIZE
    modifies cache, client
    ensures cache.Valid() && |cache.order| <= MAX_CACHE_SIZE
    ensures results == BatchResults(texts, old(cache.entries), BatchResponse(client, texts, old(cache.entries)))
    ensures cache.State() == BatchCache(old(cache.State()), texts, BatchResponse(client, texts, old(cache.entries)))
    ensures client != null ==>
      client.requests == old(client.requests) + BatchCalls(texts, old(cache.entries))
  {
    if |texts| == 0 {
      return texts;
    }
    ghost var entries := cache.entries;
    var res, apiTexts, apiIndices := ScanTexts(texts, cache);
    PendingShape(texts, entries, |texts|);
    ghost var resp := BatchResponse(client, texts, entries);

    if |apiTexts| == 0 {
      return res[..];
    }

    if client == null {
      RestoreOriginals(res, texts, apiIndices);
      return res[..];
    }

    var reply := client.TranslateList(apiTexts);
    assert resp == Some(reply);
    match reply {
      case Threw =>
        RestoreOriginals(res, texts, apiIndices);
        assert Fills(texts, apiIndices, None) == Fills(texts, apiIndices, resp);
      case Replied(translations) =>
        StoreTranslations(res, cache, texts, apiIndices, apiTexts, translations);
    }
    results := res[..];
  }

  // ---------------------------------------------------------------------
  // Properties of the batch path
  // ---------------------------------------------------------------------

  /**
   * Positional correspondence: slot `i` of the result depends only on
   * `texts[i]`. A slot resolved locally holds its local value; a pending slot
   * is element `Rank(i)` of the request, which is its trimmed text, and holds
   * what the reply gave at that same position.
   */
  lemma BatchSlot(texts: seq<Value>, entries: map<string, Value>, resp: Option<Reply>, i: nat)
    requires i < |texts|
    ensures TierOf(texts[i], entries).Pending? ==>
      && Rank(texts, entries, i) < |ApiRequest(texts, entries)|
      && ApiRequest(texts, entries)[Rank(texts, entries, i)] == KeyOf(texts[i])
      && BatchResults(texts, entries, resp)[i] == Fill(resp, Rank(texts, entries, i), texts[i])
    ensures !TierOf(texts[i], entries).Pending? ==> BatchResults(texts, entries, resp)[i] == Local(texts[i], entries)
  {
    var idxs := PendingIndices(texts, entries, |texts|);
    PendingShape(texts, entries, |texts|);
    var vals := Fills(texts, idxs, resp);
    var base := Locals(texts, entries);
    PatchedAt(base, idxs, vals, |idxs|, i);
    assert BatchResults(texts, entries, resp) == Patched(base, idxs, vals, |idxs|);
    if TierOf(texts[i], entries).Pending? {
      PendingRank(texts, entries, i);
      var j := Rank(texts, entries, i);
      assert vals[j] == Fill(resp, j, texts[i]);
    } else {
      assert forall j :: 0 <= j < |idxs| ==> idxs[j] != i;
      assert base[i] == Local(texts[i], entries);
    }
  }

  /** A pending slot `i` sits at position `Rank(i)` of the pending indices. */
  lemma PendingRank(texts: seq<Value>, entries: map<string, Value>, i: nat)
    requires i < |texts| && TierOf(texts[i], entries).Pending?
    ensures Rank(texts, entries, i) < |PendingIndices(texts, entries, |texts|)|
    ensures PendingIndices(texts, entries, |texts|)[Rank(texts, entries, i)] == i
  {
    PendingPrefix(texts, entries, i + 1, |texts|);
    assert PendingIndices(texts, entries, i + 1) == PendingIndices(texts, entries, i) + [i];
  }

  /** A dictionary hit wins on both paths, whatever the cache holds and whatever the service would say. */
  lemma StaticWins(texts: seq<Value>, entries: map<string, Value>, resp: Option<Reply>, i: nat)
    requires i < |texts| && !IsBlank(texts[i]) && StaticGet(KeyOf(texts[i])).Some?
    ensures BatchResults(texts, entries, resp)[i] == Str(StaticGet(KeyOf(texts[i])).value)
    ensures TextResult(texts[i], entries, resp) == Str(StaticGet(KeyOf(texts[i])).value)
  {
    BatchSlot(texts, entries, resp, i);
  }

  /** Empty, whitespace-only and non-string inputs come back exactly as given, on both paths. */
  lemma BlankPassthrough(texts: seq<Value>, entries: map<string, Value>, resp: Option<Reply>, i: nat)
    requires i < |texts| && IsBlank(texts[i])
    ensures BatchResults(texts, entries, resp)[i] == texts[i]
    ensures TextResult(texts[i], entries, resp) == texts[i]
  {
    BatchSlot(texts, entries, resp, i);
  }

  /**
   * An all-ASCII text that neither the dictionary nor the cache knows comes
   * back untrimmed, on both paths; it is not part of the request, and
   * neither path caches it.
   */
  lemma AsciiPassthrough(c: CacheState, texts: seq<Value>, resp: Option<Reply>, i: nat)
    requires i < |texts| && !IsBlank(texts[i])
    requires StaticGet(KeyOf(texts[i])).None? && KeyOf(texts[i]) !in c.entries && IsAscii(KeyOf(texts[i]))
    ensures BatchResults(texts, c.entries, resp)[i] == texts[i]
    ensures TextResult(texts[i], c.entries, resp) == texts[i]
    ensures forall j :: 0 <= j < |PendingIndices(texts, c.entries, |texts|)| ==> PendingIndices(texts, c.entries, |texts|)[j] != i
    ensures KeyOf(texts[i]) !in BatchCache(c, texts, resp).entries
    ensures TextCache(c, texts[i], resp) == c
  {
    AsciiTier(texts[i], c.entries);
    AsciiSlot(texts, c.entries, resp, i);
    var idxs := PendingIndices(texts, c.entries, |texts|);
    var req := ApiRequest(texts, c.entries);
    PendingShape(texts, c.entries, |texts|);
    forall m | 0 <= m < |req|
      ensures req[m] != KeyOf(texts[i])
    {
      TierPrecedence(texts[idxs[m]], c.entries);
    }
    BatchCacheKeys(c, texts, resp);
  }

  /**
   * What the cache can hold: only texts that were pending when stored, so
   * neither a dictionary key nor an all-ASCII text.
   */
  ghost predicate OnlyPendingKeys(c: CacheState) {
    forall k :: k in c.entries ==> StaticGet(k).None? && !IsAscii(k)
  }

  /** A batch stores only pending texts, so it keeps `OnlyPendingKeys`. */
  lemma BatchKeepsPendingKeys(c: CacheState, texts: seq<Value>, resp: Option<Reply>)
    requires OnlyPendingKeys(c)
    ensures OnlyPendingKeys(BatchCache(c, texts, resp))
  {
    var idxs := PendingIndices(texts, c.entries, |texts|);
    var req := ApiRequest(texts, c.entries);
    PendingShape(texts, c.entries, |texts|);
    BatchCacheKeys(c, texts, resp);
    forall m | 0 <= m < |req|
      ensures StaticGet(req[m]).None? && !IsAscii(req[m])
    {
      TierPrecedence(texts[idxs[m]], c.entries);
    }
  }

  /** The single-text path stores only a pending text, so it keeps `OnlyPendingKeys`. */
  lemma TextKeepsPendingKeys(c: CacheState, text: Value, resp: Option<Reply>)
    requires OnlyPendingKeys(c)
    ensures OnlyPendingKeys(TextCache(c, text, resp))
  {
    TierPrecedence(text, c.entries);
  }

  /**
   * An all-ASCII text is never a translation job, whatever the cache holds
   * once it was filled only by the two paths: it comes back untrimmed on
   * both paths, is not requested, and is not cached.
   */
  lemma AsciiNeverPending(c: CacheState, texts: seq<Value>, resp: Option<Reply>, i: nat)
    requires OnlyPendingKeys(c)
    requires i < |texts| && IsAscii(KeyOf(texts[i]))
    ensures !TierOf(texts[i], c.entries).Pending?
    ensures BatchResults(texts, c.entries, resp)[i] == texts[i]
    ensures TextResult(texts[i], c.entries, resp) == texts[i]
    ensures forall j :: 0 <= j < |PendingIndices(texts, c.entries, |texts|)| ==> PendingIndices(texts, c.entries, |texts|)[j] != i
    ensures KeyOf(texts[i]) !in BatchCache(c, texts, resp).entries
    ensures KeyOf(texts[i]) !in TextCache(c, texts[i], resp).entries
  {
    TierPrecedence(texts[i], c.entries);
    BatchKeepsPendingKeys(c, texts, resp);
    TextKeepsPendingKeys(c, texts[i], resp);
    if IsBlank(texts[i]) {
      BlankPassthrough(texts, c.entries, resp, i);
      NotPendingNotRequested(texts, c.entries, i);
    } else {
      StaticNotAscii(KeyOf(texts[i]));
      AsciiSlot(texts, c.entries, resp, i);
    }
  }

  lemma AsciiTier(text: Value, entries: map<string, Value>)
    requires !IsBlank(text)
    requires StaticGet(KeyOf(text)).None? && KeyOf(text) !in entries && IsAscii(KeyOf(text))
    ensures TierOf(text, entries) == Ascii
  {
  }

  lemma AsciiSlot(texts: seq<Value>, entries: map<string, Value>, resp: Option<Reply>, i: nat)
    requires i < |texts| && TierOf(texts[i], entries) == Ascii
    ensures BatchResults(texts, entries, resp)[i] == texts[i]
    ensures TextResult(texts[i], entries, resp) == texts[i]
    ensures forall j :: 0 <= j < |PendingIndices(texts, entries, |texts|)| ==> PendingIndices(texts, entries, |texts|)[j] != i
  {
    LocalAgrees(texts, entries, resp, resp, i);
    NotPendingNotRequested(texts, entries, i);
  }

  /** A slot that is not pending is not among the request positions. */
  lemma NotPendingNotRequested(texts: seq<Value>, entries: map<string, Value>, i: nat)
    requires i < |texts| && !TierOf(texts[i], entries).Pending?
    ensures forall j :: 0 <= j < |PendingIndices(texts, entries, |texts|)| ==> PendingIndices(texts, entries, |texts|)[j] != i
  {
    PendingShape(texts, entries, |texts|);
  }

  /** Slots that need no service call are resolved the same way on the single-text path and the batch path. */
  lemma LocalAgrees(texts: seq<Value>, entries: map<string, Value>, batchResp: Option<Reply>, textResp: Option<Reply>, i: nat)
    requires i < |texts| && !TierOf(texts[i], entries).Pending?
    ensures BatchResults(texts, entries, batchResp)[i] == TextResult(texts[i], entries, textResp)
  {
    BatchSlot(texts, entries, batchResp, i);
  }

  /**
   * After a reply, pending slot `i` holds the reply's element at the slot's
   * position in the request when that element is truthy, and the original
   * text otherwise (a shorter reply, `null`, or an empty string).
   */
  lemma ReplyFallback(texts: seq<Value>, entries: map<string, Value>, translations: Value, i: nat)
    requires i < |texts| && TierOf(texts[i], entries).Pending?
    ensures var arr := Items(translations);
      var j := Rank(texts, entries, i);
      && (j < |arr| && Truthy(arr[j]) ==> BatchResults(texts, entries, Some(Replied(translations)))[i] == arr[j])
      && (j >= |arr| || !Truthy(arr[j]) ==> BatchResults(texts, entries, Some(Replied(translations)))[i] == texts[i])
  {
    BatchSlot(texts, entries, Some(Replied(translations)), i);
  }

  /** With nothing pending the batch makes no call: the result is the local resolution and the cache is untouched. */
  lemma NothingPending(c: CacheState, texts: seq<Value>, resp: Option<Reply>)
    requires ApiRequest(texts, c.entries) == []
    ensures BatchResults(texts, c.entries, resp) == Locals(texts, c.entries)
    ensures BatchCache(c, texts, resp) == c
  {
    PendingShape(texts, c.entries, |texts|);
  }

  /**
   * The batch path fails open: with no client, and when the call throws,
   * every pending slot gets its original text, the two outcomes are the
   * same, and nothing is stored.
   */
  lemma FailOpen(c: CacheState, texts: seq<Value>)
    ensures BatchResults(texts, c.entries, None) == BatchResults(texts, c.entries, Some(Threw))
    ensures BatchCache(c, texts, None) == c && BatchCache(c, texts, Some(Threw)) == c
    ensures forall i :: 0 <= i < |texts| && TierOf(texts[i], c.entries).Pending? ==> BatchResults(texts, c.entries, None)[i] == texts[i]
  {
    var idxs := PendingIndices(texts, c.entries, |texts|);
    PendingShape(texts, c.entries, |texts|);
    assert Fills(texts, idxs, None) == Fills(texts, idxs, Some(Threw));
    forall i | 0 <= i < |texts| && TierOf(texts[i], c.entries).Pending?
      ensures BatchResults(texts, c.entries, None)[i] == texts[i]
    {
      BatchSlot(texts, c.entries, None, i);
    }
  }

  /** The single-text path fails open too: no client or an exception gives back the text and stores nothing. */
  lemma TextFailOpen(c: CacheState, text: Value)
    ensures TextResult(text, c.entries, None) == TextResult(text, c.entries, Some(Threw))
    ensures TierOf(text, c.entries).Pending? ==> TextResult(text, c.entries, None) == text
    ensures TextCache(c, text, None) == c && TextCache(c, text, Some(Threw)) == c
  {
  }

  /**
   * The single-text path memoises what the service returned: a second call
   * with the same text is a cache hit on that value and asks the service
   * nothing, whatever it would now say.
   */
  lemma TextTwice(c: CacheState, text: Value, translation: Value, again: Option<Reply>)
    requires Bounded(c, MAX_CACHE_SIZE) && TierOf(text, c.entries).Pending?
    ensures var after := TextCache(c, text, Some(Replied(translation)));
      && TierOf(text, after.entries) == Cached(translation)
      && TextResult(text, after.entries, again) == translation
  {
    PutBounded(c, MAX_CACHE_SIZE, KeyOf(text), translation);
  }

  /** With no pending slot, the request is empty. */
  lemma {:induction false} NoPendingNoRequest(texts: seq<Value>, entries: map<string, Value>, n: nat)
    requires n <= |texts|
    requires forall i :: 0 <= i < n ==> !TierOf(texts[i], entries).Pending?
    ensures PendingKeys(texts, entries, n) == []
  {
    if n > 0 {
      NoPendingNoRequest(texts, entries, n - 1);
    }
  }

  /** A batch caches nothing but its request's texts. */
  lemma BatchCacheKeys(c: CacheState, texts: seq<Value>, resp: Option<Reply>)
    ensures forall k :: k in BatchCache(c, texts, resp).entries ==> k in c.entries || k in ApiRequest(texts, c.entries)
  {
    var idxs := PendingIndices(texts, c.entries, |texts|);
    var req := ApiRequest(texts, c.entries);
    PendingShape(texts, c.entries, |texts|);
    if resp.Some? && resp.value.Replied? {
      PutAllFrame(c, MAX_CACHE_SIZE, req, Fills(texts, idxs, resp), |idxs|);
      assert req[..|idxs|] == req;
    }
  }

  /** A slot that is not pending stays so once the cache holds more keys. */
  lemma TierAfterGrowth(text: Value, entries: map<string, Value>, more: map<string, Value>)
    requires entries.Keys <= more.Keys && !TierOf(text, entries).Pending?
    ensures !TierOf(text, more).Pending?
  {
  }

  /** When a reply came and the batch fits in the cache, every request text is stored and nothing is evicted. */
  lemma BatchStoresRequest(c: CacheState, texts: seq<Value>, translations: Value)
    requires Bounded(c, MAX_CACHE_SIZE)
    requires |c.order| + |ApiRequest(texts, c.entries)| <= MAX_CACHE_SIZE
    ensures c.entries.Keys <= BatchCache(c, texts, Some(Replied(translations))).entries.Keys
    ensures forall k :: k in ApiRequest(texts, c.entries) ==> k in BatchCache(c, texts, Some(Replied(translations))).entries
  {
    var resp := Some(Replied(translations));
    var idxs := PendingIndices(texts, c.entries, |texts|);
    var req := ApiRequest(texts, c.entries);
    PendingShape(texts, c.entries, |texts|);
    PutAllKeeps(c, MAX_CACHE_SIZE, req, Fills(texts, idxs, resp), |idxs|);
  }

  /**
   * The batch path memoises too: when a reply came and the batch fits in the
   * cache, every earlier entry is kept, and the same batch a second time is
   * resolved entirely locally, with no request.
   */
  lemma SecondBatchIsLocal(c: CacheState, texts: seq<Value>, translations: Value)
    requires Bounded(c, MAX_CACHE_SIZE)
    requires |c.order| + |ApiRequest(texts, c.entries)| <= MAX_CACHE_SIZE
    ensures c.entries.Keys <= BatchCache(c, texts, Some(Replied(translations))).entries.Keys
    ensures ApiRequest(texts, BatchCache(c, texts, Some(Replied(translations))).entries) == []
  {
    var after := BatchCache(c, texts, Some(Replied(translations)));
    BatchStoresRequest(c, texts, translations);
    forall i | 0 <= i < |texts|
      ensures !TierOf(texts[i], after.entries).Pending?
    {
      if TierOf(texts[i], c.entries).Pending? {
        BatchSlot(texts, c.entries, None, i);
        assert KeyOf(texts[i]) in ApiRequest(texts, c.entries);
      } else {
        TierAfterGrowth(texts[i], c.entries, after.entries);
      }
    }
    NoPendingNoRequest(texts, after.entries, |texts|);
  }

  /**
   * A request's texts are new to the cache, so a request no longer than the
   * capacity is stored whole after a reply, even into a full cache: only
   * keys held before the batch are evicted.
   */
  lemma BatchCachesRequest(c: CacheState, texts: seq<Value>, translations: Value)
    requires Bounded(c, MAX_CACHE_SIZE)
    requires |ApiRequest(texts, c.entries)| <= MAX_CACHE_SIZE
    ensures forall k :: k in ApiRequest(texts, c.entries) ==> k in BatchCache(c, texts, Some(Replied(translations))).entries
  {
    var resp := Some(Replied(translations));
    var idxs := PendingIndices(texts, c.entries, |texts|);
    var req := ApiRequest(texts, c.entries);
    PendingShape(texts, c.entries, |texts|);
    RequestIsNew(texts, c.entries);
    PutAllFresh(c, MAX_CACHE_SIZE, req, Fills(texts, idxs, resp), |idxs|);
  }

  /** No text of a request is already cached. */
  lemma RequestIsNew(texts: seq<Value>, entries: map<string, Value>)
    ensures forall m :: 0 <= m < |ApiRequest(texts, entries)| ==> ApiRequest(texts, entries)[m] !in entries
  {
    var idxs := PendingIndices(texts, entries, |texts|);
    PendingShape(texts, entries, |texts|);
    forall m | 0 <= m < |ApiRequest(texts, entries)|
      ensures ApiRequest(texts, entries)[m] !in entries
    {
      TierPrecedence(texts[idxs[m]], entries);
    }
  }

  /**
   * What a batch caches is what it returns: after a reply, a pending slot's
   * trimmed text is stored with the slot's result, the original text included
   * when the reply had nothing usable, unless a later pending slot has the
   * same trimmed text. This holds in a full cache too, as long as the
   * request is no longer than the capacity.
   */
  lemma CachedAsReturned(c: CacheState, texts: seq<Value>, translations: Value, i: nat)
    requires Bounded(c, MAX_CACHE_SIZE)
    requires |ApiRequest(texts, c.entries)| <= MAX_CACHE_SIZE
    requires i < |texts| && TierOf(texts[i], c.entries).Pending?
    requires forall k :: i < k < |texts| && TierOf(texts[k], c.entries).Pending? ==> KeyOf(texts[k]) != KeyOf(texts[i])
    ensures var after := BatchCache(c, texts, Some(Replied(translations)));
      && KeyOf(texts[i]) in after.entries
      && after.entries[KeyOf(texts[i])] == BatchResults(texts, c.entries, Some(Replied(translations)))[i]
  {
    var resp := Some(Replied(translations));
    var idxs := PendingIndices(texts, c.entries, |texts|);
    var req := ApiRequest(texts, c.entries);
    PendingShape(texts, c.entries, |texts|);
    var fills := Fills(texts, idxs, resp);
    PendingRank(texts, c.entries, i);
    BatchSlot(texts, c.entries, resp, i);
    var j := Rank(texts, c.entries, i);
    forall m | j < m < |idxs|
      ensures req[m] != req[j]
    {
      assert idxs[m] > i;
    }
    RequestIsNew(texts, c.entries);
    PutAllFreshLast(c, MAX_CACHE_SIZE, req, fills, |idxs|, j);
  }

  /** A mixed batch: only the unknown Chinese text is pending, so the request holds it alone. */
  lemma MixedBatchScan(texts: seq<Value>)
    requires texts == [Str(""), Str("民主進步黨"), Str("Hello"), Str("新詞")]
    ensures PendingIndices(texts, map[], |texts|) == [3]
    ensures PendingKeys(texts, map[], |texts|) == ["新詞"]
    ensures Locals(texts, map[]) == [Str(""), Str("Democratic Progressive Party"), Str("Hello"), Undefined]
  {
    PartyTier();
    HelloTier();
    NewWordTier();
    FourSlotScan(Str(""), Str("民主進步黨"), Str("Hello"), Str("新詞"), map[], "Democratic Progressive Party", "新詞");
  }

  /** In that batch the dictionary and ASCII slots resolve locally and the new word takes the reply. */
  lemma MixedBatchResults(texts: seq<Value>, resp: Option<Reply>)
    requires texts == [Str(""), Str("民主進步黨"), Str("Hello"), Str("新詞")]
    requires resp == Some(Replied(Arr([Str("New Word")])))
    ensures BatchResults(texts, map[], resp) == [Str(""), Str("Democratic Progressive Party"), Str("Hello"), Str("New Word")]
  {
    MixedBatchScan(texts);
    OnePendingResults(texts, map[], resp, 3);
    assert Fill(resp, 0, texts[3]) == Str("New Word");
  }

  /** Starting from an empty cache, that batch stores only the new word. */
  lemma MixedBatchCache(texts: seq<Value>, resp: Option<Reply>)
    requires texts == [Str(""), Str("民主進步黨"), Str("Hello"), Str("新詞")]
    requires resp == Some(Replied(Arr([Str("New Word")])))
    ensures BatchCache(Empty, texts, resp) == CacheState(["新詞"], map["新詞" := Str("New Word")])
  {
    MixedBatchScan(texts);
    OnePendingCache(Empty, texts, resp, 3, "新詞");
    assert Fill(resp, 0, texts[3]) == Str("New Word");
  }

  /** The results of a batch with exactly one pending slot `p`. */
  lemma OnePendingResults(texts: seq<Value>, entries: map<string, Value>, resp: Option<Reply>, p: nat)
    requires p < |texts|
    requires PendingIndices(texts, entries, |texts|) == [p]
    ensures BatchResults(texts, entries, resp) == Locals(texts, entries)[p := Fill(resp, 0, texts[p])]
  {
    var fills := Fills(texts, [p], resp);
    assert fills == [Fill(resp, 0, texts[p])];
    assert Patched(Locals(texts, entries), [p], fills, 1) == Locals(texts, entries)[p := fills[0]];
  }

  /** The one store a batch with exactly one pending slot `p` makes after a reply. */
  lemma OnePendingCache(c: CacheState, texts: seq<Value>, resp: Option<Reply>, p: nat, key: string)
    requires p < |texts| && resp.Some? && resp.value.Replied?
    requires PendingIndices(texts, c.entries, |texts|) == [p]
    requires PendingKeys(texts, c.entries, |texts|) == [key]
    ensures BatchCache(c, texts, resp) == Put(c, MAX_CACHE_SIZE, key, Fill(resp, 0, texts[p]))
  {
    var fills := Fills(texts, [p], resp);
    assert fills[0] == Fill(resp, 0, texts[p]);
    assert PutAll(c, MAX_CACHE_SIZE, [key], fills, 1) == Put(c, MAX_CACHE_SIZE, key, fills[0]);
  }

  /** The first loop over four slots whose tiers are blank, dictionary, ASCII and pending. */
  lemma FourSlotScan(t0: Value, t1: Value, t2: Value, t3: Value, e: map<string, Value>, english: string, key: string)
    requires TierOf(t0, e) == Blank && TierOf(t1, e) == Static(english)
    requires TierOf(t2, e) == Ascii && TierOf(t3, e) == Pending(key)
    ensures PendingIndices([t0, t1, t2, t3], e, 4) == [3]
    ensures PendingKeys([t0, t1, t2, t3], e, 4) == [key]
    ensures Locals([t0, t1, t2, t3], e) == [t0, Str(english), t2, Undefined]
  {
    var texts := [t0, t1, t2, t3];
    assert PendingIndices(texts, e, 1) == [] && PendingKeys(texts, e, 1) == [];
    assert PendingIndices(texts, e, 2) == [] && PendingKeys(texts, e, 2) == [];
    assert PendingIndices(texts, e, 3) == [] && PendingKeys(texts, e, 3) == [];
  }

  /** A text with no white space at either end is its own trimmed form. */
  lemma TrimmedAlready(s: string)
    requires s != [] && !IsJsSpace(s[0]) && !IsJsSpace(s[|s| - 1])
    ensures Trim(s) == s
  {
  }

  /** The tier of a text that is its own trimmed form, from where it is found. */
  lemma TierOfTrimmed(s: string, e: map<string, Value>)
    requires s != [] && Trim(s) == s
    ensures StaticGet(s).Some? ==> TierOf(Str(s), e) == Static(StaticGet(s).value)
    ensures StaticGet(s).None? && s !in e && IsAscii(s) ==> TierOf(Str(s), e) == Ascii
    ensures StaticGet(s).None? && s !in e && !IsAscii(s) ==> TierOf(Str(s), e) == Pending(s)
  {
  }

  lemma PartyTier()
    ensures TierOf(Str("民主進步黨"), map[]) == Static("Democratic Progressive Party")
  {
    TrimmedAlready("民主進步黨");
    TierOfTrimmed("民主進步黨", map[]);
    FindLastAt(StaticPairs, "民主進步黨", 0);
  }

  lemma HelloTier()
    ensures TierOf(Str("Hello"), map[]) == Ascii
  {
    TrimmedAlready("Hello");
    TierOfTrimmed("Hello", map[]);
    FindLastAbsent(StaticPairs, "Hello");
  }

  lemma NewWordTier()
    ensures TierOf(Str("新詞"), map[]) == Pending("新詞")
  {
    TrimmedAlready("新詞");
    TierOfTrimmed("新詞", map[]);
    FindLastAbsent(StaticPairs, "新詞");
    assert !IsAscii("新詞") by {
      assert "新詞"[0] as int >= 0x80;
    }
  }
}
