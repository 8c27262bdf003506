/**
 * The record rewriters. Each one reads the translatable fields of a record
 * into one flat list of texts, resolves that list with a single batch call,
 * and writes the results back, position by position, into the same object.
 *
 * The four record shapes differ only in which fields they read and how the
 * entries of their list fields are handled, so the flatten and rebuild steps
 * are specified once, driven by a layout (a list of fields), and each
 * rewriter is proved to do what its layout prescribes.
 */
module TranslateFields {
  import opened JsValues
  import opened TranslationCache
  import opened Translate

  /** How the entries of a list field become batch texts and come back. */
  datatype ListKind =
      /** Committees: a string entry is translated as is; any other entry by its `name`, and comes back as a copy with the new `name`. */
    | Named
      /** Strings are translated; any other entry takes an empty slot and comes back unchanged. With `wrapScalar`, a truthy non-array value counts as a one-entry list. */
    | Texts(wrapScalar: bool)
      /** Attachments: every entry is translated by its `name` and comes back as a copy with the new `name`. */
    | Attachments

  datatype Field = Scalar(key: string) | List(key: string, kind: ListKind)

  const LegislatorLayout: seq<Field> := [
    Scalar("party"), Scalar("caucus"), Scalar("district"), Scalar("gender"),
    List("committees", Named), List("education", Texts(true)), List("experience", Texts(true))
  ]

  const BillLayout: seq<Field> := [
    Scalar("billName"), Scalar("status"), Scalar("category"), Scalar("source"),
    Scalar("proposer"), Scalar("meetingDescription"),
    List("lawNames", Texts(true)), List("attachments", Attachments)
  ]

  const CommitteeLayout: seq<Field> := [Scalar("name"), Scalar("responsibilities"), Scalar("category")]

  const InterpellationLayout: seq<Field> := [
    Scalar("subject"), Scalar("description"), Scalar("meetingDescription"),
    List("legislators", Texts(false))
  ]

  predicate KeysDistinct(layout: seq<Field>) {
    forall i, j :: 0 <= i < j < |layout| ==> layout[i].key != layout[j].key
  }

  // ---------------------------------------------------------------------
  // Flatten
  // ---------------------------------------------------------------------

  /**
   * The entries of a list field: the array's items, `[v]` for a truthy
   * non-array value where the field wraps scalars, and none otherwise.
   */
  function Entries(kind: ListKind, v: Value): seq<Value> {
    if v.Arr? then v.items
    else if kind.Texts? && kind.wrapScalar && Truthy(v) then [v]
    else []
  }

  /** `e.name || ''`; `None` where reading `name` of `null` or `undefined` throws a TypeError. */
  function NameOrEmpty(e: Value): Option<Value> {
    if Nullish(e) then None
    else if Truthy(GetProp(e, "name")) then Some(GetProp(e, "name"))
    else Some(Str(""))
  }

  /** The batch text of one list entry, or `None` for a TypeError. */
  function EntryText(kind: ListKind, e: Value): Option<Value> {
    match kind
    case Named => if e.Str? then Some(e) else NameOrEmpty(e)
    case Texts(_) => Some(if e.Str? then e else Str(""))
    case Attachments => NameOrEmpty(e)
  }

  /** The texts of all entries, in order, or `None` if any entry throws. */
  function EntryTexts(kind: ListKind, es: seq<Value>): Option<seq<Value>> {
    if forall i :: 0 <= i < |es| ==> EntryText(kind, es[i]).Some? then
      Some(seq(|es|, i requires 0 <= i < |es| => EntryText(kind, es[i]).value))
    else None
  }

  /** How many slots of the batch a field occupies. */
  function Width(f: Field, orig: map<string, Value>): nat {
    match f
    case Scalar(_) => 1
    case List(k, kind) => |Entries(kind, Lookup(orig, k))|
  }

  /** The texts one field contributes: a scalar its value, a list one text per entry. */
  function FieldTexts(f: Field, orig: map<string, Value>): (r: Option<seq<Value>>)
    ensures r.Some? ==> |r.value| == Width(f, orig)
  {
    match f
    case Scalar(k) => Some([Lookup(orig, k)])
    case List(k, kind) => EntryTexts(kind, Entries(kind, Lookup(orig, k)))
  }

  /** The texts of the first `n` fields, one after the other. */
  function FlattenPrefix(layout: seq<Field>, orig: map<string, Value>, n: nat): Option<seq<Value>>
    requires n <= |layout|
  {
    if n == 0 then Some([])
    else
      var front := FlattenPrefix(layout, orig, n - 1);
      var last := FieldTexts(layout[n - 1], orig);
      if front.Some? && last.Some? then Some(front.value + last.value) else None
  }

  /** The list a rewriter hands to the batch call, or `None` when building it throws. */
  function Flatten(layout: seq<Field>, orig: map<string, Value>): Option<seq<Value>> {
    FlattenPrefix(layout, orig, |layout|)
  }

  /** The cursor before field `n`: the slots the fields before it occupy. */
  function Before(layout: seq<Field>, orig: map<string, Value>, n: nat): nat
    requires n <= |layout|
  {
    if n == 0 then 0 else Before(layout, orig, n - 1) + Width(layout[n - 1], orig)
  }

  // ---------------------------------------------------------------------
  // Rebuild
  // ---------------------------------------------------------------------

  /** A list entry after the write-back, given its translation `t`. */
  function RebuildEntry(kind: ListKind, e: Value, t: Value): Value {
    match kind
    case Named => if e.Str? then t else WithName(e, t)
    case Texts(_) => if e.Str? then t else e
    case Attachments => WithName(e, t)
  }

  /** The `.map` that rebuilds a list from the slots starting at `idx`. */
  function RebuildList(kind: ListKind, es: seq<Value>, tr: seq<Value>, idx: nat): seq<Value> {
    seq(|es|, i requires 0 <= i < |es| => RebuildEntry(kind, es[i], At(tr, idx + i)))
  }

  /** A scalar is always written; a list only when it has entries. */
  predicate Writes(f: Field, orig: map<string, Value>) {
    f.Scalar? || Width(f, orig) > 0
  }

  /** The value a field holds after the write-back, its slots starting at `idx`. */
  function FieldValue(f: Field, orig: map<string, Value>, tr: seq<Value>, idx: nat): Value {
    match f
    case Scalar(_) => At(tr, idx)
    case List(k, kind) =>
      var es := Entries(kind, Lookup(orig, k));
      if |es| > 0 then Arr(RebuildList(kind, es, tr, idx)) else Lookup(orig, k)
  }

  function WriteField(f: Field, orig: map<string, Value>, props: map<string, Value>, tr: seq<Value>, idx: nat): map<string, Value> {
    if Writes(f, orig) then props[f.key := FieldValue(f, orig, tr, idx)] else props
  }

  /** The record after the first `n` fields are written back from `tr`; entries are read from `orig`. */
  function RebuildPrefix(layout: seq<Field>, orig: map<string, Value>, tr: seq<Value>, n: nat): map<string, Value>
    requires n <= |layout|
  {
    if n == 0 then orig
    else WriteField(layout[n - 1], orig, RebuildPrefix(layout, orig, tr, n - 1), tr, Before(layout, orig, n - 1))
  }

  function Rebuilt(layout: seq<Field>, orig: map<string, Value>, tr: seq<Value>): map<string, Value> {
    RebuildPrefix(layout, orig, tr, |layout|)
  }

  // ---------------------------------------------------------------------
  // Flatten and rebuild agree
  // ---------------------------------------------------------------------

  /** The cursor after the last field is the length of the flattened list. */
  lemma {:induction false} FlattenLength(layout: seq<Field>, orig: map<string, Value>, n: nat)
    requires n <= |layout| && FlattenPrefix(layout, orig, n).Some?
    ensures |FlattenPrefix(layout, orig, n).value| == Before(layout, orig, n)
  {
    if n > 0 {
      FlattenLength(layout, orig, n - 1);
    }
  }

  /** Building the list throws exactly when some field's entries throw. */
  lemma {:induction false} FlattenDefined(layout: seq<Field>, orig: map<string, Value>, n: nat)
    requires n <= |layout|
    ensures FlattenPrefix(layout, orig, n).Some? <==> forall p :: 0 <= p < n ==> FieldTexts(layout[p], orig).Some?
  {
    if n > 0 {
      FlattenDefined(layout, orig, n - 1);
    }
  }

  /** Only committee and attachment entries can throw: a layout of scalars and string lists always flattens. */
  lemma NeverThrows(layout: seq<Field>, orig: map<string, Value>)
    requires forall p :: 0 <= p < |layout| ==> layout[p].Scalar? || layout[p].kind.Texts?
    ensures Flatten(layout, orig).Some?
  {
    FlattenDefined(layout, orig, |layout|);
  }

  /** Slot `Before(p) + m` of the flattened list is the `m`-th text of field `p`. */
  lemma {:induction false} FlattenSlot(layout: seq<Field>, orig: map<string, Value>, n: nat, p: nat, m: nat)
    requires p < n <= |layout| && FlattenPrefix(layout, orig, n).Some?
    requires m < Width(layout[p], orig)
    ensures FieldTexts(layout[p], orig).Some?
    ensures Before(layout, orig, p) + m < |FlattenPrefix(layout, orig, n).value|
    ensures FlattenPrefix(layout, orig, n).value[Before(layout, orig, p) + m] == FieldTexts(layout[p], orig).value[m]
  {
    FlattenLength(layout, orig, n - 1);
    if p < n - 1 {
      FlattenSlot(layout, orig, n - 1, p, m);
    }
  }

  /** A key no field of the prefix names keeps its presence and value. */
  lemma {:induction false} RebuildOutside(layout: seq<Field>, orig: map<string, Value>, tr: seq<Value>, n: nat, k: string)
    requires n <= |layout|
    requires forall p :: 0 <= p < n ==> layout[p].key != k
    ensures k in RebuildPrefix(layout, orig, tr, n) <==> k in orig
    ensures Lookup(RebuildPrefix(layout, orig, tr, n), k) == Lookup(orig, k)
  {
    if n > 0 {
      RebuildOutside(layout, orig, tr, n - 1, k);
    }
  }

  /** Field `p` ends up holding the value built from the slots starting at `Before(p)`. */
  lemma {:induction false} RebuildField(layout: seq<Field>, orig: map<string, Value>, tr: seq<Value>, n: nat, p: nat)
    requires KeysDistinct(layout) && p < n <= |layout|
    ensures layout[p].key in RebuildPrefix(layout, orig, tr, n) <==> Writes(layout[p], orig) || layout[p].key in orig
    ensures Lookup(RebuildPrefix(layout, orig, tr, n), layout[p].key) == FieldValue(layout[p], orig, tr, Before(layout, orig, p))
  {
    if p == n - 1 {
      RebuildOutside(layout, orig, tr, n - 1, layout[p].key);
    } else {
      RebuildField(layout, orig, tr, n - 1, p);
    }
  }

  /** Before a run of scalar fields the cursor counts them. */
  lemma {:induction false} BeforeScalars(layout: seq<Field>, orig: map<string, Value>, n: nat)
    requires n <= |layout| && forall p :: 0 <= p < n ==> layout[p].Scalar?
    ensures Before(layout, orig, n) == n
  {
    if n > 0 {
      BeforeScalars(layout, orig, n - 1);
    }
  }

  /** A scalar field sends its value in slot `Before(p)` and gets slot `Before(p)` back. */
  lemma ScalarSlot(layout: seq<Field>, orig: map<string, Value>, tr: seq<Value>, p: nat, k: string)
    requires KeysDistinct(layout) && p < |layout| && layout[p] == Scalar(k)
    requires Flatten(layout, orig).Some?
    ensures Before(layout, orig, p) < |Flatten(layout, orig).value|
    ensures Flatten(layout, orig).value[Before(layout, orig, p)] == Lookup(orig, k)
    ensures k in Rebuilt(layout, orig, tr)
    ensures Lookup(Rebuilt(layout, orig, tr), k) == At(tr, Before(layout, orig, p))
  {
    FlattenSlot(layout, orig, |layout|, p, 0);
    RebuildField(layout, orig, tr, |layout|, p);
  }

  /** Entry `i` of a list field sends its text in slot `Before(p) + i`. */
  lemma ListTextSlot(layout: seq<Field>, orig: map<string, Value>, p: nat, k: string, kind: ListKind, i: nat)
    requires p < |layout| && layout[p] == List(k, kind)
    requires Flatten(layout, orig).Some?
    requires i < |Entries(kind, Lookup(orig, k))|
    ensures EntryText(kind, Entries(kind, Lookup(orig, k))[i]).Some?
    ensures Before(layout, orig, p) + i < |Flatten(layout, orig).value|
    ensures Flatten(layout, orig).value[Before(layout, orig, p) + i] == EntryText(kind, Entries(kind, Lookup(orig, k))[i]).value
  {
    FlattenSlot(layout, orig, |layout|, p, i);
  }

  /** The rebuilt list of a field with entries holds at `i` entry `i` rebuilt from slot `Before(p) + i`. */
  lemma ListEntrySlot(layout: seq<Field>, orig: map<string, Value>, tr: seq<Value>, p: nat, k: string, kind: ListKind, i: nat)
    requires KeysDistinct(layout) && p < |layout| && layout[p] == List(k, kind)
    requires i < |Entries(kind, Lookup(orig, k))|
    ensures k in Rebuilt(layout, orig, tr) && Lookup(Rebuilt(layout, orig, tr), k).Arr?
    ensures |Lookup(Rebuilt(layout, orig, tr), k).items| == |Entries(kind, Lookup(orig, k))|
    ensures Lookup(Rebuilt(layout, orig, tr), k).items[i] ==
      RebuildEntry(kind, Entries(kind, Lookup(orig, k))[i], At(tr, Before(layout, orig, p) + i))
  {
    RebuildField(layout, orig, tr, |layout|, p);
  }

  /** A list field with no entries is neither sent nor written: it stays as it was, present or absent. */
  lemma EmptyListUntouched(layout: seq<Field>, orig: map<string, Value>, tr: seq<Value>, p: nat, k: string, kind: ListKind)
    requires KeysDistinct(layout) && p < |layout| && layout[p] == List(k, kind)
    requires Entries(kind, Lookup(orig, k)) == []
    ensures Width(layout[p], orig) == 0
    ensures k in Rebuilt(layout, orig, tr) <==> k in orig
    ensures Lookup(Rebuilt(layout, orig, tr), k) == Lookup(orig, k)
  {
    RebuildField(layout, orig, tr, |layout|, p);
  }

  /** A truthy non-array value of a wrapping list field takes one slot and comes back as a one-element array. */
  lemma WrappedScalar(layout: seq<Field>, orig: map<string, Value>, tr: seq<Value>, p: nat, k: string)
    requires KeysDistinct(layout) && p < |layout| && layout[p] == List(k, Texts(true))
    requires Truthy(Lookup(orig, k)) && !Lookup(orig, k).Arr?
    ensures Width(layout[p], orig) == 1
    ensures Lookup(Rebuilt(layout, orig, tr), k) ==
      Arr([RebuildEntry(Texts(true), Lookup(orig, k), At(tr, Before(layout, orig, p)))])
  {
    RebuildField(layout, orig, tr, |layout|, p);
  }

  /** A field outside the layout is never written. */
  lemma OutsideUntouched(layout: seq<Field>, orig: map<string, Value>, tr: seq<Value>, k: string)
    requires forall p :: 0 <= p < |layout| ==> layout[p].key != k
    ensures k in Rebuilt(layout, orig, tr) <==> k in orig
    ensures Lookup(Rebuilt(layout, orig, tr), k) == Lookup(orig, k)
  {
    RebuildOutside(layout, orig, tr, |layout|, k);
  }

  // ---------------------------------------------------------------------
  // Identity translation
  // ---------------------------------------------------------------------

  /** An object that `name || ''` gives its own `name` back: the name is truthy or already empty. */
  predicate NameSurvives(e: Value) {
    e.Obj? && "name" in e.props && (Truthy(e.props["name"]) || e.props["name"] == Str(""))
  }

  /** Entries that come back identical when every slot is translated to itself. */
  predicate Restorable(kind: ListKind, e: Value) {
    match kind
    case Named => e.Str? || NameSurvives(e)
    case Texts(_) => true
    case Attachments => NameSurvives(e)
  }

  /** Rebuilding an entry from its own text gives the entry back exactly when it is restorable. */
  lemma {:induction false} RestorableEntry(kind: ListKind, e: Value)
    requires EntryText(kind, e).Some?
    ensures RebuildEntry(kind, e, EntryText(kind, e).value) == e <==> Restorable(kind, e)
  {
    if !kind.Texts? && e.Obj? && !e.Str? {
      var t := EntryText(kind, e).value;
      if NameSurvives(e) {
        assert e.props["name" := t] == e.props;
      } else {
        assert t == Str("");
        assert WithName(e, t).props["name"] == Str("");
      }
    }
  }

  /** Under an identity batch every scalar field keeps its value. */
  lemma IdentityScalar(layout: seq<Field>, orig: map<string, Value>, p: nat, k: string)
    requires KeysDistinct(layout) && p < |layout| && layout[p] == Scalar(k)
    requires Flatten(layout, orig).Some?
    ensures Lookup(Rebuilt(layout, orig, Flatten(layout, orig).value), k) == Lookup(orig, k)
  {
    ScalarSlot(layout, orig, Flatten(layout, orig).value, p, k);
  }

  /** Under an identity batch a restorable list entry comes back unchanged. */
  lemma IdentityEntry(layout: seq<Field>, orig: map<string, Value>, p: nat, k: string, kind: ListKind, i: nat)
    requires KeysDistinct(layout) && p < |layout| && layout[p] == List(k, kind)
    requires Flatten(layout, orig).Some?
    requires i < |Entries(kind, Lookup(orig, k))| && Restorable(kind, Entries(kind, Lookup(orig, k))[i])
    ensures Lookup(Rebuilt(layout, orig, Flatten(layout, orig).value), k).Arr?
    ensures i < |Lookup(Rebuilt(layout, orig, Flatten(layout, orig).value), k).items|
    ensures Lookup(Rebuilt(layout, orig, Flatten(layout, orig).value), k).items[i] == Entries(kind, Lookup(orig, k))[i]
  {
    ListTextSlot(layout, orig, p, k, kind, i);
    ListEntrySlot(layout, orig, Flatten(layout, orig).value, p, k, kind, i);
    RestorableEntry(kind, Entries(kind, Lookup(orig, k))[i]);
  }

  /** Under an identity batch an array field whose entries are all restorable comes back unchanged. */
  lemma IdentityList(layout: seq<Field>, orig: map<string, Value>, p: nat, k: string, kind: ListKind)
    requires KeysDistinct(layout) && p < |layout| && layout[p] == List(k, kind)
    requires Flatten(layout, orig).Some? && Lookup(orig, k).Arr?
    requires forall e :: e in Lookup(orig, k).items ==> Restorable(kind, e)
    ensures Lookup(Rebuilt(layout, orig, Flatten(layout, orig).value), k) == Lookup(orig, k)
  {
    var es := Lookup(orig, k).items;
    var r := Rebuilt(layout, orig, Flatten(layout, orig).value);
    if es == [] {
      EmptyListUntouched(layout, orig, Flatten(layout, orig).value, p, k, kind);
    } else {
      ListEntrySlot(layout, orig, Flatten(layout, orig).value, p, k, kind, 0);
      forall i | 0 <= i < |es|
        ensures Lookup(r, k).items[i] == es[i]
      {
        IdentityEntry(layout, orig, p, k, kind, i);
      }
      assert Lookup(r, k).items == es;
    }
  }

  /** A field the identity batch gives back: a present scalar, a list with no entries, or an array of restorable entries. */
  predicate RestorableField(f: Field, orig: map<string, Value>) {
    match f
    case Scalar(k) => k in orig
    case List(k, kind) =>
      || Entries(kind, Lookup(orig, k)) == []
      || (Lookup(orig, k).Arr? && forall e :: e in Lookup(orig, k).items ==> Restorable(kind, e))
  }

  /** Under an identity batch each key of such a record keeps its presence and its value. */
  lemma IdentityKey(layout: seq<Field>, orig: map<string, Value>, k: string)
    requires KeysDistinct(layout) && Flatten(layout, orig).Some?
    requires forall p :: 0 <= p < |layout| ==> RestorableField(layout[p], orig)
    ensures k in Rebuilt(layout, orig, Flatten(layout, orig).value) <==> k in orig
    ensures Lookup(Rebuilt(layout, orig, Flatten(layout, orig).value), k) == Lookup(orig, k)
  {
    var tr := Flatten(layout, orig).value;
    if p :| 0 <= p < |layout| && layout[p].key == k {
      match layout[p]
      case Scalar(_) =>
        IdentityScalar(layout, orig, p, k);
        ScalarSlot(layout, orig, tr, p, k);
      case List(_, kind) =>
        if Entries(kind, Lookup(orig, k)) == [] {
          EmptyListUntouched(layout, orig, tr, p, k, kind);
        } else {
          IdentityList(layout, orig, p, k, kind);
        }
    } else {
      OutsideUntouched(layout, orig, tr, k);
    }
  }

  /**
   * The record round trip: when every field of the layout is restorable,
   * flattening a record and rebuilding it from its own texts gives the
   * record back exactly.
   */
  lemma IdentityRecord(layout: seq<Field>, orig: map<string, Value>)
    requires KeysDistinct(layout) && Flatten(layout, orig).Some?
    requires forall p :: 0 <= p < |layout| ==> RestorableField(layout[p], orig)
    ensures Rebuilt(layout, orig, Flatten(layout, orig).value) == orig
  {
    var r := Rebuilt(layout, orig, Flatten(layout, orig).value);
    forall k
      ensures (k in r <==> k in orig) && Lookup(r, k) == Lookup(orig, k)
    {
      IdentityKey(layout, orig, k);
    }
    assert r.Keys == orig.Keys;
    assert forall k | k in r :: r[k] == Lookup(r, k);
  }

  /** A string-list entry that is not a string is sent as `''` and comes back unchanged. */
  lemma NonStringEntryKept(layout: seq<Field>, orig: map<string, Value>, tr: seq<Value>, p: nat, k: string, wrap: bool, i: nat)
    requires KeysDistinct(layout) && p < |layout| && layout[p] == List(k, Texts(wrap))
    requires Flatten(layout, orig).Some?
    requires i < |Entries(Texts(wrap), Lookup(orig, k))| && !Entries(Texts(wrap), Lookup(orig, k))[i].Str?
    ensures Before(layout, orig, p) + i < |Flatten(layout, orig).value|
    ensures Flatten(layout, orig).value[Before(layout, orig, p) + i] == Str("")
    ensures Lookup(Rebuilt(layout, orig, tr), k).Arr? && i < |Lookup(Rebuilt(layout, orig, tr), k).items|
    ensures Lookup(Rebuilt(layout, orig, tr), k).items[i] == Entries(Texts(wrap), Lookup(orig, k))[i]
  {
    ListTextSlot(layout, orig, p, k, Texts(wrap), i);
    ListEntrySlot(layout, orig, tr, p, k, Texts(wrap), i);
  }

  // ---------------------------------------------------------------------
  // Record-specific properties
  // ---------------------------------------------------------------------

  /** A committee entry that is not a string comes back as a copy of itself named from slot `4 + i`. */
  lemma CommitteeEntryRenamed(orig: map<string, Value>, tr: seq<Value>, i: nat)
    requires i < |Entries(Named, Lookup(orig, "committees"))|
    requires !Entries(Named, Lookup(orig, "committees"))[i].Str?
    ensures Lookup(Rebuilt(LegislatorLayout, orig, tr), "committees").Arr?
    ensures i < |Lookup(Rebuilt(LegislatorLayout, orig, tr), "committees").items|
    ensures Lookup(Rebuilt(LegislatorLayout, orig, tr), "committees").items[i]
      == WithName(Entries(Named, Lookup(orig, "committees"))[i], At(tr, 4 + i))
  {
    LegislatorKeysDistinct();
    ListEntrySlot(LegislatorLayout, orig, tr, 4, "committees", Named, i);
    BeforeScalars(LegislatorLayout, orig, 4);
  }

  /** Every attachment comes back as a copy of itself named from its slot, after the six scalars and the law names. */
  lemma AttachmentRenamed(orig: map<string, Value>, tr: seq<Value>, i: nat)
    requires i < |Entries(Attachments, Lookup(orig, "attachments"))|
    ensures Lookup(Rebuilt(BillLayout, orig, tr), "attachments").Arr?
    ensures i < |Lookup(Rebuilt(BillLayout, orig, tr), "attachments").items|
    ensures Lookup(Rebuilt(BillLayout, orig, tr), "attachments").items[i]
      == WithName(Entries(Attachments, Lookup(orig, "attachments"))[i],
                  At(tr, 6 + |Entries(Texts(true), Lookup(orig, "lawNames"))| + i))
  {
    BillKeysDistinct();
    ListEntrySlot(BillLayout, orig, tr, 7, "attachments", Attachments, i);
    BeforeScalars(BillLayout, orig, 6);
    assert Before(BillLayout, orig, 7) == 6 + |Entries(Texts(true), Lookup(orig, "lawNames"))|;
  }

  /** Under an identity batch an attachment without a truthy `name` gets `name` set to `''`. */
  lemma AttachmentWithoutName(orig: map<string, Value>, i: nat)
    requires Flatten(BillLayout, orig).Some?
    requires i < |Entries(Attachments, Lookup(orig, "attachments"))|
    requires !Nullish(Entries(Attachments, Lookup(orig, "attachments"))[i])
    requires !Truthy(GetProp(Entries(Attachments, Lookup(orig, "attachments"))[i], "name"))
    ensures Lookup(Rebuilt(BillLayout, orig, Flatten(BillLayout, orig).value), "attachments").Arr?
    ensures i < |Lookup(Rebuilt(BillLayout, orig, Flatten(BillLayout, orig).value), "attachments").items|
    ensures Lookup(Rebuilt(BillLayout, orig, Flatten(BillLayout, orig).value), "attachments").items[i].Obj?
    ensures Lookup(Lookup(Rebuilt(BillLayout, orig, Flatten(BillLayout, orig).value), "attachments").items[i].props, "name") == Str("")
  {
    BillKeysDistinct();
    ListTextSlot(BillLayout, orig, 7, "attachments", Attachments, i);
    ListEntrySlot(BillLayout, orig, Flatten(BillLayout, orig).value, 7, "attachments", Attachments, i);
  }

  /** A committee record gets slots 0, 1 and 2 as name, responsibilities and category; `id` and `categoryId` stay as they were. */
  lemma CommitteeWriteBack(orig: map<string, Value>, tr: seq<Value>)
    ensures Lookup(Rebuilt(CommitteeLayout, orig, tr), "name") == At(tr, 0)
    ensures Lookup(Rebuilt(CommitteeLayout, orig, tr), "responsibilities") == At(tr, 1)
    ensures Lookup(Rebuilt(CommitteeLayout, orig, tr), "category") == At(tr, 2)
    ensures ("id" in Rebuilt(CommitteeLayout, orig, tr) <==> "id" in orig) && Lookup(Rebuilt(CommitteeLayout, orig, tr), "id") == Lookup(orig, "id")
    ensures ("categoryId" in Rebuilt(CommitteeLayout, orig, tr) <==> "categoryId" in orig)
    ensures Lookup(Rebuilt(CommitteeLayout, orig, tr), "categoryId") == Lookup(orig, "categoryId")
  {
    CommitteeKeysDistinct();
    RebuildField(CommitteeLayout, orig, tr, 3, 0);
    RebuildField(CommitteeLayout, orig, tr, 3, 1);
    RebuildField(CommitteeLayout, orig, tr, 3, 2);
    RebuildOutside(CommitteeLayout, orig, tr, 3, "id");
    RebuildOutside(CommitteeLayout, orig, tr, 3, "categoryId");
  }

  /** A legislator whose party is in the dictionary gets its English name, with an empty cache and no client. */
  lemma KuomintangExample(orig: map<string, Value>)
    requires orig == map["party" := Str("中國國民黨")]
    ensures Flatten(LegislatorLayout, orig).Some?
    ensures Lookup(Rebuilt(LegislatorLayout, orig, RewriteResults(LegislatorLayout, orig, map[], null)), "party") == Str("Kuomintang (KMT)")
  {
    LegislatorKeysDistinct();
    NeverThrowsWithoutCommittees(orig);
    ScalarSlot(LegislatorLayout, orig, RewriteResults(LegislatorLayout, orig, map[], null), 0, "party");
    KuomintangResolves(Flatten(LegislatorLayout, orig).value);
  }

  /** With an empty cache and no client, a batch whose first text is the Kuomintang's Chinese name resolves it from the dictionary. */
  lemma KuomintangResolves(texts: seq<Value>)
    requires |texts| > 0 && texts[0] == Str("中國國民黨")
    ensures BatchResults(texts, map[], None)[0] == Str("Kuomintang (KMT)")
  {
    TrimmedAlready("中國國民黨");
    FindLastAt(StaticPairs, "中國國民黨", 1);
    StaticWins(texts, map[], None, 0);
  }

  /** A legislator record whose `committees` is not an array cannot throw. */
  lemma NeverThrowsWithoutCommittees(orig: map<string, Value>)
    requires !Lookup(orig, "committees").Arr?
    ensures Flatten(LegislatorLayout, orig).Some?
  {
    FlattenDefined(LegislatorLayout, orig, 7);
  }

  // ---------------------------------------------------------------------
  // One field at a time, as the rewriters advance their cursor
  // ---------------------------------------------------------------------

  /** Writing scalar field `n` from the cursor moves the record and the cursor one field on. */
  lemma RebuildScalarStep(layout: seq<Field>, orig: map<string, Value>, tr: seq<Value>, n: nat, k: string, props: map<string, Value>, idx: nat)
    requires n < |layout| && layout[n] == Scalar(k)
    requires props == RebuildPrefix(layout, orig, tr, n) && idx == Before(layout, orig, n)
    ensures props[k := At(tr, idx)] == RebuildPrefix(layout, orig, tr, n + 1)
    ensures idx + 1 == Before(layout, orig, n + 1)
  {
  }

  /** Writing list field `n` (when it has entries) from the cursor moves the record and the cursor one field on. */
  lemma RebuildListStep(layout: seq<Field>, orig: map<string, Value>, tr: seq<Value>, n: nat, k: string, kind: ListKind,
                        es: seq<Value>, props: map<string, Value>, idx: nat)
    requires n < |layout| && layout[n] == List(k, kind) && es == Entries(kind, Lookup(orig, k))
    requires props == RebuildPrefix(layout, orig, tr, n) && idx == Before(layout, orig, n)
    ensures |es| > 0 ==> props[k := Arr(RebuildList(kind, es, tr, idx))] == RebuildPrefix(layout, orig, tr, n + 1)
    ensures |es| == 0 ==> props == RebuildPrefix(layout, orig, tr, n + 1)
    ensures idx + |es| == Before(layout, orig, n + 1)
  {
  }

  // ---------------------------------------------------------------------
  // The four rewriters
  // ---------------------------------------------------------------------

  lemma LegislatorKeysDistinct()
    ensures KeysDistinct(LegislatorLayout)
  {
  }

  lemma BillKeysDistinct()
    ensures KeysDistinct(BillLayout)
  {
  }

  lemma CommitteeKeysDistinct()
    ensures KeysDistinct(CommitteeLayout)
  {
  }

  lemma InterpellationKeysDistinct()
    ensures KeysDistinct(InterpellationLayout)
  {
  }

  /** How a rewrite ends: it hands back the object it was given, or building the batch threw a TypeError. */
  datatype Completion = Returned(record: JsObject) | ThrewTypeError

  /** The batch results a rewrite writes back, from the record and the cache entries before it. */
  function RewriteResults(layout: seq<Field>, orig: map<string, Value>, entries: map<string, Value>, client: TranslateClient?): seq<Value>
    requires Flatten(layout, orig).Some?
  {
    BatchResults(Flatten(layout, orig).value, entries, BatchResponse(client, Flatten(layout, orig).value, entries))
  }

  /** The cache after a rewrite, from the record and the cache before it. */
  function RewriteCache(layout: seq<Field>, orig: map<string, Value>, c: CacheState, client: TranslateClient?): CacheState
    requires Flatten(layout, orig).Some?
  {
    BatchCache(c, Flatten(layout, orig).value, BatchResponse(client, Flatten(layout, orig).value, c.entries))
  }

  /** The write-back half of `translateLegislator`: the fields in flatten order, the cursor advancing past each. */
  method WriteBackLegislator(obj: JsObject, translated: seq<Value>, committees: seq<Value>, education: seq<Value>, experience: seq<Value>)
    requires committees == Entries(Named, obj.Get("committees"))
    requires education == Entries(Texts(true), obj.Get("education"))
    requires experience == Entries(Texts(true), obj.Get("experience"))
    modifies obj
    ensures obj.props == Rebuilt(LegislatorLayout, old(obj.props), translated)
  {
    ghost var o := obj.props;
    ghost var L := LegislatorLayout;
    var idx := 0;
    RebuildScalarStep(L, o, translated, 0, "party", obj.props, idx);
    obj.Set("party", At(translated, idx));
    idx := idx + 1;
    RebuildScalarStep(L, o, translated, 1, "caucus", obj.props, idx);
    obj.Set("caucus", At(translated, idx));
    idx := idx + 1;
    RebuildScalarStep(L, o, translated, 2, "district", obj.props, idx);
    obj.Set("district", At(translated, idx));
    idx := idx + 1;
    RebuildScalarStep(L, o, translated, 3, "gender", obj.props, idx);
    obj.Set("gender", At(translated, idx));
    idx := idx + 1;
    RebuildListStep(L, o, translated, 4, "committees", Named, committees, obj.props, idx);
    if |committees| > 0 {
      obj.Set("committees", Arr(RebuildList(Named, committees, translated, idx)));
      idx := idx + |committees|;
    }
    RebuildListStep(L, o, translated, 5, "education", Texts(true), education, obj.props, idx);
    if |education| > 0 {
      obj.Set("education", Arr(RebuildList(Texts(true), education, translated, idx)));
      idx := idx + |education|;
    }
    RebuildListStep(L, o, translated, 6, "experience", Texts(true), experience, obj.props, idx);
    if |experience| > 0 {
      obj.Set("experience", Arr(RebuildList(Texts(true), experience, translated, idx)));
      idx := idx + |experience|;
    }
    assert idx == Before(L, o, 7);
  }

  /** `translateLegislator(obj)` */
  method TranslateLegislator(obj: JsObject, cache: OrderedMap, client: TranslateClient?) returns (c: Completion)
    requires cache.Valid() && |cache.order| <= MAX_CACHE_SIZE
    modifies obj, cache, client
    ensures cache.Valid() && |cache.order| <= MAX_CACHE_SIZE
    ensures Flatten(LegislatorLayout, old(obj.props)).None? ==>
      c == ThrewTypeError && obj.props == old(obj.props) && cache.State() == old(cache.State())
      && (client != null ==> client.requests == old(client.requests))
    ensures Flatten(LegislatorLayout, old(obj.props)).Some? ==>
      c == Returned(obj)
      && obj.props == Rebuilt(LegislatorLayout, old(obj.props), RewriteResults(LegislatorLayout, old(obj.props), old(cache.entries), client))
      && cache.State() == RewriteCache(LegislatorLayout, old(obj.props), old(cache.State()), client)
      && (client != null ==>
            client.requests == old(client.requests) + BatchCalls(Flatten(LegislatorLayout, old(obj.props)).value, old(cache.entries)))
  {
    ghost var o := obj.props;
    var texts := Flatten(LegislatorLayout, obj.props);
    if texts.None? {
      return ThrewTypeError;
    }
    var allTexts := texts.value;
    var committees := Entries(Named, obj.Get("committees"));
    var education := Entries(Texts(true), obj.Get("education"));
    var experience := Entries(Texts(true), obj.Get("experience"));

    ghost var entries := cache.entries;
    var translated := TranslateBatch(allTexts, cache, client);
    assert translated == RewriteResults(LegislatorLayout, o, entries, client);
    WriteBackLegislator(obj, translated, committees, education, experience);
    c := Returned(obj);
  }

  /** The write-back half of `translateBill`. */
  method WriteBackBill(obj: JsObject, translated: seq<Value>, lawNames: seq<Value>, attachments: seq<Value>)
    requires lawNames == Entries(Texts(true), obj.Get("lawNames"))
    requires attachments == Entries(Attachments, obj.Get("attachments"))
    modifies obj
    ensures obj.props == Rebuilt(BillLayout, old(obj.props), translated)
  {
    ghost var o := obj.props;
    ghost var L := BillLayout;
    var idx := 0;
    RebuildScalarStep(L, o, translated, 0, "billName", obj.props, idx);
    obj.Set("billName", At(translated, idx));
    idx := idx + 1;
    RebuildScalarStep(L, o, translated, 1, "status", obj.props, idx);
    obj.Set("status", At(translated, idx));
    idx := idx + 1;
    RebuildScalarStep(L, o, translated, 2, "category", obj.props, idx);
    obj.Set("category", At(translated, idx));
    idx := idx + 1;
    RebuildScalarStep(L, o, translated, 3, "source", obj.props, idx);
    obj.Set("source", At(translated, idx));
    idx := idx + 1;
    RebuildScalarStep(L, o, translated, 4, "proposer", obj.props, idx);
    obj.Set("proposer", At(translated, idx));
    idx := idx + 1;
    RebuildScalarStep(L, o, translated, 5, "meetingDescription", obj.props, idx);
    obj.Set("meetingDescription", At(translated, idx));
    idx := idx + 1;
    RebuildListStep(L, o, translated, 6, "lawNames", Texts(true), lawNames, obj.props, idx);
    if |lawNames| > 0 {
      obj.Set("lawNames", Arr(RebuildList(Texts(true), lawNames, translated, idx)));
      idx := idx + |lawNames|;
    }
    RebuildListStep(L, o, translated, 7, "attachments", Attachments, attachments, obj.props, idx);
    if |attachments| > 0 {
      obj.Set("attachments", Arr(RebuildList(Attachments, attachments, translated, idx)));
      idx := idx + |attachments|;
    }
    assert idx == Before(L, o, 8);
  }

  /** `translateBill(obj)` */
  method TranslateBill(obj: JsObject, cache: OrderedMap, client: TranslateClient?) returns (c: Completion)
    requires cache.Valid() && |cache.order| <= MAX_CACHE_SIZE
    modifies obj, cache, client
    ensures cache.Valid() && |cache.order| <= MAX_CACHE_SIZE
    ensures Flatten(BillLayout, old(obj.props)).None? ==>
      c == ThrewTypeError && obj.props == old(obj.props) && cache.State() == old(cache.State())
      && (client != null ==> client.requests == old(client.requests))
    ensures Flatten(BillLayout, old(obj.props)).Some? ==>
      c == Returned(obj)
      && obj.props == Rebuilt(BillLayout, old(obj.props), RewriteResults(BillLayout, old(obj.props), old(cache.entries), client))
      && cache.State() == RewriteCache(BillLayout, old(obj.props), old(cache.State()), client)
      && (client != null ==>
            client.requests == old(client.requests) + BatchCalls(Flatten(BillLayout, old(obj.props)).value, old(cache.entries)))
  {
    ghost var o := obj.props;
    var texts := Flatten(BillLayout, obj.props);
    if texts.None? {
      return ThrewTypeError;
    }
    var allTexts := texts.value;
    var lawNames := Entries(Texts(true), obj.Get("lawNames"));
    var attachments := Entries(Attachments, obj.Get("attachments"));

    ghost var entries := cache.entries;
    var translated := TranslateBatch(allTexts, cache, client);
    assert translated == RewriteResults(BillLayout, o, entries, client);
    WriteBackBill(obj, translated, lawNames, attachments);
    c := Returned(obj);
  }

  /** `translateCommittee(obj)`: building its three-text batch cannot throw. */
  method TranslateCommittee(obj: JsObject, cache: OrderedMap, client: TranslateClient?) returns (c: Completion)
    requires cache.Valid() && |cache.order| <= MAX_CACHE_SIZE
    modifies obj, cache, client
    ensures cache.Valid() && |cache.order| <= MAX_CACHE_SIZE
    ensures Flatten(CommitteeLayout, old(obj.props)).Some? && c == Returned(obj)
    ensures obj.props == Rebuilt(CommitteeLayout, old(obj.props), RewriteResults(CommitteeLayout, old(obj.props), old(cache.entries), client))
    ensures cache.State() == RewriteCache(CommitteeLayout, old(obj.props), old(cache.State()), client)
    ensures client != null ==>
      client.requests == old(client.requests) + BatchCalls(Flatten(CommitteeLayout, old(obj.props)).value, old(cache.entries))
  {
    ghost var o := obj.props;
    ghost var L := CommitteeLayout;
    NeverThrows(L, o);
    var allTexts := Flatten(CommitteeLayout, obj.props).value;

    ghost var entries := cache.entries;
    var translated := TranslateBatch(allTexts, cache, client);
    assert translated == RewriteResults(L, o, entries, client);

    RebuildScalarStep(L, o, translated, 0, "name", obj.props, 0);
    obj.Set("name", At(translated, 0));
    RebuildScalarStep(L, o, translated, 1, "responsibilities", obj.props, 1);
    obj.Set("responsibilities", At(translated, 1));
    RebuildScalarStep(L, o, translated, 2, "category", obj.props, 2);
    obj.Set("category", At(translated, 2));
    c := Returned(obj);
  }

  /** The write-back half of `translateInterpellation`. */
  method WriteBackInterpellation(obj: JsObject, translated: seq<Value>, legislators: seq<Value>)
    requires legislators == Entries(Texts(false), obj.Get("legislators"))
    modifies obj
    ensures obj.props == Rebuilt(InterpellationLayout, old(obj.props), translated)
  {
    ghost var o := obj.props;
    ghost var L := InterpellationLayout;
    var idx := 0;
    RebuildScalarStep(L, o, translated, 0, "subject", obj.props, idx);
    obj.Set("subject", At(translated, idx));
    idx := idx + 1;
    RebuildScalarStep(L, o, translated, 1, "description", obj.props, idx);
    obj.Set("description", At(translated, idx));
    idx := idx + 1;
    RebuildScalarStep(L, o, translated, 2, "meetingDescription", obj.props, idx);
    obj.Set("meetingDescription", At(translated, idx));
    idx := idx + 1;
    RebuildListStep(L, o, translated, 3, "legislators", Texts(false), legislators, obj.props, idx);
    if |legislators| > 0 {
      obj.Set("legislators", Arr(RebuildList(Texts(false), legislators, translated, idx)));
      idx := idx + |legislators|;
    }
    assert idx == Before(L, o, 4);
  }

  /** `translateInterpellation(obj)`: building its batch cannot throw. */
  method TranslateInterpellation(obj: JsObject, cache: OrderedMap, client: TranslateClient?) returns (c: Completion)
    requires cache.Valid() && |cache.order| <= MAX_CACHE_SIZE
    modifies obj, cache, client
    ensures cache.Valid() && |cache.order| <= MAX_CACHE_SIZE
    ensures Flatten(InterpellationLayout, old(obj.props)).Some? && c == Returned(obj)
    ensures obj.props == Rebuilt(InterpellationLayout, old(obj.props), RewriteResults(InterpellationLayout, old(obj.props), old(cache.entries), client))
    ensures cache.State() == RewriteCache(InterpellationLayout, old(obj.props), old(cache.State()), client)
    ensures client != null ==>
      client.requests == old(client.requests) + BatchCalls(Flatten(InterpellationLayout, old(obj.props)).value, old(cache.entries))
  {
    ghost var o := obj.props;
    ghost var L := InterpellationLayout;
    NeverThrows(L, o);
    var allTexts := Flatten(InterpellationLayout, obj.props).value;
    var legislators := Entries(Texts(false), obj.Get("legislators"));

    ghost var entries := cache.entries;
    var translated := TranslateBatch(allTexts, cache, client);
    assert translated == RewriteResults(L, o, entries, client);
    WriteBackInterpellation(obj, translated, legislators);
    c := Returned(obj);
  }
}
