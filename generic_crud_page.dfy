/**
 * The generic create/read/update/delete page every resource of the console is
 * built from: how a record's value is shown, how its id is found, how the
 * form state changes and becomes a request body, how the form is seeded from
 * a record, which columns the table shows, and how the cached record list
 * follows loads and deletes.
 */
module GenericCrud {
  import opened Options
  import opened Strings
  import opened Json
  import opened Api
  import opened Events
  import opened FieldSchema
  import UseApi

  /** The placeholder shown for a value with nothing to display (an em dash). */
  const Dash: string := "\U{2014}"

  /** The properties `getText` tries on an object: the requested language, then uz, ru, oz, en. */
  function LangOrder(lang: string): seq<string> {
    [lang, "uz", "ru", "oz", "en"]
  }

  /** The first of `keys[from..]` under which `v` has a truthy property. */
  function FirstTruthyKey(v: Value, keys: seq<string>, from: nat): (r: Option<nat>)
    ensures r.Some? ==> from <= r.value < |keys| && Truthy(Get(v, keys[r.value]))
    ensures r.Some? ==> forall j :: from <= j < r.value ==> !Truthy(Get(v, keys[j]))
    ensures r.None? ==> forall j :: from <= j < |keys| ==> !Truthy(Get(v, keys[j]))
    decreases |keys| - from
  {
    if from >= |keys| then None
    else if Truthy(Get(v, keys[from])) then Some(from)
    else FirstTruthyKey(v, keys, from + 1)
  }

  /** `vs.find(x => typeof x === 'string')`, as a position at or after `from`. */
  function FirstStringAt(vs: seq<Value>, from: nat): (r: Option<nat>)
    ensures r.Some? ==> from <= r.value < |vs| && vs[r.value].Str?
    ensures r.Some? ==> forall j :: from <= j < r.value ==> !vs[j].Str?
    ensures r.None? ==> forall j :: from <= j < |vs| ==> !vs[j].Str?
    decreases |vs| - from
  {
    if from >= |vs| then None
    else if vs[from].Str? then Some(from)
    else FirstStringAt(vs, from + 1)
  }

  /** A truthy property read is one of the object's own values. */
  lemma GetValue(v: Value, k: string)
    ensures Truthy(Get(v, k)) ==> Get(v, k) in ObjectValues(v)
  {
    if v.Obj? {
      LookupValue(v.entries, k);
    }
  }

  /**
   * `getText(field, lang)`: the text a table cell shows for a value. It is
   * never empty: `null`/`undefined` and `''` show the dash, booleans show
   * Yes/No, numbers their decimal form, and an object shows one of its own
   * values or the dash.
   */
  function GetText(v: Value, lang: string): (r: Value)
    ensures Truthy(r)
    ensures Nullish(v) ==> r == Str(Dash)
    ensures v.Bool? ==> r == Str(if v.b then "Yes" else "No")
    ensures v.Str? ==> r == if v.s == "" then Str(Dash) else v
    ensures v.Num? ==> r == Str(IntToString(v.n))
    ensures IsObjectLike(v) ==> r == Str(Dash) || r in ObjectValues(v)
  {
    match v
    case Undefined => Str(Dash)
    case Null => Str(Dash)
    case Bool(b) => Str(if b then "Yes" else "No")
    case Str(s) => if s == "" then Str(Dash) else v
    case Num(n) => Str(IntToString(n))
    case _ => ObjectText(v, lang)
  }

  /** The object branch of `getText`: a language property, else the first string value, else the dash. */
  function ObjectText(v: Value, lang: string): (r: Value)
    requires IsObjectLike(v)
    ensures Truthy(r)
    ensures r == Str(Dash) || r in ObjectValues(v)
  {
    var keys := LangOrder(lang);
    match FirstTruthyKey(v, keys, 0)
    case Some(i) =>
      GetValue(v, keys[i]);
      Get(v, keys[i])
    case None =>
      var vals := ObjectValues(v);
      match FirstStringAt(vals, 0)
      case Some(i) => if vals[i].s == "" then Str(Dash) else vals[i]
      case None => Str(Dash)
  }

  /**
   * On an object, the first truthy property among the requested language,
   * uz, ru, oz and en is shown, whatever else the object holds.
   */
  lemma GetTextLanguageOrder(v: Value, lang: string, i: nat)
    requires IsObjectLike(v) && i < 5
    requires Truthy(Get(v, LangOrder(lang)[i]))
    requires forall j :: 0 <= j < i ==> !Truthy(Get(v, LangOrder(lang)[j]))
    ensures GetText(v, lang) == Get(v, LangOrder(lang)[i])
  {
    var r := FirstTruthyKey(v, LangOrder(lang), 0);
    assert r.Some?;
    assert r.value == i;
  }

  /**
   * On an object without any of those properties, the first string among
   * its values is shown, or the dash when that string is empty.
   */
  lemma GetTextFirstString(v: Value, lang: string, i: nat)
    requires IsObjectLike(v)
    requires forall j :: 0 <= j < 5 ==> !Truthy(Get(v, LangOrder(lang)[j]))
    requires i < |ObjectValues(v)| && ObjectValues(v)[i].Str?
    requires forall j :: 0 <= j < i ==> !ObjectValues(v)[j].Str?
    ensures GetText(v, lang) == if ObjectValues(v)[i].s == "" then Str(Dash) else ObjectValues(v)[i]
  {
    var r := FirstStringAt(ObjectValues(v), 0);
    assert r.Some?;
    assert r.value == i;
  }

  /** On an object with none of those properties and no string value, the dash is shown. */
  lemma GetTextNoString(v: Value, lang: string)
    requires IsObjectLike(v)
    requires forall j :: 0 <= j < 5 ==> !Truthy(Get(v, LangOrder(lang)[j]))
    requires forall j :: 0 <= j < |ObjectValues(v)| ==> !ObjectValues(v)[j].Str?
    ensures GetText(v, lang) == Str(Dash)
  {
    assert FirstTruthyKey(v, LangOrder(lang), 0).None?;
    assert FirstStringAt(ObjectValues(v), 0).None?;
  }

  /** `record?._id || record?.id`. */
  function GetId(record: Value): (id: Value)
    ensures Truthy(Get(record, "_id")) ==> id == Get(record, "_id")
    ensures !Truthy(Get(record, "_id")) ==> id == Get(record, "id")
  {
    Or(Get(record, "_id"), Get(record, "id"))
  }

  /** An array's elements; anything else gives no records. */
  function AsList(v: Value): seq<Value> {
    if v.Arr? then v.items else []
  }

  /**
   * The records a list response yields: the first of `data.data`,
   * `data.items`, `data.result` and `data` that is not `null`/`undefined`,
   * when it is an array, and no records otherwise.
   */
  function UnwrapRecords(data: Value): (records: seq<Value>)
    ensures !Nullish(Get(data, "data")) ==> records == AsList(Get(data, "data"))
    ensures Nullish(Get(data, "data")) && !Nullish(Get(data, "items")) ==> records == AsList(Get(data, "items"))
    ensures Nullish(Get(data, "data")) && Nullish(Get(data, "items")) && !Nullish(Get(data, "result")) ==>
              records == AsList(Get(data, "result"))
    ensures Nullish(Get(data, "data")) && Nullish(Get(data, "items")) && Nullish(Get(data, "result")) ==>
              records == AsList(data)
    ensures data.Arr? ==> records == data.items
  {
    var result := Coalesce(Coalesce(Coalesce(Get(data, "data"), Get(data, "items")), Get(data, "result")), data);
    if result.Arr? then result.items else []
  }

  /** `records.filter(r => getId(r) !== id)`. */
  function RemoveById(records: seq<Value>, id: Value): (r: seq<Value>)
    ensures |r| <= |records|
  {
    if records == [] then []
    else (if GetId(records[0]) != id then [records[0]] else []) + RemoveById(records[1..], id)
  }

  /** A record stays exactly when it was there and its id differs from the deleted one. */
  lemma {:induction false} RemoveByIdMembers(records: seq<Value>, id: Value, x: Value)
    ensures x in RemoveById(records, id) <==> x in records && GetId(x) != id
  {
    if records != [] {
      RemoveByIdMembers(records[1..], id, x);
      assert records == [records[0]] + records[1..];
    }
  }

  lemma ConcatAssoc<T>(p: seq<T>, q: seq<T>, r: seq<T>)
    ensures p + (q + r) == (p + q) + r
  {
  }

  lemma RemoveByIdCons(x: Value, rest: seq<Value>, id: Value)
    ensures RemoveById([x] + rest, id) == (if GetId(x) != id then [x] else []) + RemoveById(rest, id)
  {
    assert ([x] + rest)[1..] == rest;
  }

  /** Filtering works piecewise, so the records that stay keep their order. */
  lemma {:induction false} RemoveByIdConcat(a: seq<Value>, b: seq<Value>, id: Value)
    ensures RemoveById(a + b, id) == RemoveById(a, id) + RemoveById(b, id)
  {
    if a != [] {
      var x, rest := a[0], a[1..];
      assert a == [x] + rest;
      assert a + b == [x] + (rest + b);
      RemoveByIdCons(x, rest, id);
      RemoveByIdCons(x, rest + b, id);
      RemoveByIdConcat(rest, b, id);
      var head := if GetId(x) != id then [x] else [];
      ConcatAssoc(head, RemoveById(rest, id), RemoveById(b, id));
    } else {
      assert a + b == b;
    }
  }

  /** A delete whose id no record carries leaves the list as it was. */
  lemma {:induction false} RemoveByIdUnmatched(records: seq<Value>, id: Value)
    requires forall x :: x in records ==> GetId(x) != id
    ensures RemoveById(records, id) == records
  {
    if records != [] {
      RemoveByIdUnmatched(records[1..], id);
    }
  }

  /** `prev[parent]` spread: the entries a nested update starts from. */
  function NestedBase(values: seq<Entry>, parent: string): seq<Entry> {
    SpreadEntries(Or(Lookup(values, parent), Obj([])))
  }

  /** The second part of `name.split('.')`, given what follows the first dot. */
  function ChildKey(rest: string): string {
    match IndexOf(rest, ".")
    case None => rest
    case Some(q) => rest[..q]
  }

  function FileValues(files: seq<FileRef>): (vs: seq<Value>)
    ensures |vs| == |files| && forall i :: 0 <= i < |files| ==> vs[i] == File(files[i])
  {
    seq(|files|, i requires 0 <= i < |files| => File(files[i]))
  }

  /**
   * `handleFormChange`: a dotted name `parent.child` writes `child` inside
   * the object under `parent`; a file input with several files stores all of
   * them; otherwise the input's value is stored under its name.
   */
  function FormChange(values: seq<Entry>, ev: ChangeEvent): seq<Entry> {
    match IndexOf(ev.name, ".")
    case Some(p) =>
      var parent := ev.name[..p];
      var child := ChildKey(ev.name[p + 1..]);
      Put(values, parent, Obj(Put(NestedBase(values, parent), child, ev.value)))
    case None =>
      if ev.inputType == "file" && |ev.files| > 1 then Put(values, ev.name, Arr(FileValues(ev.files)))
      else Put(values, ev.name, UseApi.InputValue(ev))
  }

  /**
   * A change to `parent.child` sets `child` inside `parent`, keeps the
   * other properties of `parent` and every other top-level value.
   */
  lemma FormChangeNested(values: seq<Entry>, ev: ChangeEvent, parent: string, child: string)
    requires ev.name == parent + "." + child
    requires '.' !in parent && '.' !in child
    ensures Lookup(FormChange(values, ev), parent) == Obj(Put(NestedBase(values, parent), child, ev.value))
    ensures forall k :: k != parent ==> Lookup(FormChange(values, ev), k) == Lookup(values, k)
    ensures Lookup(Put(NestedBase(values, parent), child, ev.value), child) == ev.value
    ensures forall k :: k != child ==> Lookup(Put(NestedBase(values, parent), child, ev.value), k)
                                        == Lookup(NestedBase(values, parent), k)
  {
    var name := ev.name;
    assert OccursAt(name, ".", |parent|);
    forall j | 0 <= j < |parent| ensures !OccursAt(name, ".", j) {
      assert name[j] == parent[j];
    }
    assert IndexOf(name, ".") == Some(|parent|);
    assert name[|parent| + 1..] == child;
    forall j | 0 <= j ensures !OccursAt(child, ".", j) {
      if j + 1 <= |child| {
        assert child[j] in child;
        assert child[j..j + 1] == [child[j]];
      }
    }
    assert ChildKey(child) == child;
    assert name[..|parent|] == parent;
    var inner := Obj(Put(NestedBase(values, parent), child, ev.value));
    assert FormChange(values, ev) == Put(values, parent, inner);
    UseApi.PutLookupAll(values, parent, inner);
    UseApi.PutLookupAll(NestedBase(values, parent), child, ev.value);
  }

  /**
   * A change to an undotted name sets only that name: every file for a
   * multi-file input, else `checked`, the first file or the value.
   */
  lemma FormChangeFlat(values: seq<Entry>, ev: ChangeEvent)
    requires '.' !in ev.name
    ensures Lookup(FormChange(values, ev), ev.name) ==
              if ev.inputType == "file" && |ev.files| > 1 then Arr(FileValues(ev.files)) else UseApi.InputValue(ev)
    ensures forall k :: k != ev.name ==> Lookup(FormChange(values, ev), k) == Lookup(values, k)
  {
    forall j | 0 <= j ensures !OccursAt(ev.name, ".", j) {
      if j + 1 <= |ev.name| {
        assert ev.name[j] in ev.name;
        assert ev.name[j..j + 1] == [ev.name[j]];
      }
    }
    var v := if ev.inputType == "file" && |ev.files| > 1 then Arr(FileValues(ev.files)) else UseApi.InputValue(ev);
    UseApi.PutLookupAll(values, ev.name, v);
  }

  /** Some value is a file or an array. */
  predicate HasFile(values: seq<Entry>) {
    exists i :: 0 <= i < |values| && (values[i].val.File? || values[i].val.Arr?)
  }

  /** Some value is a plain object (neither a file nor an array). */
  predicate HasNested(values: seq<Entry>) {
    exists i :: 0 <= i < |values| && values[i].val.Obj?
  }

  /** The multipart parts one property gives: none for `undefined` or `''`, one per element of an array. */
  function EntryParts(e: Entry): seq<Entry> {
    if e.val.Undefined? || e.val == Str("") then []
    else if e.val.Arr? then seq(|e.val.items|, i requires 0 <= i < |e.val.items| => Entry(e.key, e.val.items[i]))
    else [e]
  }

  /** The parts of a multipart body, property after property. */
  function Parts(es: seq<Entry>): seq<Entry> {
    if es == [] then [] else Parts(es[..|es| - 1]) + EntryParts(es[|es| - 1])
  }

  /** `x` is a value property `e` sends in a multipart body. */
  predicate Sends(e: Entry, x: Value) {
    if e.val.Arr? then x in e.val.items
    else !e.val.Undefined? && e.val != Str("") && x == e.val
  }

  /**
   * A multipart body holds exactly the properties that are neither
   * `undefined` nor `''` (`null` is sent), each array element as a part of
   * its own under the array's key.
   */
  lemma {:induction false} PartsContents(es: seq<Entry>, k: string, x: Value)
    ensures Entry(k, x) in Parts(es) <==> exists i :: 0 <= i < |es| && es[i].key == k && Sends(es[i], x)
  {
    if es != [] {
      var init := es[..|es| - 1];
      var last := es[|es| - 1];
      PartsContents(init, k, x);
      assert Entry(k, x) in EntryParts(last) <==> last.key == k && Sends(last, x) by {
        if last.val.Arr? && last.key == k && x in last.val.items {
          var j :| 0 <= j < |last.val.items| && last.val.items[j] == x;
          assert EntryParts(last)[j] == Entry(k, x);
        }
      }
      if exists i :: 0 <= i < |es| && es[i].key == k && Sends(es[i], x) {
        var i :| 0 <= i < |es| && es[i].key == k && Sends(es[i], x);
        if i < |es| - 1 {
          assert init[i] == es[i];
        }
      }
      if exists i :: 0 <= i < |init| && init[i].key == k && Sends(init[i], x) {
        var i :| 0 <= i < |init| && init[i].key == k && Sends(init[i], x);
        assert es[i] == init[i];
      }
    }
  }

  /** `buildPayload`'s choice: multipart when a file or array is present and no plain object is. */
  function PayloadFor(values: seq<Entry>): Body {
    if HasFile(values) && !HasNested(values) then FormData(Parts(values)) else JsonBody(Obj(values))
  }

  /** One `Object.entries` step of `buildPayload`: appends the parts the property gives. */
  method AppendParts(parts: seq<Entry>, e: Entry) returns (out: seq<Entry>)
    ensures out == parts + EntryParts(e)
  {
    out := parts;
    if e.val.Undefined? || e.val == Str("") {
      assert EntryParts(e) == [];
    } else if e.val.Arr? {
      var j := 0;
      while j < |e.val.items|
        invariant 0 <= j <= |e.val.items|
        invariant out == parts + EntryParts(e)[..j]
      {
        assert EntryParts(e)[..j + 1] == EntryParts(e)[..j] + [Entry(e.key, e.val.items[j])];
        out := out + [Entry(e.key, e.val.items[j])];
        j := j + 1;
      }
      assert EntryParts(e)[..j] == EntryParts(e);
    } else {
      out := out + [e];
    }
  }

  /** `buildPayload`: the form values as the body of a create or update request. */
  method BuildPayload(values: seq<Entry>) returns (body: Body)
    ensures body == PayloadFor(values)
    ensures body.FormData? <==> HasFile(values) && !HasNested(values)
    ensures body.JsonBody? ==> body.json == Obj(values)
  {
    var hasFile := HasFile(values);
    var hasNested := HasNested(values);
    if hasFile && !hasNested {
      var parts: seq<Entry> := [];
      var i := 0;
      while i < |values|
        invariant 0 <= i <= |values|
        invariant parts == Parts(values[..i])
      {
        assert values[..i + 1][..i] == values[..i];
        parts := AppendParts(parts, values[i]);
        i := i + 1;
      }
      assert values[..|values|] == values;
      body := FormData(parts);
    } else {
      body := JsonBody(Obj(values));
    }
  }

  /** The three empty translations a nested multilingual field starts from. */
  function EmptyTranslations(): Value {
    Obj([Entry("uz", Str("")), Entry("ru", Str("")), Entry("oz", Str(""))])
  }

  /**
   * The value the edit form starts from for one field: a nested field keeps
   * an object (or starts from empty translations); any other field shows an
   * object through `getText`, `null`/`undefined` as `''`, and anything else as it is.
   */
  function SeedValue(f: Field, record: Value): (v: Value)
    ensures !Nullish(v)
    ensures IsNestedField(f) ==> v == if IsObjectLike(Get(record, f.key)) then Get(record, f.key) else EmptyTranslations()
    ensures !IsNestedField(f) && Nullish(Get(record, f.key)) ==> v == Str("")
    ensures !IsNestedField(f) && (Get(record, f.key).Obj? || Get(record, f.key).Arr?) ==> v == GetText(Get(record, f.key), "uz")
    ensures !IsNestedField(f) && !Nullish(Get(record, f.key)) && !Get(record, f.key).Obj? && !Get(record, f.key).Arr? ==>
              v == Get(record, f.key)
  {
    var val := Get(record, f.key);
    if IsNestedField(f) then
      (if IsObjectLike(val) then val else EmptyTranslations())
    else if IsObjectLike(val) && !val.File? then GetText(val, "uz")
    else Coalesce(val, Str(""))
  }

  /** The form state `handleEditOpen` builds from the first `|fields|` fields. */
  function EditSeed(fields: seq<Field>, record: Value): seq<Entry> {
    if fields == [] then []
    else
      var prior := EditSeed(fields[..|fields| - 1], record);
      var f := fields[|fields| - 1];
      if IsFileField(f) then prior else Put(prior, f.key, SeedValue(f, record))
  }

  /** The edit form holds exactly the keys of the schema's non-file fields. */
  lemma {:induction false} EditSeedKeys(fields: seq<Field>, record: Value, k: string)
    ensures k in Keys(EditSeed(fields, record)) <==> exists i :: 0 <= i < |fields| && fields[i].key == k && !IsFileField(fields[i])
  {
    if fields != [] {
      var init := fields[..|fields| - 1];
      var f := fields[|fields| - 1];
      var prior := EditSeed(init, record);
      EditSeedKeys(init, record, k);
      if IsFileField(f) {
        assert EditSeed(fields, record) == prior;
      } else {
        assert EditSeed(fields, record) == Put(prior, f.key, SeedValue(f, record));
        PutKeys(prior, f.key, SeedValue(f, record));
      }
      if exists i :: 0 <= i < |fields| && fields[i].key == k && !IsFileField(fields[i]) {
        var i :| 0 <= i < |fields| && fields[i].key == k && !IsFileField(fields[i]);
        if i < |fields| - 1 {
          assert init[i] == fields[i];
        }
      }
      if exists i :: 0 <= i < |init| && init[i].key == k && !IsFileField(init[i]) {
        var i :| 0 <= i < |init| && init[i].key == k && !IsFileField(init[i]);
        assert fields[i] == init[i];
      }
    }
  }

  predicate DistinctFieldKeys(fields: seq<Field>) {
    forall i, j :: 0 <= i < j < |fields| ==> fields[i].key != fields[j].key
  }

  /** With distinct keys, each non-file field starts from its seed value. */
  lemma {:induction false} EditSeedLookup(fields: seq<Field>, record: Value, i: nat)
    requires DistinctFieldKeys(fields)
    requires i < |fields| && !IsFileField(fields[i])
    ensures Lookup(EditSeed(fields, record), fields[i].key) == SeedValue(fields[i], record)
  {
    var init := fields[..|fields| - 1];
    var f := fields[|fields| - 1];
    if i == |fields| - 1 {
      PutLookup(EditSeed(init, record), f.key, SeedValue(f, record), f.key);
    } else {
      assert init[i] == fields[i];
      EditSeedLookup(init, record, i);
      if !IsFileField(f) {
        PutLookup(EditSeed(init, record), f.key, SeedValue(f, record), fields[i].key);
      }
    }
  }

  /** A column shown first by preference: `title…`, `name…`, `fullName…` or `…_uz`. */
  predicate IsPreferredKey(key: string) {
    StartsWith(key, "title") || StartsWith(key, "name") || StartsWith(key, "fullName") || EndsWith(key, "_uz")
  }

  /** The schema without its file and multi-file fields. */
  function NonFile(fields: seq<Field>): (r: seq<Field>)
    ensures |r| <= |fields|
    ensures forall f :: f in r <==> f in fields && !IsFileField(f)
  {
    if fields == [] then []
    else (if IsFileField(fields[0]) then [] else [fields[0]]) + NonFile(fields[1..])
  }

  function PreferredAt(fs: seq<Field>, from: nat): (r: Option<nat>)
    ensures r.Some? ==> from <= r.value < |fs| && IsPreferredKey(fs[r.value].key)
    ensures r.Some? ==> forall j :: from <= j < r.value ==> !IsPreferredKey(fs[j].key)
    ensures r.None? ==> forall j :: from <= j < |fs| ==> !IsPreferredKey(fs[j].key)
    decreases |fs| - from
  {
    if from >= |fs| then None
    else if IsPreferredKey(fs[from].key) then Some(from)
    else PreferredAt(fs, from + 1)
  }

  function Min(a: nat, b: nat): nat {
    if a <= b then a else b
  }

  /**
   * The columns around the primary at `p`: it comes first, then the fields
   * before it and after it in schema order, four columns at most.
   */
  predicate ColumnsAround(nf: seq<Field>, p: nat, r: seq<Field>)
    requires p < |nf|
  {
    && |r| == Min(4, |nf|)
    && r[0] == nf[p]
    && forall k :: 1 <= k < |r| ==> r[k] == if k <= p then nf[k - 1] else nf[k]
  }

  /** The column at `p` first, then up to three of the others in order. */
  function PrimaryFirst(nf: seq<Field>, p: nat): (r: seq<Field>)
    requires p < |nf|
    ensures ColumnsAround(nf, p, r)
    ensures forall f :: f in r ==> f in nf
  {
    var others := nf[..p] + nf[p + 1..];
    assert forall f :: f in others ==> f in nf;
    [nf[p]] + others[..Min(3, |others|)]
  }

  /**
   * `displayFields`: the table's columns. The primary column comes first,
   * then up to three other non-file fields in schema order.
   */
  function DisplayFields(fields: seq<Field>): (r: seq<Field>)
    ensures |r| == Min(4, |NonFile(fields)|)
    ensures forall f :: f in r ==> f in fields && !IsFileField(f)
    ensures forall i :: (0 <= i < |NonFile(fields)| && IsPreferredKey(NonFile(fields)[i].key)
                         && forall j :: 0 <= j < i ==> !IsPreferredKey(NonFile(fields)[j].key)) ==> ColumnsAround(NonFile(fields), i, r)
    ensures (forall j :: 0 <= j < |NonFile(fields)| ==> !IsPreferredKey(NonFile(fields)[j].key)) && NonFile(fields) != [] ==>
              ColumnsAround(NonFile(fields), 0, r)
  {
    var nf := NonFile(fields);
    if nf == [] then []
    else
      match PreferredAt(nf, 0)
      case Some(p) => PrimaryFirst(nf, p)
      case None => PrimaryFirst(nf, 0)
  }

  datatype CrudState = CrudState(
    records: seq<Value>, loading: bool, createOpen: bool, editRecord: Value,
    deleteRecord: Value, formValues: seq<Entry>, submitting: bool, deleteLoading: bool)

  /** The state of one generic resource page and its handlers. */
  class CrudController {
    const endpoint: string
    /** `""` when the page has no separate create endpoint. */
    const createEndpoint: string
    const fields: seq<Field>
    var records: seq<Value>
    var loading: bool
    var createOpen: bool
    var editRecord: Value
    var deleteRecord: Value
    var formValues: seq<Entry>
    var submitting: bool
    var deleteLoading: bool

    function State(): CrudState
      reads this
    {
      CrudState(records, loading, createOpen, editRecord, deleteRecord, formValues, submitting, deleteLoading)
    }

    constructor (endpoint: string, createEndpoint: string, fields: seq<Field>)
      ensures this.endpoint == endpoint && this.createEndpoint == createEndpoint && this.fields == fields
      ensures State() == CrudState([], false, false, Null, Null, [], false, false)
    {
      this.endpoint, this.createEndpoint, this.fields := endpoint, createEndpoint, fields;
      records, loading, createOpen, editRecord, deleteRecord := [], false, false, Null, Null;
      formValues, submitting, deleteLoading := [], false, false;
    }

    /** `fetchRecords`: a loaded list replaces the records; a failure keeps them. */
    method FetchRecords(outcome: Outcome)
      modifies this
      ensures outcome.Ok? ==> State() == old(State()).(records := UnwrapRecords(outcome.data), loading := false)
      ensures outcome.Err? ==> State() == old(State()).(loading := false)
    {
      loading := true;
      if outcome.Ok? {
        records := UnwrapRecords(outcome.data);
      }
      loading := false;
    }

    method HandleFormChange(ev: ChangeEvent)
      modifies this
      ensures State() == old(State()).(formValues := FormChange(old(formValues), ev))
    {
      formValues := FormChange(formValues, ev);
    }

    /** The "Add New" button: an empty form in an open create dialog. */
    method OpenCreate()
      modifies this
      ensures State() == old(State()).(formValues := [], createOpen := true)
    {
      formValues := [];
      createOpen := true;
    }

    /**
     * `handleCreate`: posts the payload to the create endpoint (or the
     * resource endpoint); a success closes the dialog, empties the form and
     * reloads the list (`refetch` is that reload's outcome).
     */
    method HandleCreate(outcome: Outcome, refetch: Outcome) returns (req: Request)
      modifies this
      ensures req == Request(POST, if createEndpoint != "" then createEndpoint else endpoint, PayloadFor(old(formValues)))
      ensures outcome.Ok? ==> State() == old(State()).(
                createOpen := false, formValues := [], loading := false, submitting := false,
                records := if refetch.Ok? then UnwrapRecords(refetch.data) else old(records))
      ensures outcome.Err? ==> State() == old(State()).(submitting := false)
    {
      submitting := true;
      var payload := BuildPayload(formValues);
      var postUrl := if createEndpoint != "" then createEndpoint else endpoint;
      req := Request(POST, postUrl, payload);
      if outcome.Ok? {
        createOpen := false;
        formValues := [];
        FetchRecords(refetch);
      }
      submitting := false;
    }

    /** `handleEditOpen`: seeds the form from the record and opens it for editing. */
    method HandleEditOpen(record: Value)
      modifies this
      ensures State() == old(State()).(formValues := EditSeed(fields, record), editRecord := record)
    {
      var extracted: seq<Entry> := [];
      for i := 0 to |fields|
        invariant extracted == EditSeed(fields[..i], record)
      {
        assert fields[..i + 1][..i] == fields[..i];
        var f := fields[i];
        if !IsFileField(f) {
          extracted := Put(extracted, f.key, SeedValue(f, record));
        }
      }
      assert fields[..|fields|] == fields;
      formValues := extracted;
      editRecord := record;
    }

    /** `handleUpdate`: puts the payload to the record's URL; a success closes the editor and reloads. */
    method HandleUpdate(outcome: Outcome, refetch: Outcome) returns (req: Request)
      modifies this
      ensures req == Request(PUT, endpoint + "/" + ToJsString(GetId(old(editRecord))), PayloadFor(old(formValues)))
      ensures outcome.Ok? ==> State() == old(State()).(
                editRecord := Null, formValues := [], loading := false, submitting := false,
                records := if refetch.Ok? then UnwrapRecords(refetch.data) else old(records))
      ensures outcome.Err? ==> State() == old(State()).(submitting := false)
    {
      submitting := true;
      var payload := BuildPayload(formValues);
      req := Request(PUT, endpoint + "/" + ToJsString(GetId(editRecord)), payload);
      if outcome.Ok? {
        editRecord := Null;
        formValues := [];
        FetchRecords(refetch);
      }
      submitting := false;
    }

    /** The row's Delete button: marks the record for deletion. */
    method RequestDelete(record: Value)
      modifies this
      ensures State() == old(State()).(deleteRecord := record)
    {
      deleteRecord := record;
    }

    /**
     * `handleDelete`: a success drops every cached record with the deleted
     * record's id and clears the target; a failure changes nothing.
     */
    method HandleDelete(outcome: Outcome) returns (req: Request)
      modifies this
      ensures req == Request(DELETE, endpoint + "/" + ToJsString(GetId(old(deleteRecord))), NoBody)
      ensures outcome.Ok? ==> State() == old(State()).(
                records := RemoveById(old(records), GetId(old(deleteRecord))), deleteRecord := Null, deleteLoading := false)
      ensures outcome.Err? ==> State() == old(State()).(deleteLoading := false)
      ensures forall x :: x in records <==> x in old(records) && (outcome.Err? || GetId(x) != GetId(old(deleteRecord)))
    {
      deleteLoading := true;
      req := Request(DELETE, endpoint + "/" + ToJsString(GetId(deleteRecord)), NoBody);
      if outcome.Ok? {
        forall x ensures x in RemoveById(records, GetId(deleteRecord)) <==> x in records && GetId(x) != GetId(deleteRecord) {
          RemoveByIdMembers(records, GetId(deleteRecord), x);
        }
        records := RemoveById(records, GetId(deleteRecord));
        deleteRecord := Null;
      }
      deleteLoading := false;
    }
  }
}
