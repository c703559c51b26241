/**
 * The layout step of the create/edit form: the field schema is walked once and
 * every `_uz` field is merged with its `_oz` and `_ru` siblings into one
 * language group; a field without a language suffix stands alone.
 */
module RecordForm {
  import opened Options
  import opened Strings
  import opened FieldSchema

  datatype Group =
    | Single(field: Field)
    | LangGroup(base: string, caption: string, required: bool, uz: Field, oz: Option<Field>, ru: Option<Field>)

  /** A key ending in `_uz`, `_oz` or `_ru`. */
  predicate IsLangKey(key: string) {
    EndsWith(key, "_uz") || EndsWith(key, "_oz") || EndsWith(key, "_ru")
  }

  predicate IsUzKey(key: string) {
    EndsWith(key, "_uz")
  }

  /** The key without its language suffix. */
  function BaseKey(key: string): string
    requires IsLangKey(key)
  {
    key[..|key| - 3]
  }

  /** `fields.find(x => x.key === key)`: the first field with that key. */
  function FindField(fields: seq<Field>, key: string): (r: Option<Field>)
    ensures r.Some? ==> r.value in fields && r.value.key == key
    ensures r.None? ==> forall i :: 0 <= i < |fields| ==> fields[i].key != key
  {
    if fields == [] then None
    else if fields[0].key == key then Some(fields[0])
    else FindField(fields[1..], key)
  }

  function Count(o: Option<Field>): nat {
    if o.Some? then 1 else 0
  }

  /** One when some field of the schema, anywhere, has the key; else zero. */
  function HasKey(fields: seq<Field>, key: string): nat {
    if exists j :: 0 <= j < |fields| && fields[j].key == key then 1 else 0
  }

  /** The group a `_uz` field heads: its label loses ` (UZ)`, its required flag is the `_uz` field's. */
  function LanguageGroup(fields: seq<Field>, f: Field): (g: Group)
    requires IsUzKey(f.key)
    ensures g.LangGroup? && g.uz == f && g.base == BaseKey(f.key) && g.required == f.required
    ensures g.oz.Some? <==> HasKey(fields, g.base + "_oz") == 1
    ensures g.ru.Some? <==> HasKey(fields, g.base + "_ru") == 1
    ensures f in fields ==> GroupOf(fields, g)
  {
    var base := BaseKey(f.key);
    LangGroup(base, ReplaceFirst(f.caption, " (UZ)", ""), f.required, f,
              FindField(fields, base + "_oz"), FindField(fields, base + "_ru"))
  }

  /** Where the loop index goes from `i`: one past a `_uz` field and one more per sibling found. */
  function Advance(fields: seq<Field>, i: nat): (next: nat)
    requires i < |fields|
    ensures i + 1 <= next <= i + 3
    ensures !IsUzKey(fields[i].key) ==> next == i + 1
    ensures IsUzKey(fields[i].key) ==>
              next == i + 1 + HasKey(fields, BaseKey(fields[i].key) + "_oz") + HasKey(fields, BaseKey(fields[i].key) + "_ru")
  {
    if IsUzKey(fields[i].key) then
      var base := BaseKey(fields[i].key);
      i + 1 + Count(FindField(fields, base + "_oz")) + Count(FindField(fields, base + "_ru"))
    else i + 1
  }

  /** The groups the loop produces from index `i` on, as the code is written. */
  function GroupFrom(fields: seq<Field>, i: nat): seq<Group>
    decreases |fields| - i
  {
    if i >= |fields| then []
    else
      var f := fields[i];
      if IsUzKey(f.key) then [LanguageGroup(fields, f)] + GroupFrom(fields, Advance(fields, i))
      else if IsLangKey(f.key) then GroupFrom(fields, i + 1)
      else [Single(f)] + GroupFrom(fields, i + 1)
  }

  function GroupFields(fields: seq<Field>): (gs: seq<Group>)
    ensures forall g :: g in gs ==> GroupOf(fields, g)
  {
    GroupsWellFormed(fields, 0);
    GroupFrom(fields, 0)
  }

  /** One step of the loop at a `_uz` field: the group it pushes and where it goes next. */
  lemma UzStep(fields: seq<Field>, i: nat, g: Group, next: nat)
    requires i < |fields| && IsUzKey(fields[i].key)
    requires var base := BaseKey(fields[i].key);
             var oz := FindField(fields, base + "_oz");
             var ru := FindField(fields, base + "_ru");
             g == LangGroup(base, ReplaceFirst(fields[i].caption, " (UZ)", ""), fields[i].required, fields[i], oz, ru)
             && next == i + Count(oz) + Count(ru) + 1
    ensures GroupFrom(fields, i) == [g] + GroupFrom(fields, next)
  {
  }

  /** The grouping loop of `RecordForm`. */
  method BuildGroups(fields: seq<Field>) returns (groups: seq<Group>)
    ensures groups == GroupFields(fields)
  {
    groups := [];
    var i: nat := 0;
    while i < |fields|
      invariant groups + GroupFrom(fields, i) == GroupFields(fields)
      decreases |fields| - i
    {
      var f := fields[i];
      var isML := IsLangKey(f.key);
      if isML && IsUzKey(f.key) {
        var base := BaseKey(f.key);
        var oz := FindField(fields, base + "_oz");
        var ru := FindField(fields, base + "_ru");
        var g := LangGroup(base, ReplaceFirst(f.caption, " (UZ)", ""), f.required, f, oz, ru);
        var next := i + Count(oz) + Count(ru) + 1;
        UzStep(fields, i, g, next);
        assert (groups + [g]) + GroupFrom(fields, next) == groups + ([g] + GroupFrom(fields, next));
        groups := groups + [g];
        i := next;
      } else if isML {
        assert GroupFrom(fields, i) == GroupFrom(fields, i + 1);
        i := i + 1;
      } else {
        assert GroupFrom(fields, i) == [Single(f)] + GroupFrom(fields, i + 1);
        assert (groups + [Single(f)]) + GroupFrom(fields, i + 1) == groups + ([Single(f)] + GroupFrom(fields, i + 1));
        groups := groups + [Single(f)];
        i := i + 1;
      }
    }
  }

  /** What every group is made of. */
  predicate GroupOf(fields: seq<Field>, g: Group) {
    match g
    case Single(f) => f in fields && !IsLangKey(f.key)
    case LangGroup(base, caption, required, uz, oz, ru) =>
      && uz in fields && IsUzKey(uz.key) && base == BaseKey(uz.key)
      && caption == ReplaceFirst(uz.caption, " (UZ)", "") && required == uz.required
      && (oz.Some? ==> oz.value in fields && oz.value.key == base + "_oz")
      && (ru.Some? ==> ru.value in fields && ru.value.key == base + "_ru")
  }

  /**
   * A single group is never a language field; a language group is headed by a
   * `_uz` field of the schema, carries its label without ` (UZ)` and its
   * required flag, and its siblings are the schema's `_oz`/`_ru` fields of the same base.
   */
  lemma {:induction false} GroupsWellFormed(fields: seq<Field>, i: nat)
    ensures forall g :: g in GroupFrom(fields, i) ==> GroupOf(fields, g)
    decreases |fields| - i
  {
    if i < |fields| {
      var f := fields[i];
      if IsUzKey(f.key) {
        GroupsWellFormed(fields, Advance(fields, i));
      } else {
        GroupsWellFormed(fields, i + 1);
      }
    }
  }

  /** The fields shown alone, in order. */
  function Singles(gs: seq<Group>): seq<Field> {
    if gs == [] then []
    else if gs[0].Single? then [gs[0].field] + Singles(gs[1..])
    else Singles(gs[1..])
  }

  /** The `_uz` fields heading language groups, in order. */
  function Heads(gs: seq<Group>): seq<Field> {
    if gs == [] then []
    else if gs[0].LangGroup? then [gs[0].uz] + Heads(gs[1..])
    else Heads(gs[1..])
  }

  /** The schema's fields without a language suffix, from index `i` on. */
  function PlainFrom(fields: seq<Field>, i: nat): seq<Field>
    decreases |fields| - i
  {
    if i >= |fields| then []
    else if IsLangKey(fields[i].key) then PlainFrom(fields, i + 1)
    else [fields[i]] + PlainFrom(fields, i + 1)
  }

  /** The schema's `_uz` fields from index `i` on. */
  function UzFrom(fields: seq<Field>, i: nat): seq<Field>
    decreases |fields| - i
  {
    if i >= |fields| then []
    else if IsUzKey(fields[i].key) then [fields[i]] + UzFrom(fields, i + 1)
    else UzFrom(fields, i + 1)
  }

  /** The grouping as evidently intended: every position is visited once. */
  function GroupFromIntended(fields: seq<Field>, i: nat): seq<Group>
    decreases |fields| - i
  {
    if i >= |fields| then []
    else
      var f := fields[i];
      if IsUzKey(f.key) then [LanguageGroup(fields, f)] + GroupFromIntended(fields, i + 1)
      else if IsLangKey(f.key) then GroupFromIntended(fields, i + 1)
      else [Single(f)] + GroupFromIntended(fields, i + 1)
  }

  function GroupFieldsIntended(fields: seq<Field>): (gs: seq<Group>)
    ensures Singles(gs) == PlainFrom(fields, 0) && Heads(gs) == UzFrom(fields, 0)
  {
    IntendedCoversSchema(fields, 0);
    GroupFromIntended(fields, 0)
  }

  /**
   * Intended grouping: every field without a language suffix is shown alone
   * exactly once, in schema order, and every `_uz` field heads exactly one
   * group, in schema order.
   */
  lemma {:induction false} IntendedCoversSchema(fields: seq<Field>, i: nat)
    ensures Singles(GroupFromIntended(fields, i)) == PlainFrom(fields, i)
    ensures Heads(GroupFromIntended(fields, i)) == UzFrom(fields, i)
    decreases |fields| - i
  {
    if i < |fields| {
      IntendedCoversSchema(fields, i + 1);
      var f := fields[i];
      var rest := GroupFromIntended(fields, i + 1);
      if IsUzKey(f.key) {
        assert ([LanguageGroup(fields, f)] + rest)[1..] == rest;
      } else if !IsLangKey(f.key) {
        assert ([Single(f)] + rest)[1..] == rest;
      }
    }
  }

  /**
   * The schemas on which the loop's jump is harmless: the positions it jumps
   * over after a `_uz` field are `_oz`/`_ru` fields.
   */
  ghost predicate SiblingsFollow(fields: seq<Field>) {
    forall i, j :: 0 <= i < j < |fields| && j < Advance(fields, i) ==>
      IsLangKey(fields[j].key) && !IsUzKey(fields[j].key)
  }

  lemma {:induction false} IntendedSkips(fields: seq<Field>, i: nat, n: nat)
    requires i <= n
    requires forall j :: i <= j < n && j < |fields| ==> IsLangKey(fields[j].key) && !IsUzKey(fields[j].key)
    ensures GroupFromIntended(fields, i) == GroupFromIntended(fields, n)
    decreases n - i
  {
    if i < n && i < |fields| {
      IntendedSkips(fields, i + 1, n);
    }
  }

  /** When every `_uz` field's siblings directly follow it, the code groups as intended. */
  lemma {:induction false} AsWrittenMatchesIntended(fields: seq<Field>, i: nat)
    requires SiblingsFollow(fields)
    ensures GroupFrom(fields, i) == GroupFromIntended(fields, i)
    decreases |fields| - i
  {
    if i < |fields| {
      var f := fields[i];
      if IsUzKey(f.key) {
        var n := Advance(fields, i);
        AsWrittenMatchesIntended(fields, n);
        IntendedSkips(fields, i + 1, n);
      } else {
        AsWrittenMatchesIntended(fields, i + 1);
      }
    }
  }

  /** A schema with a plain field between a `_uz` field and its `_ru` sibling. */
  function SplitSiblings(): seq<Field> {
    [Field("title_uz", "Title (UZ)", Text, true),
     Field("date", "Date", Date, false),
     Field("title_ru", "Title (RU)", Text, false)]
  }

  /** `title_uz` heads a group, `date` has no suffix, `title_ru` is a sibling. */
  lemma SplitSiblingsKeys()
    ensures IsUzKey(SplitSiblings()[0].key)
    ensures !IsLangKey(SplitSiblings()[1].key)
    ensures IsLangKey(SplitSiblings()[2].key) && !IsUzKey(SplitSiblings()[2].key)
  {
    var fields := SplitSiblings();
    assert fields[0].key[5..] == "_uz";
    assert fields[1].key[1] != '_';
    assert fields[2].key[5..] == "_ru";
  }

  /** The schema has no `title_oz` field. */
  lemma SplitSiblingsNoOz()
    ensures FindField(SplitSiblings(), "title_oz") == None
  {
    var fields := SplitSiblings();
    assert fields[0].key[6] != 'o' && fields[1].key[0] != 't' && fields[2].key[6] != 'o';
  }

  /** Its `title_ru` field is the last one. */
  lemma SplitSiblingsRu()
    ensures FindField(SplitSiblings(), "title_ru") == Some(SplitSiblings()[2])
  {
    var fields := SplitSiblings();
    assert fields[0].key[6] != 'r' && fields[1].key[0] != 't';
    assert FindField(fields[2..], "title_ru") == Some(fields[2]);
  }

  /** From `title_uz` the loop finds one sibling and jumps two positions, onto `title_ru`. */
  lemma SplitSiblingsJump()
    ensures Advance(SplitSiblings(), 0) == 2
  {
    var fields := SplitSiblings();
    SplitSiblingsKeys();
    assert BaseKey(fields[0].key) == "title";
    SplitSiblingsNoOz();
    SplitSiblingsRu();
  }

  /** As written, the schema yields only the language group. */
  lemma SplitSiblingsAsWritten()
    ensures GroupFields(SplitSiblings()) == [LanguageGroup(SplitSiblings(), SplitSiblings()[0])]
  {
    var fields := SplitSiblings();
    SplitSiblingsKeys();
    SplitSiblingsJump();
    assert GroupFrom(fields, 2) == [];
    assert GroupFrom(fields, 0) == [LanguageGroup(fields, fields[0])] + GroupFrom(fields, 2);
  }

  /** As intended, `date` is shown alone. */
  lemma SplitSiblingsIntended()
    ensures Singles(GroupFieldsIntended(SplitSiblings())) == [SplitSiblings()[1]]
  {
    var fields := SplitSiblings();
    SplitSiblingsKeys();
    assert PlainFrom(fields, 3) == [];
    assert PlainFrom(fields, 2) == [];
    assert PlainFrom(fields, 1) == [fields[1]];
    assert PlainFrom(fields, 0) == [fields[1]];
    IntendedCoversSchema(fields, 0);
  }

  /**
   * As written, the loop jumps one position per sibling found, wherever the
   * sibling sits: in `[title_uz, date, title_ru]` the jump from `title_uz`
   * lands on `title_ru`, and `date` is never shown, though it has no suffix.
   */
  lemma SkippedFieldExample()
    ensures Singles(GroupFields(SplitSiblings())) == []
    ensures Singles(GroupFieldsIntended(SplitSiblings())) == [SplitSiblings()[1]]
    ensures !IsLangKey(SplitSiblings()[1].key)
  {
    SplitSiblingsAsWritten();
    SplitSiblingsIntended();
    SplitSiblingsKeys();
  }
}
