/**
 * Character cards: the validator and the published JSON Schema, two readings
 * of the same field tables.
 */
module Cards {
  import opened Common

  // ---- JSON ----

  /** A member name. The names the tables use are constructors; any other name is Other. */
  datatype Key =
    | Name | Nickname | Description | Personality | Scenario | FirstMes | MesExample | SystemPrompt
    | PostHistoryInstructions | AlternateGreetings | GroupOnlyGreetings | Tags | Creator | CharacterVersion
    | Source | CreatorNotes | CreatorNotesMultilingual | CreationDate | ModificationDate | Assets | CharacterBook
    | Extensions | ScanDepth | TokenBudget | RecursiveScanning | Entries
    | EntryKeys | Content | Enabled | InsertionOrder | CaseSensitive | Priority | Id | Comment | Selective
    | SecondaryKeys | Constant | Position | UseRegex | Type | Uri | Ext | Other(text: string)

  /** A number; plain when its literal has neither a fraction nor an exponent. */
  datatype Number = Number(value: real, plain: bool)

  datatype Json =
    | Null | Bool(b: bool) | Num(n: Number) | Str(s: string) | Arr(items: seq<Json>) | Obj(members: map<Key, Json>)

  predicate Integral(n: Number) { n.value.Floor as real == n.value }

  const MIN_INT64 := -0x8000_0000_0000_0000
  const MAX_INT64 := 0x7FFF_FFFF_FFFF_FFFF

  /** isInt: an integer literal that fits in an int64. */
  predicate IsInt(v: Json) { v.Num? && v.n.plain && Integral(v.n) && MIN_INT64 <= v.n.value.Floor <= MAX_INT64 }

  function Blank(s: string): bool { forall i :: 0 <= i < |s| ==> IsSpace(s[i]) }

  // ---- The field tables ----

  datatype Kind =
    | StringKind | StringArrayKind | StringObjectKind | IntKind | IntOrStringKind | BoolKind | ObjectKind
    | AssetsKind | BookKind | EntriesKind

  datatype Field = Field(name: Key, kind: Kind, required: bool)

  function DataFields(): seq<Field> {
    [Field(Name, StringKind, true), Field(Nickname, StringKind, false), Field(Description, StringKind, false),
    Field(Personality, StringKind, false), Field(Scenario, StringKind, false), Field(FirstMes, StringKind, false),
    Field(MesExample, StringKind, false), Field(SystemPrompt, StringKind, false),
    Field(PostHistoryInstructions, StringKind, false), Field(AlternateGreetings, StringArrayKind, false),
    Field(GroupOnlyGreetings, StringArrayKind, false), Field(Tags, StringArrayKind, false),
    Field(Creator, StringKind, false), Field(CharacterVersion, StringKind, false), Field(Source, StringArrayKind, false),
    Field(CreatorNotes, StringKind, false), Field(CreatorNotesMultilingual, StringObjectKind, false),
    Field(CreationDate, IntKind, false), Field(ModificationDate, IntKind, false), Field(Assets, AssetsKind, false),
    Field(CharacterBook, BookKind, false), Field(Extensions, ObjectKind, false)]
  }

  function BookFields(): seq<Field> {
    [Field(Name, StringKind, false), Field(Description, StringKind, false), Field(ScanDepth, IntKind, false),
    Field(TokenBudget, IntKind, false), Field(RecursiveScanning, BoolKind, false), Field(Extensions, ObjectKind, false),
    Field(Entries, EntriesKind, false)]
  }

  function EntryFields(): seq<Field> {
    [Field(EntryKeys, StringArrayKind, true), Field(Content, StringKind, true), Field(Enabled, BoolKind, true),
    Field(InsertionOrder, IntKind, true), Field(CaseSensitive, BoolKind, false), Field(Name, StringKind, false),
    Field(Priority, IntKind, false), Field(Id, IntOrStringKind, false), Field(Comment, StringKind, false),
    Field(Selective, BoolKind, false), Field(SecondaryKeys, StringArrayKind, false), Field(Constant, BoolKind, false),
    Field(Position, StringKind, false), Field(Extensions, ObjectKind, false), Field(UseRegex, BoolKind, false)]
  }

  function AssetFields(): seq<Key> { [Type, Uri, Name, Ext] }

  function Positions(): seq<string> { ["before_char", "after_char"] }

  /** How deep a kind reads tables of its own. */
  function Rank(k: Kind): nat { if k == BookKind then 2 else if k == EntriesKind then 1 else 0 }

  // ---- What the validator accepts ----

  predicate AllStrings(items: seq<Json>) { forall e :: e in items ==> e.Str? }

  predicate AssetOk(e: Json) { e.Obj? && forall n :: n in AssetFields() && n in e.members ==> e.members[n].Str? }

  predicate PositionOk(m: map<Key, Json>) { Position in m && m[Position].Str? ==> m[Position].s in Positions() }

  /** Every type is as the tables say, as far down as they go. */
  predicate Typed(v: Json, k: Kind)
    decreases Rank(k), 2
  {
    match k
    case StringKind => v.Str?
    case StringArrayKind => v.Arr? && AllStrings(v.items)
    case StringObjectKind => v.Obj? && forall n :: n in v.members ==> v.members[n].Str?
    case IntKind => IsInt(v)
    case IntOrStringKind => IsInt(v) || v.Str?
    case BoolKind => v.Bool?
    case ObjectKind => v.Obj?
    case AssetsKind => v.Arr? && forall e :: e in v.items ==> AssetOk(e)
    case BookKind => v.Obj? && MembersTyped(v.members, BookFields(), 2)
    case EntriesKind => v.Arr? && forall e :: e in v.items ==> e.Obj? && MembersTyped(e.members, EntryFields(), 1) && PositionOk(e.members)
  }

  /** rank bounds the table's kinds. */
  predicate MembersTyped(m: map<Key, Json>, fields: seq<Field>, rank: nat)
    decreases rank, 1
  {
    forall f :: f in fields ==> if f.name in m then Rank(f.kind) < rank && Typed(m[f.name], f.kind) else !f.required
  }

  /** No member is unknown, as far down as the tables go. */
  predicate Known(v: Json, k: Kind)
    decreases Rank(k), 2
  {
    match k
    case BookKind => v.Obj? ==> MembersKnown(v.members, BookFields(), 2)
    case EntriesKind => v.Arr? ==> forall e :: e in v.items && e.Obj? ==> MembersKnown(e.members, EntryFields(), 1)
    case _ => true
  }

  predicate InTable(n: Key, fields: seq<Field>) { exists f :: f in fields && f.name == n }

  predicate MembersKnown(m: map<Key, Json>, fields: seq<Field>, rank: nat)
    decreases rank, 1
  {
    (forall f :: f in fields && f.name in m && Rank(f.kind) < rank ==> Known(m[f.name], f.kind))
    && forall n :: n in m ==> InTable(n, fields)
  }

  predicate NameOk(m: map<Key, Json>) { Name in m && m[Name].Str? ==> !Blank(m[Name].s) }

  /** What Validate reports nothing about. */
  predicate Accepts(data: Json, allowUnknown: bool) {
    data.Obj? && MembersTyped(data.members, DataFields(), 3) && NameOk(data.members)
    && (allowUnknown || MembersKnown(data.members, DataFields(), 3))
  }

  // ---- The JSON Schema ----

  datatype JsonType = NullType | BooleanType | IntegerType | StringType | ArrayType | ObjectType

  /** additionalProperties: true, false or a schema. */
  datatype Extra = Open | Closed | Each(s: Schema)

  datatype Schema = Schema(
    types: seq<JsonType>, props: map<Key, Schema>, extra: Extra, required: set<Key>,
    items: Option<Schema>, enum: Option<seq<string>>)

  predicate HasType(v: Json, t: JsonType) {
    match t
    case NullType => v.Null?
    case BooleanType => v.Bool?
    case IntegerType => v.Num? && Integral(v.n)
    case StringType => v.Str?
    case ArrayType => v.Arr?
    case ObjectType => v.Obj?
  }

  /** Validation by the keywords type, enum, required, properties, additionalProperties and items. */
  predicate Conforms(v: Json, s: Schema)
    decreases s
  {
    (exists t :: t in s.types && HasType(v, t))
    && (s.enum.Some? ==> v.Str? && v.s in s.enum.value)
    && (v.Obj? ==> s.required <= v.members.Keys
                   && forall n :: n in v.members ==>
                     if n in s.props then Conforms(v.members[n], s.props[n])
                     else match s.extra case Open => true case Closed => false case Each(t) => Conforms(v.members[n], t))
    && (v.Arr? && s.items.Some? ==> forall e :: e in v.items ==> Conforms(e, s.items.value))
  }

  function Plain(types: seq<JsonType>): Schema { Schema(types, map[], Open, {}, None, None) }

  /** A member's place in the card, as the enums are keyed. */
  type Path = seq<Key>

  function FieldEnum(path: Path): Option<seq<string>> {
    if path == [CharacterBook, Entries, Position] then Some(Positions()) else None
  }

  function AssetProps(names: seq<Key>): map<Key, Schema> { map n | n in names :: Plain([StringType]) }

  /** kindSchema */
  function KindSchema(path: Path, k: Kind): Schema
    decreases Rank(k), 2, 0
  {
    match k
    case StringKind => Plain([StringType])
    case StringArrayKind => Plain([ArrayType]).(items := Some(Plain([StringType])))
    case StringObjectKind => Plain([ObjectType]).(extra := Each(Plain([StringType])))
    case IntKind => Plain([IntegerType])
    case IntOrStringKind => Plain([IntegerType, StringType])
    case BoolKind => Plain([BooleanType])
    case ObjectKind => Plain([ObjectType])
    case AssetsKind => Plain([ArrayType]).(items := Some(Plain([ObjectType]).(props := AssetProps(AssetFields()))))
    case BookKind => ObjectSchema(path, BookFields(), 2)
    case EntriesKind => Plain([ArrayType]).(items := Some(ObjectSchema(path, EntryFields(), 1)))
  }

  function MemberSchema(path: Path, k: Kind, rank: nat): Schema
    decreases rank, 0, 0
  {
    if Rank(k) < rank then KindSchema(path, k).(enum := FieldEnum(path)) else Plain([])
  }

  function Props(path: Path, fields: seq<Field>, rank: nat): map<Key, Schema>
    decreases rank, 1, |fields|
  {
    if fields == [] then map[]
    else
      var f := fields[|fields| - 1];
      Props(path, fields[..|fields| - 1], rank)[f.name := MemberSchema(path + [f.name], f.kind, rank)]
  }

  function Required(fields: seq<Field>): set<Key> { set f | f in fields && f.required :: f.name }

  /** objectSchema: closed, of the table's members. */
  function ObjectSchema(path: Path, fields: seq<Field>, rank: nat): Schema
    decreases rank, 1, |fields| + 1
  {
    Schema([ObjectType], Props(path, fields, rank), Closed, Required(fields), None, None)
  }

  function CardSchema(): Schema { ObjectSchema([], DataFields(), 3) }

  // ---- The tables ----

  ghost predicate Distinct(fields: seq<Field>) { forall i, j :: 0 <= i < j < |fields| ==> fields[i].name != fields[j].name }

  /** A table: no name twice, its kinds of lower rank. */
  ghost predicate Table(fields: seq<Field>, rank: nat) { Distinct(fields) && forall f :: f in fields ==> Rank(f.kind) < rank }

  function DataPlace(n: Key): int {
    match n
    case Name => 0 case Nickname => 1 case Description => 2 case Personality => 3 case Scenario => 4
    case FirstMes => 5 case MesExample => 6 case SystemPrompt => 7 case PostHistoryInstructions => 8 case AlternateGreetings => 9
    case GroupOnlyGreetings => 10 case Tags => 11 case Creator => 12 case CharacterVersion => 13 case Source => 14
    case CreatorNotes => 15 case CreatorNotesMultilingual => 16 case CreationDate => 17 case ModificationDate => 18 case Assets => 19
    case CharacterBook => 20 case Extensions => 21
    case _ => -1
  }

  function EntryPlace(n: Key): int {
    match n
    case EntryKeys => 0 case Content => 1 case Enabled => 2 case InsertionOrder => 3 case CaseSensitive => 4
    case Name => 5 case Priority => 6 case Id => 7 case Comment => 8 case Selective => 9
    case SecondaryKeys => 10 case Constant => 11 case Position => 12 case Extensions => 13 case UseRegex => 14
    case _ => -1
  }

  lemma DataFieldsAreDistinct()
    ensures Distinct(DataFields())
  {
    var fields := DataFields();
    assert forall i :: 0 <= i < |fields| ==> DataPlace(fields[i].name) == i;
    hide DataFields, DataPlace;
  }

  /** A field of the card's own table: only the book has a table of its own. */
  predicate AtTop(f: Field) { f.kind != EntriesKind && (f.kind == BookKind ==> f.name == CharacterBook) }

  lemma TopIsPlaced(fields: seq<Field>)
    requires forall i :: 0 <= i < |fields| ==> AtTop(fields[i])
    ensures Placed([], fields)
  {
  }

  lemma DataFieldsArePlaced()
    ensures Placed([], DataFields())
  {
    var fields := DataFields();
    assert forall i :: 0 <= i < |fields| ==> AtTop(fields[i]);
    hide DataFields, AtTop;
    TopIsPlaced(fields);
  }

  lemma DataFieldsAreATable()
    ensures Table(DataFields(), 3) && Placed([], DataFields())
  {
    DataFieldsAreDistinct();
    DataFieldsArePlaced();
    hide DataFields, Distinct, Placed;
  }

  lemma BookFieldsAreATable()
    ensures Table(BookFields(), 2) && Placed([CharacterBook], BookFields())
  {
    assert forall f :: f in BookFields() ==> f.kind != BookKind && (f.kind == EntriesKind ==> f.name == Entries);
  }

  lemma EntryFieldsAreDistinct()
    ensures Distinct(EntryFields())
  {
    var fields := EntryFields();
    assert forall i :: 0 <= i < |fields| ==> EntryPlace(fields[i].name) == i;
    hide EntryFields, EntryPlace;
  }

  lemma EntryFieldsAreATable()
    ensures Table(EntryFields(), 1) && Placed([CharacterBook, Entries], EntryFields())
    ensures Field(Position, StringKind, false) in EntryFields()
  {
    EntryFieldsAreDistinct();
    hide Distinct;
    assert EntryFields()[12] == Field(Position, StringKind, false);
    assert forall f :: f in EntryFields() ==> f.kind != EntriesKind && f.kind != BookKind;
    hide EntryFields;
  }

  /** A table's nested tables are where the enums expect them. */
  ghost predicate Placed(path: Path, fields: seq<Field>) {
    forall f :: f in fields ==>
      (f.kind == BookKind ==> path + [f.name] == [CharacterBook]) && (f.kind == EntriesKind ==> path + [f.name] == [CharacterBook, Entries])
  }

  lemma {:induction false} PropsLookUp(path: Path, fields: seq<Field>, rank: nat)
    requires Distinct(fields)
    ensures forall n :: n in Props(path, fields, rank) <==> InTable(n, fields)
    ensures forall f :: f in fields ==> (
      f.name in Props(path, fields, rank) && Props(path, fields, rank)[f.name] == MemberSchema(path + [f.name], f.kind, rank))
  {
    hide DataFields, BookFields, EntryFields, AssetFields, Positions;
    if fields != [] {
      var init, last := fields[..|fields| - 1], fields[|fields| - 1];
      PropsLookUp(path, init, rank);
      assert fields == init + [last];
      forall n ensures n in Props(path, fields, rank) <==> InTable(n, fields) {
        assert InTable(n, fields) <==> n == last.name || InTable(n, init);
      }
      forall f | f in init ensures f.name != last.name {
        var i :| 0 <= i < |init| && init[i] == f;
        assert fields[i].name != fields[|fields| - 1].name;
      }
    }
  }

  // ---- The two agree ----

  /** Every integral number where the tables want an integer is written as an int64 literal: 5, not 5.0, and not 2^63. */
  predicate Written(v: Json, k: Kind)
    decreases Rank(k), 2
  {
    match k
    case IntKind => v.Num? && Integral(v.n) ==> IsInt(v)
    case IntOrStringKind => v.Num? && Integral(v.n) ==> IsInt(v)
    case BookKind => v.Obj? ==> MembersWritten(v.members, BookFields(), 2)
    case EntriesKind => v.Arr? ==> forall e :: e in v.items && e.Obj? ==> MembersWritten(e.members, EntryFields(), 1)
    case _ => true
  }

  predicate MembersWritten(m: map<Key, Json>, fields: seq<Field>, rank: nat)
    decreases rank, 1
  {
    forall f :: f in fields && f.name in m && Rank(f.kind) < rank ==> Written(m[f.name], f.kind)
  }

  predicate InEnum(v: Json, e: Option<seq<string>>) { e.Some? ==> v.Str? && v.s in e.value }

  ghost predicate EnumsOk(m: map<Key, Json>, path: Path, fields: seq<Field>) {
    forall f :: f in fields && f.name in m ==> InEnum(m[f.name], FieldEnum(path + [f.name]))
  }

  lemma EnumAdds(v: Json, s: Schema, e: Option<seq<string>>)
    requires s.enum.None?
    ensures Conforms(v, s.(enum := e)) <==> Conforms(v, s) && InEnum(v, e)
  {
    hide DataFields, BookFields, EntryFields, AssetFields, Positions;
  }

  lemma OneType(v: Json, t: JsonType)
    ensures Conforms(v, Plain([t])) <==> HasType(v, t)
  {
    assert t in [t];
  }

  lemma StringsAgree(v: Json, path: Path)
    ensures Typed(v, StringArrayKind) <==> Conforms(v, KindSchema(path, StringArrayKind))
    ensures Typed(v, StringObjectKind) <==> Conforms(v, KindSchema(path, StringObjectKind))
  {
    hide DataFields, BookFields, EntryFields, AssetFields, Positions;
    assert ArrayType in [ArrayType] && ObjectType in [ObjectType];
    if v.Arr? { forall e | e in v.items ensures Conforms(e, Plain([StringType])) <==> e.Str? { OneType(e, StringType); } }
    if v.Obj? {
      forall n | n in v.members ensures Conforms(v.members[n], Plain([StringType])) <==> v.members[n].Str? { OneType(v.members[n], StringType); }
    }
  }

  lemma EitherAgrees(v: Json, path: Path)
    ensures Typed(v, IntOrStringKind) <==> Conforms(v, KindSchema(path, IntOrStringKind)) && Written(v, IntOrStringKind)
  {
    hide DataFields, BookFields, EntryFields, AssetFields, Positions;
    var ts := [IntegerType, StringType];
    assert IntegerType in ts && StringType in ts;
    assert KindSchema(path, IntOrStringKind).types == ts;
  }

  /** The kinds without tables of their own. */
  lemma SimpleKindAgrees(v: Json, path: Path, k: Kind)
    requires Rank(k) == 0 && k != AssetsKind
    ensures Typed(v, k) <==> Conforms(v, KindSchema(path, k)) && Written(v, k)
  {
    hide DataFields, BookFields, EntryFields, AssetFields, Positions;
    match k {
      case StringArrayKind => StringsAgree(v, path);
      case StringObjectKind => StringsAgree(v, path);
      case IntOrStringKind => EitherAgrees(v, path);
      case StringKind => OneType(v, StringType);
      case IntKind => OneType(v, IntegerType);
      case BoolKind => OneType(v, BooleanType);
      case ObjectKind => OneType(v, ObjectType);
    }
  }

  lemma AssetAgrees(e: Json)
    ensures AssetOk(e) <==> Conforms(e, Plain([ObjectType]).(props := AssetProps(AssetFields())))
  {
    hide DataFields, BookFields, EntryFields, AssetFields, Positions;
    assert ObjectType in [ObjectType];
    if e.Obj? {
      forall n | n in e.members ensures Conforms(e.members[n], Plain([StringType])) <==> e.members[n].Str? { OneType(e.members[n], StringType); }
      assert forall n :: n in AssetProps(AssetFields()) <==> n in AssetFields();
    }
  }

  lemma AssetsAgree(v: Json, path: Path)
    ensures Typed(v, AssetsKind) <==> Conforms(v, KindSchema(path, AssetsKind))
  {
    hide DataFields, BookFields, EntryFields, AssetFields, Positions;
    assert ArrayType in [ArrayType];
    if v.Arr? { forall e | e in v.items { AssetAgrees(e); } }
    hide AssetOk;
  }

  ghost predicate Reads(v: Json, k: Kind) { Typed(v, k) && Known(v, k) }

  ghost predicate ReadsMembers(m: map<Key, Json>, path: Path, fields: seq<Field>, rank: nat) {
    MembersTyped(m, fields, rank) && MembersKnown(m, fields, rank) && EnumsOk(m, path, fields)
  }

  ghost predicate PathOk(path: Path, k: Kind) {
    (k == BookKind ==> path == [CharacterBook]) && (k == EntriesKind ==> path == [CharacterBook, Entries])
  }

  lemma {:induction false} KindAgrees(v: Json, path: Path, k: Kind)
    requires PathOk(path, k)
    ensures Reads(v, k) <==> Conforms(v, KindSchema(path, k)) && Written(v, k)
    decreases Rank(k), 4
  {
    hide DataFields, BookFields, EntryFields, AssetFields, Positions;
    hide Conforms, AssetOk, AllStrings, IsInt;
    match k {
      case BookKind => BookAgrees(v, path);
      case EntriesKind => EntriesAgree(v, path);
      case AssetsKind => AssetsAgree(v, path);
      case _ => SimpleKindAgrees(v, path, k);
    }
  }

  lemma {:induction false} BookAgrees(v: Json, path: Path)
    requires PathOk(path, BookKind)
    ensures Reads(v, BookKind) <==> Conforms(v, KindSchema(path, BookKind)) && Written(v, BookKind)
    decreases 2, 3
  {
    BookFieldsAreATable();
    hide DataFields, BookFields, EntryFields, AssetFields, Positions;
    assert ObjectType in [ObjectType];
    if v.Obj? {
      MembersAgree(v.members, path, BookFields(), 2);
      assert EnumsOk(v.members, path, BookFields());
      hide MembersTyped, MembersKnown, MembersWritten, EnumsOk, Conforms;
      assert v == Obj(v.members);
    }
  }

  lemma {:induction false} EntriesAgree(v: Json, path: Path)
    requires PathOk(path, EntriesKind)
    ensures Reads(v, EntriesKind) <==> Conforms(v, KindSchema(path, EntriesKind)) && Written(v, EntriesKind)
    decreases 1, 3
  {
    hide DataFields, BookFields, EntryFields, AssetFields, Positions;
    assert ArrayType in [ArrayType];
    if v.Arr? {
      forall e | e in v.items
        ensures EntryOk(e) <==> Conforms(e, ObjectSchema(path, EntryFields(), 1)) && (e.Obj? ==> MembersWritten(e.members, EntryFields(), 1))
      {
        EntryAgrees(e, path);
      }
      hide MembersTyped, MembersKnown, MembersWritten, PositionOk, ObjectSchema;
    }
  }

  ghost predicate EntryOk(e: Json) {
    e.Obj? && MembersTyped(e.members, EntryFields(), 1) && PositionOk(e.members) && MembersKnown(e.members, EntryFields(), 1)
  }

  lemma {:induction false} EntryAgrees(e: Json, path: Path)
    requires path == [CharacterBook, Entries]
    ensures EntryOk(e) <==> Conforms(e, ObjectSchema(path, EntryFields(), 1)) && (e.Obj? ==> MembersWritten(e.members, EntryFields(), 1))
    decreases 1, 2
  {
    EntryFieldsAreATable();
    hide DataFields, BookFields, EntryFields, AssetFields, Positions, Table, Placed;
    assert ObjectType in [ObjectType];
    if e.Obj? {
      MembersAgree(e.members, path, EntryFields(), 1);
      PositionWhenTyped(e.members, path);
      hide MembersTyped, MembersKnown, MembersWritten, PositionOk, EnumsOk, Conforms, ObjectSchema;
      assert e == Obj(e.members);
    }
  }

  lemma PositionWhenTyped(m: map<Key, Json>, path: Path)
    requires path == [CharacterBook, Entries]
    ensures MembersTyped(m, EntryFields(), 1) ==> (PositionOk(m) <==> EnumsOk(m, path, EntryFields()))
  {
    if MembersTyped(m, EntryFields(), 1) { PositionIsTheEnum(m, path); }
  }

  lemma PositionIsTheEnum(m: map<Key, Json>, path: Path)
    requires path == [CharacterBook, Entries] && MembersTyped(m, EntryFields(), 1)
    ensures PositionOk(m) <==> EnumsOk(m, path, EntryFields())
  {
    EntryFieldsAreATable();
    var p := Field(Position, StringKind, false);
    hide EntryFields, Positions;
    forall n: Key ensures path + [n] == [CharacterBook, Entries, Position] <==> n == Position {
      assert (path + [n])[2] == n;
    }
    if Position in m {
      assert Typed(m[p.name], p.kind);
    }
  }

  lemma {:induction false} MemberAgrees(w: Json, path: Path, k: Kind, rank: nat)
    requires PathOk(path, k) && Rank(k) < rank
    ensures Reads(w, k) && InEnum(w, FieldEnum(path)) <==> Conforms(w, MemberSchema(path, k, rank)) && Written(w, k)
    decreases Rank(k), 5
  {
    KindAgrees(w, path, k);
    NoEnumYet(path, k);
    EnumAdds(w, KindSchema(path, k), FieldEnum(path));
    hide Typed, Known, Written, FieldEnum, KindSchema, Conforms, InEnum;
  }

  lemma NoEnumYet(path: Path, k: Kind)
    ensures KindSchema(path, k).enum.None?
  {
  }

  ghost predicate AgreesMemberwise(m: map<Key, Json>, path: Path, fields: seq<Field>, rank: nat) {
    forall f :: f in fields && f.name in m ==>
      (Reads(m[f.name], f.kind) && InEnum(m[f.name], FieldEnum(path + [f.name]))
       <==> Conforms(m[f.name], MemberSchema(path + [f.name], f.kind, rank)) && Written(m[f.name], f.kind))
  }

  /** What a table's schema asks of an object, by its fields. */
  ghost predicate ConformsMemberwise(m: map<Key, Json>, path: Path, fields: seq<Field>, rank: nat) {
    (forall f :: f in fields ==> if f.name in m then Conforms(m[f.name], MemberSchema(path + [f.name], f.kind, rank)) else !f.required)
    && forall n :: n in m ==> InTable(n, fields)
  }

  lemma ConformsByFields(m: map<Key, Json>, path: Path, fields: seq<Field>, rank: nat)
    requires Distinct(fields)
    ensures Conforms(Obj(m), ObjectSchema(path, fields, rank)) <==> ConformsMemberwise(m, path, fields, rank)
  {
    PropsLookUp(path, fields, rank);
    assert ObjectType in [ObjectType];
    hide DataFields, BookFields, EntryFields, AssetFields, Positions, MemberSchema, Props, Distinct;
  }

  lemma ObjectAgrees(m: map<Key, Json>, path: Path, fields: seq<Field>, rank: nat)
    requires Table(fields, rank) && AgreesMemberwise(m, path, fields, rank)
    ensures ReadsMembers(m, path, fields, rank) <==> Conforms(Obj(m), ObjectSchema(path, fields, rank)) && MembersWritten(m, fields, rank)
  {
    ConformsByFields(m, path, fields, rank);
    hide DataFields, BookFields, EntryFields, AssetFields, Positions;
    hide Typed, Known, Written, MemberSchema, ObjectSchema, Conforms, Rank, FieldEnum, InEnum, Distinct;
  }

  lemma {:induction false} MembersAgree(m: map<Key, Json>, path: Path, fields: seq<Field>, rank: nat)
    requires Table(fields, rank) && Placed(path, fields)
    ensures ReadsMembers(m, path, fields, rank) <==> Conforms(Obj(m), ObjectSchema(path, fields, rank)) && MembersWritten(m, fields, rank)
    decreases rank, 1
  {
    hide DataFields, BookFields, EntryFields, AssetFields, Positions;
    hide Typed, Known, Written, MemberSchema, ObjectSchema, FieldEnum, Props, InEnum, Distinct, Conforms, ReadsMembers, MembersWritten, Reads;
    forall f | f in fields && f.name in m
      ensures Reads(m[f.name], f.kind) && InEnum(m[f.name], FieldEnum(path + [f.name]))
        <==> Conforms(m[f.name], MemberSchema(path + [f.name], f.kind, rank)) && Written(m[f.name], f.kind)
    {
      MemberAgrees(m[f.name], path + [f.name], f.kind, rank);
    }
    ObjectAgrees(m, path, fields, rank);
  }

  /** With unknown members refused, Validate reports nothing exactly when the card conforms to the published schema, its name is not blank and its integers are written as int64 literals. */
  lemma ValidateMeetsSchema(data: Json)
    ensures Accepts(data, false)
      <==> Conforms(data, CardSchema()) && (data.Obj? ==> NameOk(data.members) && MembersWritten(data.members, DataFields(), 3))
  {
    hide DataFields, BookFields, EntryFields, AssetFields, Positions;
    DataFieldsAreATable();
    assert ObjectType in [ObjectType];
    if data.Obj? {
      MembersAgree(data.members, [], DataFields(), 3);
      assert EnumsOk(data.members, [], DataFields());
    }
  }

  // ---- The tables, name by name ----

  /** What a member of the card is to be. */
  function CardMember(n: Key): Option<Kind> {
    match n
    case Name | Nickname | Description | Personality | Scenario | FirstMes | MesExample | SystemPrompt => Some(StringKind)
    case PostHistoryInstructions | Creator | CharacterVersion | CreatorNotes => Some(StringKind)
    case AlternateGreetings | GroupOnlyGreetings | Tags | Source => Some(StringArrayKind)
    case CreatorNotesMultilingual => Some(StringObjectKind)
    case CreationDate | ModificationDate => Some(IntKind)
    case Assets => Some(AssetsKind)
    case CharacterBook => Some(BookKind)
    case Extensions => Some(ObjectKind)
    case _ => None
  }

  /** What a member of a lorebook entry is to be. */
  function EntryMember(n: Key): Option<Kind> {
    match n
    case EntryKeys | SecondaryKeys => Some(StringArrayKind)
    case Content | Name | Comment | Position => Some(StringKind)
    case Enabled | CaseSensitive | Selective | Constant | UseRegex => Some(BoolKind)
    case InsertionOrder | Priority => Some(IntKind)
    case Id => Some(IntOrStringKind)
    case Extensions => Some(ObjectKind)
    case _ => None
  }

  /** What a member of a lorebook is to be. */
  function BookMember(n: Key): Option<Kind> {
    match n
    case Name | Description => Some(StringKind)
    case ScanDepth | TokenBudget => Some(IntKind)
    case RecursiveScanning => Some(BoolKind)
    case Extensions => Some(ObjectKind)
    case Entries => Some(EntriesKind)
    case _ => None
  }

  const CARD_NEEDS := {Name}
  const ENTRY_NEEDS := {EntryKeys, Content, Enabled, InsertionOrder}

  /** f says what kindOf says, and is required if its name is in needed. */
  predicate Row(f: Field, rank: nat, kindOf: Key -> Option<Kind>, needed: set<Key>) {
    kindOf(f.name) == Some(f.kind) && Rank(f.kind) < rank && (f.required <==> f.name in needed)
  }

  ghost predicate Lists(fields: seq<Field>, rank: nat, kindOf: Key -> Option<Kind>, needed: set<Key>) {
    (forall f :: f in fields ==> Row(f, rank, kindOf, needed))
    && (forall n: Key :: kindOf(n).Some? ==> InTable(n, fields))
    && forall n :: n in needed ==> kindOf(n).Some?
  }

  ghost predicate ReadsByName(m: map<Key, Json>, kindOf: Key -> Option<Kind>, needed: set<Key>) {
    needed <= m.Keys && forall n :: n in m ==> kindOf(n).Some? && Typed(m[n], kindOf(n).value) && Known(m[n], kindOf(n).value)
  }

  lemma ReadByName(m: map<Key, Json>, fields: seq<Field>, rank: nat, kindOf: Key -> Option<Kind>, needed: set<Key>)
    requires Lists(fields, rank, kindOf, needed)
    ensures MembersTyped(m, fields, rank) && MembersKnown(m, fields, rank) <==> ReadsByName(m, kindOf, needed)
  {
    hide Typed, Known, Rank, DataFields, BookFields, EntryFields;
  }

  lemma DataPlaced(n: Key)
    requires DataPlace(n) >= 0
    ensures DataPlace(n) < |DataFields()| && DataFields()[DataPlace(n)].name == n
  {
  }

  lemma CardMemberHasPlace(n: Key)
    ensures CardMember(n).Some? ==> DataPlace(n) >= 0
  {
  }

  lemma CardMemberIsListed(n: Key)
    requires CardMember(n).Some?
    ensures InTable(n, DataFields())
  {
    CardMemberHasPlace(n);
    DataPlaced(n);
    hide DataFields, CardMember, DataPlace;
  }

  lemma DataRows()
    ensures forall f :: f in DataFields() ==> Row(f, 3, CardMember, CARD_NEEDS)
  {
    var fields := DataFields();
    assert forall i :: 0 <= i < |fields| ==> Row(fields[i], 3, CardMember, CARD_NEEDS);
    hide DataFields, Row;
  }

  lemma DataFieldsList()
    ensures Lists(DataFields(), 3, CardMember, CARD_NEEDS)
  {
    assert CardMember(Name).Some?;
    hide DataFields, CardMember, Row, InTable;
    DataRows();
    forall n: Key | CardMember(n).Some? ensures InTable(n, DataFields()) { CardMemberIsListed(n); }
  }

  lemma EntryPlaced(n: Key)
    requires EntryPlace(n) >= 0
    ensures EntryPlace(n) < |EntryFields()| && EntryFields()[EntryPlace(n)].name == n
  {
  }

  lemma EntryMemberHasPlace(n: Key)
    ensures EntryMember(n).Some? ==> EntryPlace(n) >= 0
  {
  }

  lemma EntryMemberIsListed(n: Key)
    requires EntryMember(n).Some?
    ensures InTable(n, EntryFields())
  {
    EntryMemberHasPlace(n);
    EntryPlaced(n);
    hide EntryFields, EntryMember, EntryPlace;
  }

  lemma EntryRows()
    ensures forall f :: f in EntryFields() ==> Row(f, 1, EntryMember, ENTRY_NEEDS)
  {
    var fields := EntryFields();
    assert forall i :: 0 <= i < |fields| ==> Row(fields[i], 1, EntryMember, ENTRY_NEEDS);
    hide EntryFields, Row;
  }

  lemma EntryFieldsList()
    ensures Lists(EntryFields(), 1, EntryMember, ENTRY_NEEDS)
  {
    assert forall n :: n in ENTRY_NEEDS ==> EntryMember(n).Some?;
    hide EntryFields, EntryMember, Row, InTable;
    EntryRows();
    forall n: Key | EntryMember(n).Some? ensures InTable(n, EntryFields()) { EntryMemberIsListed(n); }
  }

  function BookPlace(n: Key): int {
    match n
    case Name => 0 case Description => 1 case ScanDepth => 2 case TokenBudget => 3 case RecursiveScanning => 4
    case Extensions => 5 case Entries => 6
    case _ => -1
  }

  lemma BookPlaced(n: Key)
    requires BookMember(n).Some?
    ensures 0 <= BookPlace(n) < |BookFields()| && BookFields()[BookPlace(n)].name == n
  {
  }

  lemma BookFieldsList()
    ensures Lists(BookFields(), 2, BookMember, {})
  {
    var fields := BookFields();
    assert forall i :: 0 <= i < |fields| ==> Row(fields[i], 2, BookMember, {});
    hide BookFields, BookMember, BookPlace, Row;
    forall n: Key | BookMember(n).Some? ensures InTable(n, BookFields()) { BookPlaced(n); }
  }

  lemma NameIsText(m: map<Key, Json>)
    ensures ReadsByName(m, CardMember, CARD_NEEDS) ==> Name in m && m[Name].Str?
  {
    assert CardMember(Name) == Some(StringKind);
    hide CardMember, Known, DataFields, BookFields, EntryFields, MembersTyped;
  }

  /** A card is accepted exactly when it has a name that is not blank and every member is one the format defines, of its type. */
  lemma AcceptedByName(m: map<Key, Json>)
    ensures Accepts(Obj(m), false) <==> ReadsByName(m, CardMember, CARD_NEEDS) && Name in m && m[Name].Str? && !Blank(m[Name].s)
  {
    hide DataFields, Lists, MembersTyped, MembersKnown, CardMember, Known, Typed, Blank, ReadsByName, IsInt;
    DataFieldsList();
    ReadByName(m, DataFields(), 3, CardMember, CARD_NEEDS);
    NameIsText(m);
  }

  ghost predicate OneOfTwoPositions(m: map<Key, Json>) {
    Position in m ==> m[Position] == Str("before_char") || m[Position] == Str("after_char")
  }

  lemma PositionIsOneOfTwo(m: map<Key, Json>)
    requires ReadsByName(m, EntryMember, ENTRY_NEEDS)
    ensures PositionOk(m) <==> OneOfTwoPositions(m)
  {
    assert EntryMember(Position) == Some(StringKind);
    if Position in m { assert Typed(m[Position], StringKind); }
    var two := Positions();
    assert two[0] == "before_char" && two[1] == "after_char" && |two| == 2;
    hide EntryMember, Known, EntryFields, DataFields, BookFields;
  }

  /** An asset's type, uri, name and ext are text if it has them; its other members may be anything. */
  lemma AssetsByName(v: Json)
    ensures Typed(v, AssetsKind) <==> v.Arr? && forall e :: e in v.items ==>
      (e.Obj? && forall n :: n in e.members && (n == Type || n == Uri || n == Name || n == Ext) ==> e.members[n].Str?)
  {
    var names := AssetFields();
    assert names[0] == Type && names[1] == Uri && names[2] == Name && names[3] == Ext && |names| == 4;
    assert forall n :: n in names <==> n == Type || n == Uri || n == Name || n == Ext;
    hide AssetFields, EntryFields, DataFields, BookFields;
  }

  lemma EntriesRead(v: Json)
    ensures Typed(v, EntriesKind) && Known(v, EntriesKind)
      <==> v.Arr? && forall e :: e in v.items ==>
        (e.Obj? && PositionOk(e.members) && MembersTyped(e.members, EntryFields(), 1) && MembersKnown(e.members, EntryFields(), 1))
  {
    hide EntryFields, DataFields, BookFields, MembersTyped, MembersKnown, PositionOk, IsInt;
  }

  /**
   * A lorebook's entries are accepted exactly when each is an object with
   * keys, content, enabled and insertion_order, its members of their types
   * and its position one of two.
   */
  lemma EntriesByName(v: Json)
    ensures Typed(v, EntriesKind) && Known(v, EntriesKind)
      <==> v.Arr? && forall e :: e in v.items ==>
        (e.Obj? && ReadsByName(e.members, EntryMember, ENTRY_NEEDS) && OneOfTwoPositions(e.members))
  {
    hide EntryFields, DataFields, BookFields, Lists, MembersTyped, MembersKnown, ReadsByName, PositionOk, OneOfTwoPositions, Typed, Known, EntryMember;
    EntriesRead(v);
    EntryFieldsList();
    if v.Arr? {
      forall e | e in v.items && e.Obj? && ReadsByName(e.members, EntryMember, ENTRY_NEEDS)
        ensures PositionOk(e.members) <==> OneOfTwoPositions(e.members)
      {
        PositionIsOneOfTwo(e.members);
      }
      forall e | e in v.items && e.Obj?
        ensures MembersTyped(e.members, EntryFields(), 1) && MembersKnown(e.members, EntryFields(), 1)
          <==> ReadsByName(e.members, EntryMember, ENTRY_NEEDS)
      {
        ReadByName(e.members, EntryFields(), 1, EntryMember, ENTRY_NEEDS);
      }
    }
  }

  lemma BookRead(v: Json)
    ensures Typed(v, BookKind) && Known(v, BookKind)
      <==> v.Obj? && MembersTyped(v.members, BookFields(), 2) && MembersKnown(v.members, BookFields(), 2)
  {
    hide EntryFields, DataFields, BookFields, MembersTyped, MembersKnown, PositionOk, IsInt;
  }

  lemma BookByName(v: Json)
    ensures Typed(v, BookKind) && Known(v, BookKind) <==> v.Obj? && ReadsByName(v.members, BookMember, {})
  {
    hide EntryFields, DataFields, BookFields, Lists, MembersTyped, MembersKnown, ReadsByName, PositionOk, Typed, Known, BookMember;
    BookRead(v);
    BookFieldsList();
    if v.Obj? { ReadByName(v.members, BookFields(), 2, BookMember, {}); }
  }

  lemma TwoMembersRead(n: Key, v: Json, o: Key, w: Json, kindOf: Key -> Option<Kind>)
    requires n != o && kindOf(n).Some? && Typed(v, kindOf(n).value) && Known(v, kindOf(n).value)
    requires kindOf(o).Some? && Typed(w, kindOf(o).value) && Known(w, kindOf(o).value)
    ensures ReadsByName(map[n := v, o := w], kindOf, {n})
  {
    hide Typed, Known;
  }

  lemma TextReads(s: string)
    ensures Typed(Str(s), StringKind) && Known(Str(s), StringKind)
  {
  }

  /** A name and a text description make a card; */
  lemma DescribedIsAccepted(name: string, text: string)
    requires !Blank(name)
    ensures Accepts(Obj(map[Name := Str(name), Description := Str(text)]), false)
  {
    var m := map[Name := Str(name), Description := Str(text)];
    assert CardMember(Name) == Some(StringKind) && CardMember(Description) == Some(StringKind);
    hide Accepts, Blank, CardMember, DataFields, BookFields, EntryFields, Typed, Known, ReadsByName;
    AcceptedByName(m);
    TextReads(name);
    TextReads(text);
    TwoMembersRead(Name, Str(name), Description, Str(text), CardMember);
  }

  /** a lorebook entry without keys unmakes it. */
  lemma KeylessEntryIsRefused(m: map<Key, Json>, entry: map<Key, Json>)
    requires CharacterBook in m && m[CharacterBook].Obj? && Entries in m[CharacterBook].members
    requires m[CharacterBook].members[Entries].Arr? && Obj(entry) in m[CharacterBook].members[Entries].items && EntryKeys !in entry
    ensures !Accepts(Obj(m), false)
  {
    assert CardMember(CharacterBook) == Some(BookKind) && BookMember(Entries) == Some(EntriesKind);
    hide Accepts, Blank, Typed, Known, EntryMember, CardMember, BookMember, PositionOk, DataFields, BookFields, EntryFields;
    var book := m[CharacterBook];
    AcceptedByName(m);
    BookByName(book);
    EntriesByName(book.members[Entries]);
    assert Obj(entry).members == entry;
  }

  // ---- Integers the two read differently ----

  ghost function DatedCard(n: Number): Json { Obj(map[Name := Str("Ann"), CreationDate := Num(n)]) }

  predicate NameAlone(f: Field) { f.required <==> f.name == Name }

  lemma DatedFields()
    ensures Field(CreationDate, IntKind, false) in DataFields() && Field(Name, StringKind, true) in DataFields()
    ensures forall f :: f in DataFields() ==> NameAlone(f)
  {
    var fields := DataFields();
    assert fields[17] == Field(CreationDate, IntKind, false) && fields[0] == Field(Name, StringKind, true);
    assert forall i :: 0 <= i < |fields| ==> NameAlone(fields[i]);
    hide DataFields, NameAlone;
  }

  lemma DatedFieldsAreUnique()
    ensures forall f :: f in DataFields() && f.name == CreationDate ==> f == Field(CreationDate, IntKind, false)
    ensures forall f :: f in DataFields() && f.name == Name ==> f == Field(Name, StringKind, true)
  {
    DatedFields();
    DataFieldsAreATable();
    hide DataFields, Placed;
  }

  /** A table with a required name, an optional creation date, and nothing else required. */
  ghost predicate HasDate(fields: seq<Field>) {
    Distinct(fields) && (forall f :: f in fields ==> NameAlone(f))
    && Field(CreationDate, IntKind, false) in fields && Field(Name, StringKind, true) in fields
    && (forall f :: f in fields && f.name == CreationDate ==> f == Field(CreationDate, IntKind, false))
    && forall f :: f in fields && f.name == Name ==> f == Field(Name, StringKind, true)
  }

  lemma DatedReads(n: Number, fields: seq<Field>)
    requires HasDate(fields)
    ensures MembersTyped(DatedCard(n).members, fields, 3) <==> IsInt(Num(n))
    ensures MembersKnown(DatedCard(n).members, fields, 3) && Required(fields) == {Name}
  {
    DatedNames(n, fields);
    DatedTypes(n, fields);
  }

  lemma DatedNames(n: Number, fields: seq<Field>)
    requires HasDate(fields)
    ensures MembersKnown(DatedCard(n).members, fields, 3) && Required(fields) == {Name}
  {
    hide DataFields, BookFields, EntryFields, AssetFields, Positions, IsInt, Distinct, Typed;
    var date, name := Field(CreationDate, IntKind, false), Field(Name, StringKind, true);
    assert InTable(date.name, fields) && InTable(name.name, fields);
    assert name in fields && name.required;
  }

  lemma DatedTypes(n: Number, fields: seq<Field>)
    requires HasDate(fields)
    ensures MembersTyped(DatedCard(n).members, fields, 3) <==> IsInt(Num(n))
  {
    hide DataFields, BookFields, EntryFields, AssetFields, Positions, IsInt, Distinct;
    var m := DatedCard(n).members;
    var date, name := Field(CreationDate, IntKind, false), Field(Name, StringKind, true);
    assert date in fields && name in fields && m.Keys == {date.name, name.name};
    assert Typed(m[date.name], date.kind) <==> IsInt(Num(n));
  }

  lemma DatedSchema(fields: seq<Field>)
    requires HasDate(fields)
    ensures var props := Props([], fields, 3);
      Name in props && props[Name] == Plain([StringType]) && CreationDate in props && props[CreationDate] == Plain([IntegerType])
  {
    DatedMembers();
    var date, name := Field(CreationDate, IntKind, false), Field(Name, StringKind, true);
    assert [] + [date.name] == [CreationDate] && [] + [name.name] == [Name];
    hide DataFields, BookFields, EntryFields, AssetFields, Positions, Props, Distinct, MemberSchema, NameAlone;
    PropIs([], fields, 3, date);
    PropIs([], fields, 3, name);
  }

  lemma PropIs(path: Path, fields: seq<Field>, rank: nat, f: Field)
    requires Distinct(fields) && f in fields
    ensures f.name in Props(path, fields, rank) && Props(path, fields, rank)[f.name] == MemberSchema(path + [f.name], f.kind, rank)
  {
    PropsLookUp(path, fields, rank);
    hide DataFields, BookFields, EntryFields, AssetFields, Positions, Props, MemberSchema, Distinct;
  }

  lemma DatedMembers()
    ensures MemberSchema([CreationDate], IntKind, 3) == Plain([IntegerType]) && MemberSchema([Name], StringKind, 3) == Plain([StringType])
  {
  }

  lemma DataHasDate()
    ensures HasDate(DataFields())
  {
    DatedFields();
    DatedFieldsAreUnique();
    DataFieldsAreDistinct();
    hide DataFields, Distinct, NameAlone;
  }

  lemma DatedIsAcceptedIff(n: Number)
    ensures Accepts(DatedCard(n), false) <==> IsInt(Num(n))
  {
    DataHasDate();
    hide DataFields, BookFields, EntryFields, AssetFields, Positions, HasDate;
    DatedReads(n, DataFields());
    AnnIsAName();
    hide MembersTyped, MembersKnown, IsInt, Blank;
  }

  lemma AnnIsAName()
    ensures !Blank("Ann")
  {
    assert !IsSpace("Ann"[0]);
  }

  lemma DatedConformsTo(n: Number, s: Schema)
    requires s.types == [ObjectType] && s.extra == Closed && s.required == {Name} && s.items.None? && s.enum.None?
    requires Name in s.props && s.props[Name] == Plain([StringType])
    requires CreationDate in s.props && s.props[CreationDate] == Plain([IntegerType])
    ensures Conforms(DatedCard(n), s) <==> Integral(n)
  {
    OneType(Num(n), IntegerType);
    OneType(Str("Ann"), StringType);
    assert ObjectType in s.types;
  }

  lemma DatedConformsIff(n: Number)
    ensures Conforms(DatedCard(n), CardSchema()) <==> Integral(n)
  {
    DataHasDate();
    hide DataFields, BookFields, EntryFields, AssetFields, Positions, HasDate, Conforms, Props, Required;
    DatedReads(n, DataFields());
    DatedSchema(DataFields());
    DatedConformsTo(n, CardSchema());
  }

  /** 2^63 and 1.0 conform to the schema as creation dates; the validator refuses both. */
  lemma SchemaTakesMore()
    ensures Conforms(DatedCard(Number(9223372036854775808.0, true)), CardSchema()) && !Accepts(DatedCard(Number(9223372036854775808.0, true)), false)
    ensures Conforms(DatedCard(Number(1.0, false)), CardSchema()) && !Accepts(DatedCard(Number(1.0, false)), false)
  {
    DatedConformsIff(Number(9223372036854775808.0, true));
    DatedIsAcceptedIff(Number(9223372036854775808.0, true));
    DatedConformsIff(Number(1.0, false));
    DatedIsAcceptedIff(Number(1.0, false));
    hide Conforms, Accepts, DatedCard;
  }

  // ---- The checker ----

  datatype Segment = Member(n: Key) | Index(i: nat)

  datatype Issue = Issue(path: seq<Segment>, message: string)

  ghost predicate FieldTyped(m: map<Key, Json>, f: Field, rank: nat) {
    if f.name in m then Rank(f.kind) < rank && Typed(m[f.name], f.kind) else !f.required
  }

  ghost predicate FieldKnown(m: map<Key, Json>, f: Field, rank: nat) {
    f.name in m && Rank(f.kind) < rank ==> Known(m[f.name], f.kind)
  }

  class Checker {
    var issues: seq<Issue>
    var unknown: seq<seq<Segment>>

    constructor ()
      ensures issues == [] && unknown == []
    {
      issues, unknown := [], [];
    }

    method Add(path: seq<Segment>, message: string)
      modifies this`issues
      ensures issues == old(issues) + [Issue(path, message)]
    {
      issues := issues + [Issue(path, message)];
    }

    /** object: issues and unknown members are added exactly when there are any. */
    method CheckObject(prefix: seq<Segment>, m: map<Key, Json>, fields: seq<Field>, rank: nat)
      requires forall f :: f in fields ==> Rank(f.kind) < rank
      modifies this
      ensures old(issues) <= issues && (issues == old(issues) <==> MembersTyped(m, fields, rank))
      ensures old(unknown) <= unknown && (unknown == old(unknown) <==> MembersKnown(m, fields, rank))
      decreases rank, 1
    {
      hide Typed, Known;
      for i := 0 to |fields|
        invariant old(issues) <= issues && (issues == old(issues) <==> forall j :: 0 <= j < i ==> FieldTyped(m, fields[j], rank))
        invariant old(unknown) <= unknown && (unknown == old(unknown) <==> forall j :: 0 <= j < i ==> FieldKnown(m, fields[j], rank))
      {
        var f := fields[i];
        if f.name !in m {
          if f.required {
            Add(prefix + [Member(f.name)], "is required");
          }
          continue;
        }
        CheckValue(prefix + [Member(f.name)], m[f.name], f.kind);
      }
      assert issues == old(issues) <==> MembersTyped(m, fields, rank);
      CollectUnknown(prefix, m, fields);
    }

    method CollectUnknown(prefix: seq<Segment>, m: map<Key, Json>, fields: seq<Field>)
      modifies this`unknown
      ensures old(unknown) <= unknown && (unknown == old(unknown) <==> forall n :: n in m ==> InTable(n, fields))
    {
      var rest := m.Keys;
      while rest != {}
        invariant rest <= m.Keys && old(unknown) <= unknown
        invariant unknown == old(unknown) <==> forall n :: n in m && n !in rest ==> InTable(n, fields)
      {
        var n :| n in rest;
        if !InTable(n, fields) {
          unknown := unknown + [prefix + [Member(n)]];
        }
        rest := rest - {n};
      }
    }

    /** value */
    method CheckValue(path: seq<Segment>, v: Json, k: Kind)
      modifies this
      ensures old(issues) <= issues && (issues == old(issues) <==> Typed(v, k))
      ensures old(unknown) <= unknown && (unknown == old(unknown) <==> Known(v, k))
      decreases Rank(k), 3
    {
      match k
      case StringKind => if !v.Str? { Add(path, "must be text"); }
      case StringArrayKind => if !(v.Arr? && AllStrings(v.items)) { Add(path, "must be a list of text"); }
      case StringObjectKind =>
        if !(v.Obj? && forall n :: n in v.members ==> v.members[n].Str?) { Add(path, "must be an object of text values"); }
      case IntKind => if !IsInt(v) { Add(path, "must be a whole number"); }
      case IntOrStringKind => if !IsInt(v) && !v.Str? { Add(path, "must be a whole number or text"); }
      case BoolKind => if !v.Bool? { Add(path, "must be true or false"); }
      case ObjectKind => if !v.Obj? { Add(path, "must be an object"); }
      case AssetsKind => CheckAssets(path, v);
      case BookKind =>
        if !v.Obj? {
          Add(path, "must be an object");
        } else {
          BookFieldsAreATable();
          hide BookFields, EntryFields, MembersTyped, MembersKnown;
          CheckObject(path, v.members, BookFields(), 2);
        }
      case EntriesKind => CheckEntries(path, v);
    }

    /** assets */
    method CheckAssets(path: seq<Segment>, v: Json)
      modifies this`issues
      ensures old(issues) <= issues && (issues == old(issues) <==> Typed(v, AssetsKind))
    {
      if !v.Arr? {
        Add(path, "must be a list");
        return;
      }
      for i := 0 to |v.items|
        invariant old(issues) <= issues && (issues == old(issues) <==> forall j :: 0 <= j < i ==> AssetOk(v.items[j]))
      {
        var e, p := v.items[i], path + [Index(i)];
        if !e.Obj? {
          Add(p, "must be an object");
          continue;
        }
        var names := AssetFields();
        ghost var before := issues;
        for j := 0 to |names|
          invariant before <= issues
          invariant issues == before <==> forall l :: 0 <= l < j && names[l] in e.members ==> e.members[names[l]].Str?
        {
          if names[j] in e.members && !e.members[names[j]].Str? {
            Add(p + [Member(names[j])], "must be text");
          }
        }
        assert issues == before <==> AssetOk(e);
      }
    }

    /** entries */
    method CheckEntries(path: seq<Segment>, v: Json)
      modifies this
      ensures old(issues) <= issues && (issues == old(issues) <==> Typed(v, EntriesKind))
      ensures old(unknown) <= unknown && (unknown == old(unknown) <==> Known(v, EntriesKind))
      decreases 1, 2
    {
      EntryFieldsAreATable();
      hide EntryFields, BookFields, MembersTyped, MembersKnown;
      if !v.Arr? {
        Add(path, "must be a list");
        return;
      }
      for i := 0 to |v.items|
        invariant old(issues) <= issues && (issues == old(issues) <==> forall j :: 0 <= j < i ==> EntryTyped(v.items[j]))
        invariant old(unknown) <= unknown
        invariant unknown == old(unknown) <==> forall j :: 0 <= j < i && v.items[j].Obj? ==> MembersKnown(v.items[j].members, EntryFields(), 1)
      {
        var e, p := v.items[i], path + [Index(i)];
        if !e.Obj? {
          Add(p, "must be an object");
          continue;
        }
        CheckObject(p, e.members, EntryFields(), 1);
        if Position in e.members && e.members[Position].Str? && e.members[Position].s !in Positions() {
          Add(p + [Member(Position)], "must be before_char or after_char");
        }
      }
    }

    /** check */
    method Check(data: Json)
      requires issues == [] && unknown == []
      modifies this
      ensures issues == [] <==> data.Obj? && MembersTyped(data.members, DataFields(), 3) && NameOk(data.members)
      ensures unknown == [] <==> !data.Obj? || MembersKnown(data.members, DataFields(), 3)
    {
      if !data.Obj? {
        Add([], "must be an object");
        return;
      }
      DataFieldsAreATable();
      hide DataFields, MembersTyped, MembersKnown;
      CheckObject([], data.members, DataFields(), 3);
      if Name in data.members && data.members[Name].Str? && Blank(data.members[Name].s) {
        Add([Member(Name)], "must not be blank");
      }
    }
  }

  ghost predicate EntryTyped(e: Json) { e.Obj? && MembersTyped(e.members, EntryFields(), 1) && PositionOk(e.members) }

  /** Validate: the problems found, none exactly when the data is accepted. */
  method Validate(data: Json, allowUnknown: bool) returns (issues: seq<Issue>)
    ensures issues == [] <==> Accepts(data, allowUnknown)
  {
    var c := new Checker();
    c.Check(data);
    ghost var found := c.issues;
    if !allowUnknown {
      var unknown := c.unknown;
      for i := 0 to |unknown|
        invariant fresh(c) && |c.issues| == |found| + i && found <= c.issues
      {
        c.Add(unknown[i], "is not a card field");
      }
    }
    issues := c.issues;
  }

  /** objectSchema's loop over the table. */
  method BuildObjectSchema(path: Path, fields: seq<Field>, rank: nat) returns (s: Schema)
    ensures s == ObjectSchema(path, fields, rank)
  {
    var props: map<Key, Schema>, required: set<Key> := map[], {};
    for i := 0 to |fields|
      invariant props == Props(path, fields[..i], rank) && required == Required(fields[..i])
    {
      var f := fields[i];
      assert fields[..i + 1][..i] == fields[..i];
      props := props[f.name := MemberSchema(path + [f.name], f.kind, rank)];
      if f.required {
        required := required + {f.name};
      }
    }
    assert fields[..|fields|] == fields;
    s := Schema([ObjectType], props, Closed, required, None, None);
  }
}
