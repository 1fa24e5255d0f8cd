/**
 * models.py: the item and character records loaded from parsed JSON rows. A record is built
 * from its constructor parameters only, takes the next id of its class's counter, and the
 * character's item references are then resolved against the loaded items.
 */
module Models {
  import opened Wrappers

  /** A parsed JSON value (numbers, strings and arrays; the rows of the data files use no other). */
  datatype Json = JInt(n: int) | JStr(s: string) | JList(elems: seq<Json>)

  /** One parsed JSON object: a row of a data file. */
  type Row = map<string, Json>

  /** A constructor parameter of a dataclass, with its default when it has one. */
  datatype Param = Param(name: string, default: Option<Json>)

  /** The exceptions loading can raise. */
  datatype LoadError = KeyError(key: string) | IndexError | TypeError

  /** ItemModel's signature: name, damage=5 (id and _counter are not init parameters). */
  const ItemModelParams: seq<Param> := [Param("name", None), Param("damage", Some(JInt(5)))]

  /** MainCharModel's signature: name, damage=2, hp=10, items=[] (a fresh list per call). */
  const MainCharModelParams: seq<Param> :=
    [Param("name", None), Param("damage", Some(JInt(2))), Param("hp", Some(JInt(10))), Param("items", Some(JList([])))]

  /** The argument a parameter receives: the row's value, or else the default. */
  function ArgValue(row: Row, p: Param): Json
    requires p.name in row || p.default.Some?
  {
    if p.name in row then row[p.name] else p.default.value
  }

  /** The first parameter, if any, that is required and missing from the row. */
  function FirstMissing(params: seq<Param>, row: Row): (k: nat)
    ensures k <= |params|
    ensures forall j :: 0 <= j < k ==> params[j].default.Some? || params[j].name in row
    ensures k < |params| ==> params[k].default.None? && params[k].name !in row
    decreases |params|
  {
    if params == [] then 0
    else if params[0].default.None? && params[0].name !in row then 0
    else 1 + FirstMissing(params[1..], row)
  }

  /**
   * from_dict_to_dataclass: the arguments passed to the constructor, in signature order. A
   * required parameter missing from the row raises KeyError; row keys that are no parameter
   * are ignored.
   */
  function FromDict(params: seq<Param>, row: Row): (r: Result<seq<Json>, LoadError>)
    ensures r.Failure? <==> FirstMissing(params, row) < |params|
    ensures r.Failure? ==> r.error == KeyError(params[FirstMissing(params, row)].name)
    ensures r.Success? ==> |r.value| == |params| && forall i :: 0 <= i < |params| ==>
      (params[i].name in row || params[i].default.Some?) && r.value[i] == ArgValue(row, params[i])
  {
    var k := FirstMissing(params, row);
    if k < |params| then Failure(KeyError(params[k].name))
    else Success(seq(|params|, i requires 0 <= i < |params| => ArgValue(row, params[i])))
  }

  /** The first required parameter missing from the row is the one FromDict reports. */
  lemma {:induction false} FirstMissingIs(params: seq<Param>, row: Row, k: nat)
    requires k <= |params|
    requires forall j :: 0 <= j < k ==> params[j].default.Some? || params[j].name in row
    requires k < |params| ==> params[k].default.None? && params[k].name !in row
    ensures FirstMissing(params, row) == k
    decreases k
  {
    if k > 0 {
      FirstMissingIs(params[1..], row, k - 1);
    }
  }

  /** An ItemModel record. */
  datatype Item = Item(id: nat, name: Json, damage: Json)

  /** The Hand item a character without items gets: ItemModel(name="Hand"), damage 5. */
  function Hand(id: nat): Item
  {
    Item(id, JStr("Hand"), JInt(5))
  }

  /**
   * The value of a record field, as dataclasses.asdict and __setitem__ see it: a value taken
   * from the JSON row, an ItemModel, or the list of match lists that resolving a list field leaves.
   */
  datatype Value = Data(json: Json) | Record(item: Item) | Records(groups: seq<seq<Item>>)

  /** MainCharModel's dataclass fields. */
  datatype Field = Id | SortIndex | Counter | CurrentItem | Name | Damage | Hp | Items

  /** The attribute name of a field, as asdict reports it and __setitem__ accepts it. */
  function FieldName(f: Field): string
  {
    match f
    case Id => "id"
    case SortIndex => "sort_index"
    case Counter => "_counter"
    case CurrentItem => "current_item"
    case Name => "name"
    case Damage => "damage"
    case Hp => "hp"
    case Items => "items"
  }

  /** The fields in declaration order (id comes from BaseModel), the order asdict visits them in. */
  const MainCharFieldOrder: seq<Field> := [Id, SortIndex, Counter, CurrentItem, Name, Damage, Hp, Items]

  /** The position of a field in declaration order. */
  function FieldIndex(f: Field): (k: nat)
    ensures k < |MainCharFieldOrder| && MainCharFieldOrder[k] == f
  {
    match f
    case Id => 0
    case SortIndex => 1
    case Counter => 2
    case CurrentItem => 3
    case Name => 4
    case Damage => 5
    case Hp => 6
    case Items => 7
  }

  /** Each position holds the field whose position it is. */
  lemma FieldIndexOfPosition(j: nat)
    requires j < |MainCharFieldOrder|
    ensures FieldIndex(MainCharFieldOrder[j]) == j
  {
  }

  lemma EveryFieldVisited(f: Field)
    ensures f in MainCharFieldOrder
  {
    match f
    case Id => case SortIndex => case Counter => case CurrentItem =>
    case Name => case Damage => case Hp => case Items =>
  }

  /** The field values of one MainCharModel. */
  datatype CharRecord = CharRecord(
    id: Value, sortIndex: Value, counter: Value, currentItem: Value,
    name: Value, damage: Value, hp: Value, items: Value)
  {
    function Get(f: Field): Value
    {
      match f
      case Id => id
      case SortIndex => sortIndex
      case Counter => counter
      case CurrentItem => currentItem
      case Name => name
      case Damage => damage
      case Hp => hp
      case Items => items
    }

    /** __setitem__: one field takes the new value, the others keep theirs. */
    function Set(f: Field, v: Value): (r: CharRecord)
      ensures r.Get(f) == v
      ensures forall g :: g != f ==> r.Get(g) == Get(g)
    {
      match f
      case Id => this.(id := v)
      case SortIndex => this.(sortIndex := v)
      case Counter => this.(counter := v)
      case CurrentItem => this.(currentItem := v)
      case Name => this.(name := v)
      case Damage => this.(damage := v)
      case Hp => this.(hp := v)
      case Items => this.(items := v)
    }
  }

  /** Two records with the same value in every field are the same record. */
  lemma RecordsAgree(a: CharRecord, b: CharRecord)
    requires forall f :: a.Get(f) == b.Get(f)
    ensures a == b
  {
    assert a.Get(Id) == b.Get(Id) && a.Get(SortIndex) == b.Get(SortIndex) && a.Get(Counter) == b.Get(Counter);
    assert a.Get(CurrentItem) == b.Get(CurrentItem) && a.Get(Name) == b.Get(Name);
    assert a.Get(Damage) == b.Get(Damage) && a.Get(Hp) == b.Get(Hp) && a.Get(Items) == b.Get(Items);
  }

  /** len() of a JSON value; an int has none (TypeError). */
  function Length(j: Json): Option<nat>
  {
    match j
    case JInt(_) => None
    case JStr(s) => Some(|s|)
    case JList(es) => Some(|es|)
  }

  /** j[0] of a non-empty string or list. */
  function Head(j: Json): Json
    requires Length(j).Some? && Length(j).value > 0
  {
    match j
    case JStr(s) => JStr([s[0]])
    case JList(es) => es[0]
  }

  /** A character's fields, built together with the item counter after building them. */
  datatype Built = Built(record: CharRecord, itemCounter: nat)

  /**
   * MainCharModel(name, damage, hp, items) and its __post_init__, given the character id it takes
   * and the item counter before it. The sort index is the hit points; a character without items
   * holds a new Hand item, which takes the next item id; otherwise it holds its first item.
   */
  function InitMainChar(id: nat, name: Json, damage: Json, hp: Json, items: Json, itemCounter: nat): (r: Result<Built, LoadError>)
    ensures r.Failure? <==> Length(items).None?
    ensures r.Failure? ==> r.error == TypeError
    ensures r.Success? ==>
      && r.value.record.id == Data(JInt(id))
      && r.value.record.sortIndex == r.value.record.hp == Data(hp)
      && r.value.record.name == Data(name) && r.value.record.damage == Data(damage)
      && r.value.record.items == Data(items)
    ensures r.Success? && Length(items).value == 0 ==>
      r.value.record.currentItem == Record(Hand(itemCounter + 1)) && r.value.itemCounter == itemCounter + 1
    ensures r.Success? && Length(items).value > 0 ==>
      r.value.record.currentItem == Data(Head(items)) && r.value.itemCounter == itemCounter
  {
    match Length(items)
    case None => Failure(TypeError)
    case Some(n) =>
      var current := if n == 0 then Record(Hand(itemCounter + 1)) else Data(Head(items));
      var record := CharRecord(Data(JInt(id)), Data(hp), Data(JInt(0)), current, Data(name), Data(damage), Data(hp), Data(items));
      Success(Built(record, if n == 0 then itemCounter + 1 else itemCounter))
  }

  /**
   * The record carries the row's values: the required name, and damage, hp and items from the row
   * or their defaults; the sort index is the hit points.
   */
  predicate MadeFrom(rec: CharRecord, row: Row)
  {
    && "name" in row && rec.name == Data(row["name"])
    && rec.damage == Data(ArgValue(row, MainCharModelParams[1]))
    && rec.hp == Data(ArgValue(row, MainCharModelParams[2]))
    && rec.items == Data(ArgValue(row, MainCharModelParams[3]))
    && rec.sortIndex == rec.hp
  }

  /** from_dict_to_dataclass(MainCharModel, row), given the id it takes and the item counter before it. */
  function NewMainChar(row: Row, id: nat, itemCounter: nat): (r: Result<Built, LoadError>)
    ensures r.Success? ==> r.value.record.id == Data(JInt(id)) && MadeFrom(r.value.record, row)
    ensures r.Failure? ==> r.error == KeyError("name") || r.error == TypeError
  {
    match FromDict(MainCharModelParams, row)
    case Failure(e) => Failure(e)
    case Success(args) => InitMainChar(id, args[0], args[1], args[2], args[3], itemCounter)
  }

  /** The items loaded, or the error raised, and the item counter afterwards. */
  datatype ItemsLoaded = ItemsLoaded(items: Result<seq<Item>, LoadError>, itemCounter: nat)

  /**
   * create_dataclasses_from_json_data(ItemModel, rows): the items in row order. A bad row raises
   * after the rows before it have taken their ids.
   */
  function ItemRows(rows: seq<Row>, counter: nat): ItemsLoaded
    decreases |rows|
  {
    if rows == [] then ItemsLoaded(Success([]), counter)
    else
      match FromDict(ItemModelParams, rows[0])
      case Failure(e) => ItemsLoaded(Failure(e), counter)
      case Success(args) =>
        var rest := ItemRows(rows[1..], counter + 1);
        rest.(items := if rest.items.Success? then Success([Item(counter + 1, args[0], args[1])] + rest.items.value) else rest.items)
  }

  /**
   * Loaded items get consecutive ids in row order and their name and damage from the row (damage
   * 5 by default); any id key in a row plays no part.
   */
  lemma {:induction false} ItemRowsIds(rows: seq<Row>, counter: nat)
    requires ItemRows(rows, counter).items.Success?
    ensures var loaded := ItemRows(rows, counter);
      && |loaded.items.value| == |rows| && loaded.itemCounter == counter + |rows|
      && forall i :: 0 <= i < |rows| ==>
        && "name" in rows[i]
        && loaded.items.value[i] == Item(counter + i + 1, rows[i]["name"], ArgValue(rows[i], ItemModelParams[1]))
    decreases |rows|
  {
    if rows != [] {
      ItemRowsIds(rows[1..], counter + 1);
      assert forall i :: 1 <= i < |rows| ==> rows[i] == rows[1..][i - 1];
    }
  }

  /** A row without a name stops item loading with KeyError('name'); the rows before it took their ids. */
  lemma {:induction false} ItemRowsMissingName(rows: seq<Row>, counter: nat, k: nat)
    requires k < |rows| && "name" !in rows[k]
    requires forall j :: 0 <= j < k ==> "name" in rows[j]
    ensures ItemRows(rows, counter) == ItemsLoaded(Failure(KeyError("name")), counter + k)
    decreases k
  {
    if k == 0 {
      FirstMissingIs(ItemModelParams, rows[0], 0);
    } else {
      FirstMissingIs(ItemModelParams, rows[0], 2);
      ItemRowsMissingName(rows[1..], counter + 1, k - 1);
    }
  }

  /** The characters loaded, or the error raised, and both counters afterwards. */
  datatype CharsLoaded = CharsLoaded(chars: Result<seq<CharRecord>, LoadError>, charCounter: nat, itemCounter: nat)

  /**
   * One row of create_dataclasses_from_json_data(MainCharModel, rows): the character built, or
   * the error raised, and both counters afterwards. A character whose items have no length
   * raises after taking its id.
   */
  function CharOfRow(row: Row, charCounter: nat, itemCounter: nat): (r: CharsLoaded)
    ensures r.chars.Success? ==> |r.chars.value| == 1 && r.chars.value[0].id == Data(JInt(charCounter + 1))
    ensures r.chars.Success? ==> r.charCounter == charCounter + 1 && MadeFrom(r.chars.value[0], row)
  {
    match NewMainChar(row, charCounter + 1, itemCounter)
    case Failure(e) => CharsLoaded(Failure(e), if e == TypeError then charCounter + 1 else charCounter, itemCounter)
    case Success(made) => CharsLoaded(Success([made.record]), charCounter + 1, made.itemCounter)
  }

  /** Put loaded characters in front of what loading the remaining rows gives. */
  function PrependChars(done: seq<CharRecord>, rest: CharsLoaded): CharsLoaded
  {
    rest.(chars := if rest.chars.Success? then Success(done + rest.chars.value) else rest.chars)
  }

  /** create_dataclasses_from_json_data(MainCharModel, rows): the characters in row order; the first error stops loading. */
  function MainCharRows(rows: seq<Row>, charCounter: nat, itemCounter: nat): CharsLoaded
    decreases |rows|
  {
    if rows == [] then CharsLoaded(Success([]), charCounter, itemCounter)
    else
      var first := CharOfRow(rows[0], charCounter, itemCounter);
      if first.chars.Failure? then first
      else PrependChars(first.chars.value, MainCharRows(rows[1..], first.charCounter, first.itemCounter))
  }

  /** Loaded characters get consecutive ids in row order. */
  lemma {:induction false} MainCharRowsIds(rows: seq<Row>, charCounter: nat, itemCounter: nat)
    requires MainCharRows(rows, charCounter, itemCounter).chars.Success?
    ensures var loaded := MainCharRows(rows, charCounter, itemCounter);
      && |loaded.chars.value| == |rows| && loaded.charCounter == charCounter + |rows|
      && forall i :: 0 <= i < |rows| ==> loaded.chars.value[i].id == Data(JInt(charCounter + i + 1))
    decreases |rows|
  {
    if rows != [] {
      var first := CharOfRow(rows[0], charCounter, itemCounter);
      MainCharRowsIds(rows[1..], first.charCounter, first.itemCounter);
      var rest := MainCharRows(rows[1..], first.charCounter, first.itemCounter).chars.value;
      assert first.chars.value == [first.chars.value[0]];
      ConsecutiveIdsPrepend(first.chars.value[0], rest, charCounter);
    }
  }

  /** Loaded character i is made from row i: loading keeps the number and the order of the rows. */
  lemma {:induction false} MainCharRowsFields(rows: seq<Row>, charCounter: nat, itemCounter: nat)
    requires MainCharRows(rows, charCounter, itemCounter).chars.Success?
    ensures var loaded := MainCharRows(rows, charCounter, itemCounter).chars.value;
      && |loaded| == |rows|
      && forall i :: 0 <= i < |rows| ==> MadeFrom(loaded[i], rows[i])
    decreases |rows|
  {
    if rows != [] {
      var first := CharOfRow(rows[0], charCounter, itemCounter);
      MainCharRowsFields(rows[1..], first.charCounter, first.itemCounter);
      var head := first.chars.value[0];
      var rest := MainCharRows(rows[1..], first.charCounter, first.itemCounter).chars.value;
      assert first.chars.value == [head];
      assert MainCharRows(rows, charCounter, itemCounter).chars.value == [head] + rest;
      forall i | 1 <= i < |rows|
        ensures MadeFrom(([head] + rest)[i], rows[i])
      {
        assert ([head] + rest)[i] == rest[i - 1] && rows[i] == rows[1..][i - 1];
      }
    }
  }

  /** A character numbered just before a run of consecutive ids extends the run. */
  lemma ConsecutiveIdsPrepend(head: CharRecord, rest: seq<CharRecord>, charCounter: nat)
    requires head.id == Data(JInt(charCounter + 1))
    requires forall i :: 0 <= i < |rest| ==> rest[i].id == Data(JInt(charCounter + 1 + i + 1))
    ensures forall i :: 0 <= i < |[head] + rest| ==> ([head] + rest)[i].id == Data(JInt(charCounter + i + 1))
  {
  }

  /** [x for x in resolve_classes if x.id == ref]: the items an id reference picks, in item order. */
  function Matching(items: seq<Item>, ref: Option<int>): (r: seq<Item>)
    ensures |r| <= |items|
    ensures forall x :: x in r <==> x in items && ref == Some(x.id)
    decreases |items|
  {
    if items == [] then []
    else (if ref == Some(items[0].id) then [items[0]] else []) + Matching(items[1..], ref)
  }

  /** Every item with that id is matched as often as it occurs among the items, and no other item is. */
  lemma {:induction false} MatchingCount(items: seq<Item>, ref: Option<int>)
    ensures forall x :: multiset(Matching(items, ref))[x] == if ref == Some(x.id) then multiset(items)[x] else 0
    decreases |items|
  {
    if items != [] {
      assert items == [items[0]] + items[1..];
      MatchingCount(items[1..], ref);
    }
  }

  /**
   * Matching is a filter: over a concatenation it is the matches of each part, in order, and a
   * single item is kept exactly when its id is the reference.
   */
  lemma {:induction false} MatchingAppend(a: seq<Item>, b: seq<Item>, ref: Option<int>)
    ensures Matching(a + b, ref) == Matching(a, ref) + Matching(b, ref)
    decreases |a|
  {
    if a == [] {
      assert a + b == b;
    } else {
      var h := if ref == Some(a[0].id) then [a[0]] else [];
      assert (a + b)[0] == a[0] && (a + b)[1..] == a[1..] + b;
      assert Matching(a + b, ref) == h + Matching(a[1..] + b, ref);
      MatchingAppend(a[1..], b, ref);
      var ra, rb := Matching(a[1..], ref), Matching(b, ref);
      assert Matching(a, ref) == h + ra;
      assert h + (ra + rb) == (h + ra) + rb;
    }
  }

  /** The matches keep item order: they are the items with that id, each in its place. */
  lemma MatchingSingle(x: Item, ref: Option<int>)
    ensures Matching([x], ref) == if ref == Some(x.id) then [x] else []
  {
    assert [x][1..] == [];
  }

  /** The first item Matching picks is the earliest item with that id. */
  lemma {:induction false} MatchingFirst(items: seq<Item>, ref: Option<int>, j: nat)
    requires j < |items| && ref == Some(items[j].id)
    requires forall i :: 0 <= i < j ==> ref != Some(items[i].id)
    ensures Matching(items, ref) != [] && Matching(items, ref)[0] == items[j]
    decreases j
  {
    if j > 0 {
      MatchingFirst(items[1..], ref, j - 1);
    }
  }

  /** The id a value refers to: only an int does (a dict or a list never equals an id). */
  function ScalarRef(v: Value): Option<int>
  {
    if v.Data? && v.json.JInt? then Some(v.json.n) else None
  }

  /** isinstance(val, list) for the asdict form of a field value. */
  predicate IsList(v: Value)
  {
    (v.Data? && v.json.JList?) || v.Records?
  }

  /** The id each entry of a list value refers to; a resolved entry is itself a list and refers to none. */
  function ListRefs(v: Value): (refs: seq<Option<int>>)
    requires IsList(v)
    ensures v.Data? ==> |refs| == |v.json.elems|
    ensures v.Records? ==> |refs| == |v.groups|
  {
    if v.Data? then seq(|v.json.elems|, i requires 0 <= i < |v.json.elems| =>
      if v.json.elems[i].JInt? then Some(v.json.elems[i].n) else None)
    else seq(|v.groups|, _ => None)
  }

  /** Which resolve_to_n_data is meant: the one as written, or the one that keeps an existing record. */
  datatype Resolution = AsWritten | KeepRecords

  /**
   * One named field of resolve_to_n_data. A list becomes the list of its entries' match lists;
   * anything else becomes its first match, or raises IndexError. As written this includes an
   * ItemModel already in the field (asdict turns it into a dict, which equals no id); the
   * corrected resolution leaves such a field as it is.
   */
  function ResolveValue(v: Value, items: seq<Item>, how: Resolution): (r: Result<Value, LoadError>)
    ensures r.Failure? ==> r.error == IndexError
  {
    if IsList(v) then
      var refs := ListRefs(v);
      Success(Records(seq(|refs|, i requires 0 <= i < |refs| => Matching(items, refs[i]))))
    else if v.Record? && how == KeepRecords then Success(v)
    else
      var matches := Matching(items, ScalarRef(v));
      if |matches| == 0 then Failure(IndexError)
      else Success(Record(matches[0]))
  }

  /**
   * What resolving one field gives: a list the match lists of its entries; an item record, as
   * written, IndexError, and with records kept the record itself; a scalar its first match, and
   * IndexError exactly when no item has its id.
   */
  lemma ResolveValueMeaning(v: Value, items: seq<Item>, how: Resolution)
    ensures var r := ResolveValue(v, items, how);
      && (IsList(v) ==> (r.Success? && r.value.Records? && |r.value.groups| == |ListRefs(v)|
          && forall i :: 0 <= i < |ListRefs(v)| ==> r.value.groups[i] == Matching(items, ListRefs(v)[i])))
      && (v.Record? && how == AsWritten ==> r == Failure(IndexError))
      && (v.Record? && how == KeepRecords ==> r == Success(v))
      && (v.Data? && !IsList(v) ==> (r.Success? <==> exists x :: x in items && ScalarRef(v) == Some(x.id)))
      && (v.Data? && !IsList(v) && r.Success? ==> r == Success(Record(Matching(items, ScalarRef(v))[0])))
  {
    var matches := Matching(items, ScalarRef(v));
    if |matches| > 0 {
      assert matches[0] in matches;
    }
  }

  /** Whether resolve_to_n_data rewrites the field: it is named and its key is visited. */
  predicate Named(f: Field, names: seq<string>, keys: seq<Field>)
  {
    f in keys && FieldName(f) in names
  }

  /** The fields of one record after resolving the named ones, visiting its keys in order. */
  function ResolveKeys(rec: CharRecord, items: seq<Item>, names: seq<string>, keys: seq<Field>, how: Resolution): Result<CharRecord, LoadError>
    decreases |keys|
  {
    if keys == [] then Success(rec)
    else if FieldName(keys[0]) in names then
      match ResolveValue(rec.Get(keys[0]), items, how)
      case Failure(e) => Failure(e)
      case Success(v) => ResolveKeys(rec.Set(keys[0], v), items, names, keys[1..], how)
    else ResolveKeys(rec, items, names, keys[1..], how)
  }

  /**
   * Resolving a record fails exactly when a named field fails; otherwise each named field is
   * replaced by its resolution and every other field is unchanged.
   */
  lemma {:induction false} ResolveKeysFields(rec: CharRecord, items: seq<Item>, names: seq<string>, keys: seq<Field>, how: Resolution)
    requires forall i, j :: 0 <= i < j < |keys| ==> keys[i] != keys[j]
    ensures var r := ResolveKeys(rec, items, names, keys, how);
      && (r.Success? <==> forall f :: Named(f, names, keys) ==> ResolveValue(rec.Get(f), items, how).Success?)
      && (r.Failure? ==> r.error == IndexError)
      && (r.Success? ==> forall f ::
            r.value.Get(f) == if Named(f, names, keys) then ResolveValue(rec.Get(f), items, how).value else rec.Get(f))
    decreases |keys|
  {
    if keys != [] {
      var k0 := keys[0];
      var rest := keys[1..];
      assert forall k :: k in keys <==> k == k0 || k in rest;
      assert k0 !in rest;
      assert forall i, j :: 0 <= i < j < |rest| ==> rest[i] != rest[j] by {
        forall i, j | 0 <= i < j < |rest| ensures rest[i] != rest[j] {
          assert rest[i] == keys[i + 1] && rest[j] == keys[j + 1];
        }
      }
      if FieldName(k0) in names {
        var rv := ResolveValue(rec.Get(k0), items, how);
        if rv.Success? {
          ResolveKeysFields(rec.Set(k0, rv.value), items, names, rest, how);
        }
      } else {
        ResolveKeysFields(rec, items, names, rest, how);
      }
    }
  }

  /** resolve_to_n_data for one record: its fields in declaration order. */
  function ResolveFields(rec: CharRecord, items: seq<Item>, names: seq<string>, how: Resolution): Result<CharRecord, LoadError>
  {
    ResolveKeys(rec, items, names, MainCharFieldOrder, how)
  }

  /**
   * A record resolves exactly when each field whose name is listed resolves; the listed fields
   * are then replaced by their resolution and all others are kept.
   */
  lemma ResolveFieldsMeaning(rec: CharRecord, items: seq<Item>, names: seq<string>, how: Resolution)
    ensures var r := ResolveFields(rec, items, names, how);
      && (r.Success? <==> forall f :: FieldName(f) in names ==> ResolveValue(rec.Get(f), items, how).Success?)
      && (r.Failure? ==> r.error == IndexError)
      && (r.Success? ==> forall f ::
            r.value.Get(f) == if FieldName(f) in names then ResolveValue(rec.Get(f), items, how).value else rec.Get(f))
  {
    ResolveKeysFields(rec, items, names, MainCharFieldOrder, how);
    forall f: Field ensures f in MainCharFieldOrder {
      EveryFieldVisited(f);
    }
  }

  /** resolve_to_n_data over several records, record by record. */
  function ResolveAll(records: seq<CharRecord>, items: seq<Item>, names: seq<string>, how: Resolution): (r: Result<seq<CharRecord>, LoadError>)
    ensures r.Success? ==> |r.value| == |records|
    decreases |records|
  {
    if records == [] then Success([])
    else
      match ResolveFields(records[0], items, names, how)
      case Failure(e) => Failure(e)
      case Success(first) =>
        match ResolveAll(records[1..], items, names, how)
        case Failure(e) => Failure(e)
        case Success(rest) => Success([first] + rest)
  }

  /** ResolveAll succeeds exactly when every record resolves, and then resolves each one. */
  lemma {:induction false} ResolveAllRecords(records: seq<CharRecord>, items: seq<Item>, names: seq<string>, how: Resolution)
    ensures var r := ResolveAll(records, items, names, how);
      && (r.Success? <==> forall i :: 0 <= i < |records| ==> ResolveFields(records[i], items, names, how).Success?)
      && (r.Success? ==> forall i :: 0 <= i < |records| ==> r.value[i] == ResolveFields(records[i], items, names, how).value)
    decreases |records|
  {
    if records != [] {
      var head := ResolveFields(records[0], items, names, how);
      var tail := ResolveAll(records[1..], items, names, how);
      ResolveAllRecords(records[1..], items, names, how);
      assert forall i :: 1 <= i < |records| ==> records[i] == records[1..][i - 1];
      if head.Success? && tail.Success? {
        var all := [head.value] + tail.value;
        assert ResolveAll(records, items, names, how) == Success(all);
        assert forall i :: 1 <= i < |records| ==> all[i] == tail.value[i - 1];
      }
    }
  }

  /** The first record that fails to resolve decides the error. */
  lemma {:induction false} ResolveAllFailure(records: seq<CharRecord>, items: seq<Item>, names: seq<string>, how: Resolution, k: nat)
    requires k < |records|
    requires forall j :: 0 <= j < k ==> ResolveFields(records[j], items, names, how).Success?
    requires ResolveFields(records[k], items, names, how).Failure?
    ensures ResolveAll(records, items, names, how) == Failure(ResolveFields(records[k], items, names, how).error)
    decreases k
  {
    if k > 0 {
      ResolveAllFailure(records[1..], items, names, how, k - 1);
    }
  }

  /** The character fields resolved when the character is loaded. */
  const ResolvedFieldNames: seq<string> := ["current_item", "items"]

  /** DataModel's two attributes. */
  datatype Contents = Contents(items: seq<Item>, mainchar: CharRecord)

  /** What DataModel() produces, with both counters afterwards. */
  datatype Loaded = Loaded(data: Result<Contents, LoadError>, itemCounter: nat, charCounter: nat)

  /**
   * DataModel(): load the items, then the characters, resolve every character's current item and
   * items against the loaded items and keep the first character. No character raises IndexError.
   */
  function LoadDataModel(itemRows: seq<Row>, charRows: seq<Row>, itemCounter: nat, charCounter: nat, how: Resolution): Loaded
  {
    var items := ItemRows(itemRows, itemCounter);
    if items.items.Failure? then Loaded(Failure(items.items.error), items.itemCounter, charCounter)
    else
      var chars := MainCharRows(charRows, charCounter, items.itemCounter);
      var done := Loaded(Failure(IndexError), chars.itemCounter, chars.charCounter);
      if chars.chars.Failure? then done.(data := Failure(chars.chars.error))
      else
        match ResolveAll(chars.chars.value, items.items.value, ResolvedFieldNames, how)
        case Failure(e) => done.(data := Failure(e))
        case Success(resolved) =>
          if |resolved| == 0 then done
          else done.(data := Success(Contents(items.items.value, resolved[0])))
  }

  /** A character loaded without items holds the Hand item. */
  lemma HandForEmptyItems(row: Row, id: nat, itemCounter: nat)
    requires "name" in row
    requires "items" !in row || Length(row["items"]) == Some(0)
    ensures NewMainChar(row, id, itemCounter).Success?
    ensures NewMainChar(row, id, itemCounter).value.record.currentItem == Record(Hand(itemCounter + 1))
  {
    FirstMissingIs(MainCharModelParams, row, 4);
  }

  /** As written, a character already holding an item record cannot be resolved. */
  lemma RecordFailsAsWritten(rec: CharRecord, items: seq<Item>)
    requires rec.currentItem.Record?
    ensures ResolveFields(rec, items, ResolvedFieldNames, AsWritten) == Failure(IndexError)
  {
    ResolveValueMeaning(rec.currentItem, items, AsWritten);
    ResolveLoadedFields(rec, items, AsWritten);
  }

  /**
   * As written, loading fails with IndexError as soon as the first character was given no
   * items: its Hand item cannot be resolved.
   */
  lemma HandFailsAsWritten(itemRows: seq<Row>, charRows: seq<Row>, itemCounter: nat, charCounter: nat)
    requires ItemRows(itemRows, itemCounter).items.Success?
    requires |charRows| > 0 && "name" in charRows[0]
    requires "items" !in charRows[0] || Length(charRows[0]["items"]) == Some(0)
    requires MainCharRows(charRows, charCounter, ItemRows(itemRows, itemCounter).itemCounter).chars.Success?
    ensures LoadDataModel(itemRows, charRows, itemCounter, charCounter, AsWritten).data == Failure(IndexError)
  {
    var items := ItemRows(itemRows, itemCounter);
    var chars := MainCharRows(charRows, charCounter, items.itemCounter).chars.value;
    HandForEmptyItems(charRows[0], charCounter + 1, items.itemCounter);
    assert chars[0] == CharOfRow(charRows[0], charCounter, items.itemCounter).chars.value[0];
    RecordFailsAsWritten(chars[0], items.items.value);
    ResolveAllFailure(chars, items.items.value, ResolvedFieldNames, AsWritten, 0);
  }

  /** A single item and a single character named Hero without items. */
  const SwordRows: seq<Row> := [map["name" := JStr("Sword")]]
  const HeroRows: seq<Row> := [map["name" := JStr("Hero")]]

  /** As written, this data cannot be loaded. */
  lemma HeroFailsAsWritten()
    ensures LoadDataModel(SwordRows, HeroRows, 0, 0, AsWritten).data == Failure(IndexError)
  {
    SwordLoads();
    HeroBuilt(1);
    HandFailsAsWritten(SwordRows, HeroRows, 0, 0);
  }

  /** The Sword row loads as item 1 with the default damage. */
  lemma SwordLoads()
    ensures ItemRows(SwordRows, 0) == ItemsLoaded(Success([Item(1, JStr("Sword"), JInt(5))]), 1)
  {
    var row := SwordRows[0];
    FirstMissingIs(ItemModelParams, row, 2);
    var args := FromDict(ItemModelParams, row).value;
    assert args[0] == ArgValue(row, ItemModelParams[0]) == JStr("Sword");
    assert "damage" !in row;
    assert args[1] == ArgValue(row, ItemModelParams[1]) == JInt(5);
    assert SwordRows[1..] == [];
    assert ItemRows(SwordRows[1..], 1) == ItemsLoaded(Success([]), 1);
    assert [Item(1, args[0], args[1])] + [] == [Item(1, JStr("Sword"), JInt(5))];
  }

  /** The Hero row loads as character 1 holding a Hand item that takes the next item id. */
  lemma HeroBuilt(itemCounter: nat)
    ensures var loaded := MainCharRows(HeroRows, 0, itemCounter);
      && loaded.chars.Success? && |loaded.chars.value| == 1 && loaded.charCounter == 1
      && loaded.itemCounter == itemCounter + 1
      && loaded.chars.value[0].currentItem == Record(Hand(itemCounter + 1))
      && loaded.chars.value[0].items == Data(JList([]))
  {
    FirstMissingIs(MainCharModelParams, HeroRows[0], 4);
  }

  /** The fields resolved on loading are exactly current_item and items. */
  lemma ResolvedFieldsAre(f: Field)
    ensures FieldName(f) in ResolvedFieldNames <==> f == CurrentItem || f == Items
  {
    match f
    case Id => case SortIndex => case Counter => case CurrentItem =>
    case Name => case Damage => case Hp => case Items =>
  }

  /**
   * Resolving a loaded character: it succeeds exactly when current_item and items both resolve,
   * and then those two fields take their resolution while all others are kept.
   */
  lemma ResolveLoadedFields(rec: CharRecord, items: seq<Item>, how: Resolution)
    ensures var r := ResolveFields(rec, items, ResolvedFieldNames, how);
      var current := ResolveValue(rec.currentItem, items, how);
      var held := ResolveValue(rec.items, items, how);
      && (r.Success? <==> current.Success? && held.Success?)
      && (r.Failure? ==> r.error == IndexError)
      && (r.Success? ==> r.value == rec.(currentItem := current.value, items := held.value))
  {
    ResolveFieldsMeaning(rec, items, ResolvedFieldNames, how);
    forall f ensures FieldName(f) in ResolvedFieldNames <==> f == CurrentItem || f == Items {
      ResolvedFieldsAre(f);
    }
    var r := ResolveFields(rec, items, ResolvedFieldNames, how);
    if r.Success? {
      var current := ResolveValue(rec.Get(CurrentItem), items, how);
      var held := ResolveValue(rec.Get(Items), items, how);
      assert current.Success? && held.Success?;
      var expected := rec.(currentItem := current.value, items := held.value);
      forall f ensures r.value.Get(f) == expected.Get(f) {
      }
      RecordsAgree(r.value, expected);
    }
  }

  /** With existing records kept, a character holding a record and no items resolves to itself, its items becoming an empty list. */
  lemma RecordWithoutItemsResolves(rec: CharRecord, items: seq<Item>)
    requires rec.currentItem.Record? && rec.items == Data(JList([]))
    ensures ResolveFields(rec, items, ResolvedFieldNames, KeepRecords) == Success(rec.(items := Records([])))
  {
    assert ResolveValue(rec.currentItem, items, KeepRecords) == Success(rec.currentItem);
    ResolveValueMeaning(rec.items, items, KeepRecords);
    assert ResolveValue(rec.items, items, KeepRecords) == Success(Records([]));
    ResolveLoadedFields(rec, items, KeepRecords);
  }

  lemma SingleRecordResolves(rec: CharRecord, items: seq<Item>)
    requires rec.currentItem.Record? && rec.items == Data(JList([]))
    ensures ResolveAll([rec], items, ResolvedFieldNames, KeepRecords) == Success([rec.(items := Records([]))])
  {
    RecordWithoutItemsResolves(rec, items);
    assert [rec][1..] == [];
    assert ResolveAll([rec][1..], items, ResolvedFieldNames, KeepRecords) == Success([]);
    assert [rec.(items := Records([]))] + [] == [rec.(items := Records([]))];
  }

  /** With existing records kept, Hero loads holding a Hand item numbered after the Sword. */
  lemma HeroLoadsCorrected()
    ensures var loaded := LoadDataModel(SwordRows, HeroRows, 0, 0, KeepRecords);
      && loaded.data.Success?
      && loaded.data.value.items == [Item(1, JStr("Sword"), JInt(5))]
      && loaded.data.value.mainchar.currentItem == Record(Hand(2))
      && loaded.itemCounter == 2 && loaded.charCounter == 1
  {
    SwordLoads();
    HeroBuilt(1);
    var chars := MainCharRows(HeroRows, 0, 1).chars.value;
    assert chars == [chars[0]];
    SingleRecordResolves(chars[0], [Item(1, JStr("Sword"), JInt(5))]);
  }

  // ---- The records as objects: counters, construction and in-place resolution ----

  /** ItemModel._counter and MainCharModel._counter: class-wide, bumped by every construction. */
  class ModelCounters {
    var itemCounter: nat
    var mainCharCounter: nat

    constructor ()
      ensures itemCounter == 0 && mainCharCounter == 0
    {
      itemCounter, mainCharCounter := 0, 0;
    }

    /** ItemModel(name, damage): __post_init__ gives the item the next item id. */
    method NewItemModel(name: Json, damage: Json) returns (item: Item)
      modifies this
      ensures itemCounter == old(itemCounter) + 1 && mainCharCounter == old(mainCharCounter)
      ensures item == Item(itemCounter, name, damage)
    {
      itemCounter := itemCounter + 1;
      item := Item(itemCounter, name, damage);
    }

    /**
     * MainCharModel(name, damage, hp, items): __post_init__ takes the next character id before
     * it looks at the items, so a TypeError leaves the character counter bumped.
     */
    method NewMainCharModel(name: Json, damage: Json, hp: Json, items: Json) returns (r: Result<MainCharModel, LoadError>)
      modifies this
      ensures mainCharCounter == old(mainCharCounter) + 1
      ensures var spec := InitMainChar(mainCharCounter, name, damage, hp, items, old(itemCounter));
        && (r.Success? <==> spec.Success?)
        && (r.Failure? ==> r.error == spec.error && itemCounter == old(itemCounter))
        && (r.Success? ==> fresh(r.value) && r.value.record == spec.value.record && itemCounter == spec.value.itemCounter)
    {
      mainCharCounter := mainCharCounter + 1;
      var id := mainCharCounter;
      var n := Length(items);
      if n.None? {
        return Failure(TypeError);
      }
      var current;
      if n.value == 0 {
        var hand := NewItemModel(JStr("Hand"), JInt(5));
        current := Record(hand);
      } else {
        current := Data(Head(items));
      }
      var model := new MainCharModel(CharRecord(Data(JInt(id)), Data(hp), Data(JInt(0)), current, Data(name), Data(damage), Data(hp), Data(items)));
      return Success(model);
    }
  }

  /** A MainCharModel record; __setitem__ writes its fields by name. */
  class MainCharModel {
    var record: CharRecord

    constructor (record: CharRecord)
      ensures this.record == record
    {
      this.record := record;
    }

    /** __setitem__(key, value). */
    method SetItem(f: Field, v: Value)
      modifies this
      ensures record == old(record).Set(f, v)
    {
      record := record.Set(f, v);
    }
  }

  /** Put loaded items in front of what loading the remaining rows gives. */
  function PrependItems(done: seq<Item>, rest: ItemsLoaded): ItemsLoaded
  {
    rest.(items := if rest.items.Success? then Success(done + rest.items.value) else rest.items)
  }

  /** create_dataclasses_from_json_data(ItemModel, rows). */
  method CreateItems(counters: ModelCounters, rows: seq<Row>) returns (r: Result<seq<Item>, LoadError>)
    modifies counters
    ensures ItemsLoaded(r, counters.itemCounter) == ItemRows(rows, old(counters.itemCounter))
    ensures counters.mainCharCounter == old(counters.mainCharCounter)
  {
    ghost var spec := ItemRows(rows, counters.itemCounter);
    var items: seq<Item> := [];
    assert rows[0..] == rows;
    assert PrependItems(items, spec) == spec by {
      if spec.items.Success? {
        assert items + spec.items.value == spec.items.value;
      }
    }
    for i := 0 to |rows|
      invariant PrependItems(items, ItemRows(rows[i..], counters.itemCounter)) == spec
      invariant counters.mainCharCounter == old(counters.mainCharCounter)
    {
      assert rows[i..][1..] == rows[i + 1..];
      var args := FromDict(ItemModelParams, rows[i]);
      if args.Failure? {
        return Failure(args.error);
      }
      var item := counters.NewItemModel(args.value[0], args.value[1]);
      assert items + [item] + [] == items + [item];
      assert forall t :: items + ([item] + t) == items + [item] + t;
      items := items + [item];
    }
    assert rows[|rows|..] == [];
    assert items + [] == items;
    return Success(items);
  }

  function RecordsOf(models: seq<MainCharModel>): seq<CharRecord>
    reads models
  {
    seq(|models|, i requires 0 <= i < |models| reads models => models[i].record)
  }

  lemma RecordsOfAppend(models: seq<MainCharModel>, m: MainCharModel)
    ensures RecordsOf(models + [m]) == RecordsOf(models) + [m.record]
  {
  }

  predicate DistinctModels(models: seq<MainCharModel>)
  {
    forall i, j :: 0 <= i < j < |models| ==> models[i] != models[j]
  }

  /** from_dict_to_dataclass(MainCharModel, row): the character of one row, as CharOfRow describes it. */
  method MainCharFromRow(counters: ModelCounters, row: Row) returns (r: Result<MainCharModel, LoadError>)
    modifies counters
    ensures CharOfRow(row, old(counters.mainCharCounter), old(counters.itemCounter))
      == CharsLoaded(if r.Success? then Success([r.value.record]) else Failure(r.error), counters.mainCharCounter, counters.itemCounter)
    ensures r.Success? ==> fresh(r.value)
  {
    var args := FromDict(MainCharModelParams, row);
    if args.Failure? {
      return Failure(args.error);
    }
    r := counters.NewMainCharModel(args.value[0], args.value[1], args.value[2], args.value[3]);
  }

  /** The loop of create_dataclasses_from_json_data, one row further: what is left to load shrinks by the row. */
  lemma PrependCharsStep(done: seq<CharRecord>, rows: seq<Row>, i: nat, charCounter: nat, itemCounter: nat)
    requires i < |rows|
    ensures var first := CharOfRow(rows[i], charCounter, itemCounter);
      PrependChars(done, MainCharRows(rows[i..], charCounter, itemCounter))
      == if first.chars.Failure? then first
         else PrependChars(done + first.chars.value, MainCharRows(rows[i + 1..], first.charCounter, first.itemCounter))
  {
    assert rows[i..][0] == rows[i];
    assert rows[i..][1..] == rows[i + 1..];
    var first := CharOfRow(rows[i], charCounter, itemCounter);
    if first.chars.Success? {
      var rest := MainCharRows(rows[i + 1..], first.charCounter, first.itemCounter);
      if rest.chars.Success? {
        assert done + (first.chars.value + rest.chars.value) == done + first.chars.value + rest.chars.value;
      }
    }
  }

  /** Before the loop of create_dataclasses_from_json_data, every row is left to load. */
  lemma PrependCharsStart(rows: seq<Row>, charCounter: nat, itemCounter: nat)
    ensures PrependChars([], MainCharRows(rows[0..], charCounter, itemCounter)) == MainCharRows(rows, charCounter, itemCounter)
  {
    assert rows[0..] == rows;
    var whole := MainCharRows(rows, charCounter, itemCounter);
    if whole.chars.Success? {
      assert [] + whole.chars.value == whole.chars.value;
    }
  }

  /** After the loop of create_dataclasses_from_json_data, what was loaded is the result. */
  lemma PrependCharsEnd(done: seq<CharRecord>, rows: seq<Row>, charCounter: nat, itemCounter: nat)
    ensures PrependChars(done, MainCharRows(rows[|rows|..], charCounter, itemCounter)) == CharsLoaded(Success(done), charCounter, itemCounter)
  {
    assert rows[|rows|..] == [];
    assert done + [] == done;
  }

  /**
   * One pass of the loop of create_dataclasses_from_json_data: build the character of row i.
   * Appended to the characters built so far, what is left to load shrinks by the row; otherwise
   * the row's error is the outcome.
   */
  method AppendMainChar(counters: ModelCounters, rows: seq<Row>, i: nat, models: seq<MainCharModel>, ghost spec: CharsLoaded)
    returns (r: Result<MainCharModel, LoadError>)
    requires i < |rows|
    requires PrependChars(RecordsOf(models), MainCharRows(rows[i..], counters.mainCharCounter, counters.itemCounter)) == spec
    modifies counters
    ensures r.Failure? ==> spec == CharsLoaded(Failure(r.error), counters.mainCharCounter, counters.itemCounter)
    ensures r.Success? ==> (fresh(r.value)
      && PrependChars(RecordsOf(models + [r.value]), MainCharRows(rows[i + 1..], counters.mainCharCounter, counters.itemCounter)) == spec)
  {
    ghost var before := RecordsOf(models);
    PrependCharsStep(before, rows, i, counters.mainCharCounter, counters.itemCounter);
    r := MainCharFromRow(counters, rows[i]);
    assert RecordsOf(models) == before;
    if r.Success? {
      RecordsOfAppend(models, r.value);
    }
  }

  /** A model that is not among distinct models can join them. */
  lemma DistinctAppend(models: seq<MainCharModel>, m: MainCharModel)
    requires DistinctModels(models) && m !in models
    ensures DistinctModels(models + [m])
  {
  }

  /** Models created since the call began stay so when one more created since is appended. */
  twostate lemma FreshAppend(new models: seq<MainCharModel>, new m: MainCharModel)
    requires forall x :: x in models ==> fresh(x)
    requires fresh(m)
    ensures forall x :: x in models + [m] ==> fresh(x)
  {
  }

  /** create_dataclasses_from_json_data(MainCharModel, rows): new, distinct objects in row order. */
  method CreateMainChars(counters: ModelCounters, rows: seq<Row>) returns (r: Result<seq<MainCharModel>, LoadError>)
    modifies counters
    ensures var spec := MainCharRows(rows, old(counters.mainCharCounter), old(counters.itemCounter));
      && (r.Success? <==> spec.chars.Success?)
      && (r.Failure? ==> r.error == spec.chars.error)
      && counters.mainCharCounter == spec.charCounter && counters.itemCounter == spec.itemCounter
      && (r.Success? ==> (RecordsOf(r.value) == spec.chars.value && DistinctModels(r.value)
          && forall m :: m in r.value ==> fresh(m)))
  {
    ghost var spec := MainCharRows(rows, counters.mainCharCounter, counters.itemCounter);
    var models: seq<MainCharModel> := [];
    PrependCharsStart(rows, counters.mainCharCounter, counters.itemCounter);
    assert RecordsOf(models) == [];
    for i := 0 to |rows|
      invariant PrependChars(RecordsOf(models), MainCharRows(rows[i..], counters.mainCharCounter, counters.itemCounter)) == spec
      invariant DistinctModels(models) && forall m :: m in models ==> fresh(m)
    {
      var made := AppendMainChar(counters, rows, i, models, spec);
      if made.Failure? {
        return Failure(made.error);
      }
      DistinctAppend(models, made.value);
      FreshAppend(models, made.value);
      models := models + [made.value];
    }
    PrependCharsEnd(RecordsOf(models), rows, counters.mainCharCounter, counters.itemCounter);
    return Success(models);
  }

  /** The inner loop of resolve_to_n_data for a list: one match list per entry. */
  method ResolveList(refs: seq<Option<int>>, items: seq<Item>) returns (resolveList: seq<seq<Item>>)
    ensures |resolveList| == |refs|
    ensures forall i :: 0 <= i < |refs| ==> resolveList[i] == Matching(items, refs[i])
  {
    resolveList := [];
    for i := 0 to |refs|
      invariant |resolveList| == i
      invariant forall k :: 0 <= k < i ==> resolveList[k] == Matching(items, refs[k])
    {
      resolveList := resolveList + [Matching(items, refs[i])];
    }
  }

  /** Resolve one field value, keeping a record already there. */
  method ResolveFieldValue(v: Value, items: seq<Item>) returns (r: Result<Value, LoadError>)
    ensures r == ResolveValue(v, items, KeepRecords)
  {
    if IsList(v) {
      var refs := ListRefs(v);
      var groups := ResolveList(refs, items);
      assert groups == seq(|refs|, i requires 0 <= i < |refs| => Matching(items, refs[i]));
      return Success(Records(groups));
    } else if v.Record? {
      return Success(v);
    }
    var matches := Matching(items, ScalarRef(v));
    if |matches| == 0 {
      return Failure(IndexError);
    }
    return Success(Record(matches[0]));
  }

  /** The named fields of one record, resolved in place, visiting the fields as asdict lists them. */
  method ResolveRecord(model: MainCharModel, items: seq<Item>, fieldNames: seq<string>) returns (ok: Result<(), LoadError>)
    modifies model
    ensures var spec := ResolveFields(old(model.record), items, fieldNames, KeepRecords);
      && (ok.Success? <==> spec.Success?)
      && (ok.Failure? ==> ok.error == spec.error)
      && (ok.Success? ==> model.record == spec.value)
  {
    ghost var spec := ResolveFields(model.record, items, fieldNames, KeepRecords);
    var snapshot := model.record;
    for j := 0 to |MainCharFieldOrder|
      invariant ResolveKeys(model.record, items, fieldNames, MainCharFieldOrder[j..], KeepRecords) == spec
      invariant forall f :: j <= FieldIndex(f) ==> model.record.Get(f) == snapshot.Get(f)
    {
      var key := MainCharFieldOrder[j];
      FieldIndexOfPosition(j);
      assert MainCharFieldOrder[j..][1..] == MainCharFieldOrder[j + 1..];
      if FieldName(key) in fieldNames {
        var resolved := ResolveFieldValue(snapshot.Get(key), items);
        if resolved.Failure? {
          return Failure(resolved.error);
        }
        model.SetItem(key, resolved.value);
      }
    }
    assert MainCharFieldOrder[|MainCharFieldOrder|..] == [];
    return Success(());
  }

  /** resolve_to_n_data: the records are changed in place and the same list is returned. */
  method ResolveToNData(models: seq<MainCharModel>, items: seq<Item>, fieldNames: seq<string>)
    returns (r: Result<seq<MainCharModel>, LoadError>)
    requires DistinctModels(models)
    modifies set m | m in models
    ensures var spec := ResolveAll(old(RecordsOf(models)), items, fieldNames, KeepRecords);
      && (r.Success? <==> spec.Success?)
      && (r.Failure? ==> r.error == spec.error)
      && (r.Success? ==> r.value == models && RecordsOf(models) == spec.value)
  {
    ghost var before := RecordsOf(models);
    ResolveAllRecords(before, items, fieldNames, KeepRecords);
    for i := 0 to |models|
      invariant forall j :: 0 <= j < i ==>
        ResolveFields(before[j], items, fieldNames, KeepRecords).Success? &&
        models[j].record == ResolveFields(before[j], items, fieldNames, KeepRecords).value
      invariant forall j :: i <= j < |models| ==> models[j].record == before[j]
    {
      ghost var prev := RecordsOf(models);
      var ok := ResolveRecord(models[i], items, fieldNames);
      assert forall j :: 0 <= j < |models| && j != i ==> models[j].record == prev[j];
      if ok.Failure? {
        ResolveAllFailure(before, items, fieldNames, KeepRecords, i);
        return Failure(ok.error);
      }
    }
    return Success(models);
  }

  /** DataModel: the loaded items and the first character. */
  class DataModel {
    const items: seq<Item>
    const mainchar: MainCharModel

    constructor (items: seq<Item>, mainchar: MainCharModel)
      ensures this.items == items && this.mainchar == mainchar
    {
      this.items := items;
      this.mainchar := mainchar;
    }
  }

  /** DataModel(), from the parsed rows of the item file and the character file. */
  method NewDataModel(counters: ModelCounters, itemRows: seq<Row>, charRows: seq<Row>) returns (r: Result<DataModel, LoadError>)
    modifies counters
    ensures var spec := LoadDataModel(itemRows, charRows, old(counters.itemCounter), old(counters.mainCharCounter), KeepRecords);
      && (r.Success? <==> spec.data.Success?)
      && (r.Failure? ==> r.error == spec.data.error)
      && counters.itemCounter == spec.itemCounter && counters.mainCharCounter == spec.charCounter
      && (r.Success? ==> r.value.items == spec.data.value.items && r.value.mainchar.record == spec.data.value.mainchar)
  {
    var items := CreateItems(counters, itemRows);
    if items.Failure? {
      return Failure(items.error);
    }
    var chars := CreateMainChars(counters, charRows);
    if chars.Failure? {
      return Failure(chars.error);
    }
    var resolved := ResolveToNData(chars.value, items.value, ResolvedFieldNames);
    if resolved.Failure? {
      return Failure(resolved.error);
    }
    if |resolved.value| == 0 {
      return Failure(IndexError);
    }
    var model := new DataModel(items.value, resolved.value[0]);
    return Success(model);
  }
}
