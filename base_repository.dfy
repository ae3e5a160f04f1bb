/**
 * The in-memory table every entity repository inherits: a list of records
 * keyed by their `id` field, with lookup, filtered listing, counting, and
 * append / merge / remove by id.
 *
 * A record is a JavaScript object with primitive field values, written as the
 * map from its own keys to their values, so that a `Partial<T>` filter is
 * a per-key `===` test and `{ ...a, ...b }` is a map union in which `b`
 * wins.
 */
module BaseRepository {
  import opened Wrappers
  import opened Seqs

  /** A primitive JavaScript value held in a record field. */
  datatype Value = Undefined | Null | Bool(b: bool) | Num(n: int) | Str(s: string)

  /** An object with its own enumerable keys and their values. */
  type Record = map<string, Value>

  /** `item[key]`: the value stored under `key`, `undefined` when the record has no such key. */
  function Field(item: Record, key: string): Value {
    if key in item then item[key] else Undefined
  }

  /** `item => item.id === id` */
  function HasId(id: string): Record -> bool {
    item => Field(item, "id") == Str(id)
  }

  /** `Object.entries(filter).every(([key, value]) => item[key] === value)` */
  predicate Matches(item: Record, filter: Record) {
    forall key :: key in filter ==> Field(item, key) == filter[key]
  }

  function MatchesFilter(filter: Record): Record -> bool {
    item => Matches(item, filter)
  }

  /** `{ ...a, ...b }`: every key `b` has takes its value from `b`, the others from `a`. */
  function Spread(a: Record, b: Record): (r: Record)
    ensures forall key :: Field(r, key) == if key in b then b[key] else Field(a, key)
    ensures r.Keys == a.Keys + b.Keys
  {
    a + b
  }

  /** The record `create` stores: the given fields plus the generated id. */
  function WithId(fields: Record, id: string): (r: Record)
    ensures HasId(id)(r)
    ensures forall key :: key != "id" ==> Field(r, key) == Field(fields, key)
  {
    Spread(fields, map["id" := Str(id)])
  }

  /** The table after `update(id, patch)`: the first record with that id merged with `patch`. */
  function Updated(data: seq<Record>, id: string, patch: Record): (r: seq<Record>)
    ensures |r| == |data|
  {
    var i := FindIndex(data, HasId(id));
    if i == -1 then data else data[i := Spread(data[i], patch)]
  }

  /** The table after `delete(id)`: the first record with that id spliced out. */
  function Deleted(data: seq<Record>, id: string): (r: seq<Record>)
  {
    var i := FindIndex(data, HasId(id));
    if i == -1 then data else data[..i] + data[i + 1..]
  }

  /**
   * `update` changes only the first record carrying the id, and in it every
   * field the patch supplies (the id included) takes the patch's value while
   * the other fields keep theirs; an unknown id changes nothing.
   */
  lemma UpdatedSpec(data: seq<Record>, id: string, patch: Record)
    ensures var i := FindIndex(data, HasId(id));
            var r := Updated(data, id, patch);
            && (i == -1 ==> r == data)
            && (i != -1 ==> forall j :: 0 <= j < |data| && j != i ==> r[j] == data[j])
            && (i != -1 ==> forall key :: Field(r[i], key) == if key in patch then patch[key] else Field(data[i], key))
  {
  }

  /**
   * `delete` of a known id removes exactly one record, the first with that id;
   * the records before it keep their places and those after move up by one.
   */
  lemma {:induction false} DeletedSpec(data: seq<Record>, id: string)
    ensures var i := FindIndex(data, HasId(id));
            var r := Deleted(data, id);
            && (i == -1 <==> r == data)
            && (i != -1 ==> |r| == |data| - 1)
            && (i != -1 ==> forall j :: 0 <= j < i ==> r[j] == data[j])
            && (i != -1 ==> forall j :: i <= j < |r| ==> r[j] == data[j + 1])
            && (i != -1 ==> multiset(r) + multiset{data[i]} == multiset(data))
  {
    var i := FindIndex(data, HasId(id));
    if i != -1 {
      assert data == data[..i] + [data[i]] + data[i + 1..];
    }
  }

  /**
   * With an id no stored record carries, the record `create` appends is the
   * one `findById` then finds, and the count of records grows by one.
   */
  lemma CreatedIsFound(data: seq<Record>, fields: Record, id: string)
    requires forall j :: 0 <= j < |data| ==> !HasId(id)(data[j])
    ensures FindFirst(data + [WithId(fields, id)], HasId(id)) == Some(WithId(fields, id))
  {
    var s := data + [WithId(fields, id)];
    assert s[|data|] == WithId(fields, id);
    var k := FindIndex(s, HasId(id));
    assert k == |data|;
  }

  /**
   * The first argument an entity repository hands to this constructor. The
   * subclasses call `super(db, seed)`, so the argument that arrives is the
   * database connection object (from `getXRepository(db)`) or `undefined`
   * (from `getXRepository()`), never the seed list.
   */
  datatype ConstructorArgument = Omitted | Connection | Records(items: seq<Record>)

  /**
   * `this.data = [...initialData]` with `initialData = []` by default, as
   * written: spreading the connection object, which is not iterable, throws
   * a TypeError.
   */
  function InitialTable(arg: ConstructorArgument): Result<seq<Record>, string>
  {
    match arg
    case Omitted => Success([])
    case Connection => Failure("TypeError: object is not iterable")
    case Records(items) => Success(items)
  }

  /**
   * As written, an entity repository never starts from its seed: the
   * arguments `super(db, seed)` can deliver either throw or give an empty
   * table, whatever the seed.
   */
  lemma SubclassSeedIsLost(seed: seq<Record>)
    requires seed != []
    ensures InitialTable(Connection).Failure?
    ensures InitialTable(Omitted) == Success([])
    ensures InitialTable(Omitted) != Success(seed)
  {
  }

  /**
   * The generic repository. `data` is the table; the finders read it and
   * `Create`, `Update` and `Delete` change it in place.
   */
  class Repository {
    var data: seq<Record>

    /** Starts from a copy of the seed records. */
    constructor (initialData: seq<Record>)
      ensures data == initialData
    {
      data := initialData;
    }

    /** `findById`: the first record with the id, or null. */
    function FindById(id: string): (r: Option<Record>)
      reads this
      ensures r.None? <==> forall j :: 0 <= j < |data| ==> !HasId(id)(data[j])
      ensures r.Some? ==> HasId(id)(r.value) &&
                          exists i :: 0 <= i < |data| && data[i] == r.value &&
                                      forall j :: 0 <= j < i ==> !HasId(id)(data[j])
    {
      FindFirst(data, HasId(id))
    }

    /** `findAll`: a copy of the whole table. */
    function FindAll(): (r: seq<Record>)
      reads this
      ensures r == data
    {
      data
    }

    /**
     * `findMany`: the records matching every entry of the filter, each as
     * often as it is stored; the empty filter lists the whole table.
     */
    function FindMany(filter: Record): (r: seq<Record>)
      reads this
      ensures forall x :: multiset(r)[x] == if Matches(x, filter) then multiset(data)[x] else 0
      ensures forall j :: 0 <= j < |r| ==> Matches(r[j], filter)
      ensures filter == map[] ==> r == data
    {
      FilterCounts(data, MatchesFilter(filter));
      FilterAllSatisfy(data, MatchesFilter(filter));
      if filter == map[] then
        FilterKeepsAll(data, MatchesFilter(filter));
        Filter(data, MatchesFilter(filter))
      else
        Filter(data, MatchesFilter(filter))
    }

    /** `count`: the table length without a filter, otherwise the number of matches. */
    function Count(filter: Option<Record>): (r: nat)
      reads this
      ensures r <= |data|
      ensures filter.None? ==> r == |data|
      ensures filter.Some? ==> r == |FindMany(filter.value)|
    {
      if filter.None? then |data| else |FindMany(filter.value)|
    }

    /** `exists`: some record carries the id. */
    function Exists(id: string): (r: bool)
      reads this
      ensures r <==> FindById(id).Some?
      ensures r <==> exists j :: 0 <= j < |data| && HasId(id)(data[j])
    {
      Any(data, HasId(id))
    }

    /**
     * `create`: appends the given fields with the fresh id and returns the
     * stored record. The id generator is replaced by the `id` argument, which
     * no stored record may carry yet.
     */
    method Create(fields: Record, id: string) returns (item: Record)
      requires !Exists(id)
      modifies this
      ensures item == WithId(fields, id)
      ensures data == old(data) + [item]
      ensures FindById(id) == Some(item)
    {
      item := WithId(fields, id);
      CreatedIsFound(data, fields, id);
      data := data + [item];
    }

    /** `update`: merges the patch into the first record with the id; null for an unknown id. */
    method Update(id: string, patch: Record) returns (r: Option<Record>)
      modifies this
      ensures data == Updated(old(data), id, patch)
      ensures r.None? <==> old(FindById(id)).None?
      ensures r.Some? ==> r == Some(Spread(old(FindById(id)).value, patch))
    {
      var index := FindIndex(data, HasId(id));
      if index == -1 {
        return None;
      }
      data := data[index := Spread(data[index], patch)];
      r := Some(data[index]);
    }

    /** `delete`: removes the first record with the id; false when there is none. */
    method Delete(id: string) returns (removed: bool)
      modifies this
      ensures removed <==> old(Exists(id))
      ensures data == Deleted(old(data), id)
      ensures |data| == if removed then |old(data)| - 1 else |old(data)|
    {
      var index := FindIndex(data, HasId(id));
      if index == -1 {
        return false;
      }
      DeletedSpec(data, id);
      data := data[..index] + data[index + 1..];
      removed := true;
    }
  }
}
