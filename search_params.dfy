/**
 * Query-string parsing for the pages and route handlers: repeated keys
 * grouped into arrays, the strict and the lenient parse against a schema,
 * and the reusable pieces of schema (pagination, a boolean flag, a
 * comma-separated list).
 */
module SearchParams {
  import opened Wrappers
  import opened Seqs
  import opened Text
  import opened ZodHelpers

  /** What the grouping stores under a key: the value, or the values of a repeated key. */
  datatype ParamValue = One(value: string) | Many(values: seq<string>)

  type Params = map<string, ParamValue>

  /** The query string's pairs, in order. */
  type Pairs = seq<(string, string)>

  /** `if (existing)`: an array is always truthy, a string when it is not empty. */
  predicate Truthy(v: ParamValue) {
    v.Many? || v.value != ""
  }

  /** A truthy stored value extended with one more occurrence. */
  function Extended(existing: ParamValue, value: string): ParamValue {
    match existing
    case Many(xs) => Many(xs + [value])
    case One(s) => Many([s, value])
  }

  /** One step of the `forEach`: extend a truthy stored value, otherwise store the value alone. */
  function Stored(params: Params, key: string, value: string): Params {
    if key in params && Truthy(params[key]) then params[key := Extended(params[key], value)]
    else params[key := One(value)]
  }

  /** The dictionary the grouping builds from the pairs, one step per pair. */
  function Grouped(pairs: Pairs): Params
    decreases |pairs|
  {
    if pairs == [] then map[]
    else
      var last := pairs[|pairs| - 1];
      Stored(Grouped(pairs[..|pairs| - 1]), last.0, last.1)
  }

  /**
   * The grouping loop of `parseSearchParams` and `parseSearchParamsStrict`:
   * visits the pairs in order and updates the dictionary in place.
   */
  method GroupParams(pairs: Pairs) returns (params: Params)
    ensures params == Grouped(pairs)
  {
    params := map[];
    var i := 0;
    while i < |pairs|
      invariant 0 <= i <= |pairs|
      invariant params == Grouped(pairs[..i])
    {
      var key, value := pairs[i].0, pairs[i].1;
      if key in params && Truthy(params[key]) {
        var existing := params[key];
        if existing.Many? {
          params := params[key := Many(existing.values + [value])];
        } else {
          params := params[key := Many([existing.value, value])];
        }
      } else {
        params := params[key := One(value)];
      }
      assert pairs[..i + 1][..i] == pairs[..i];
      i := i + 1;
    }
    assert pairs[..i] == pairs;
  }

  // ---------------------------------------------------------------------
  // The grouping key by key

  /** The values given for `key`, in order. */
  function ValuesOf(pairs: Pairs, key: string): (r: seq<string>)
    ensures |r| <= |pairs|
    decreases |pairs|
  {
    if pairs == [] then []
    else
      var last := pairs[|pairs| - 1];
      ValuesOf(pairs[..|pairs| - 1], key) + (if last.0 == key then [last.1] else [])
  }

  /** What the grouping keeps for one key, given that key's values only. */
  function Collected(values: seq<string>): Option<ParamValue>
    decreases |values|
  {
    if values == [] then None
    else
      var before := Collected(values[..|values| - 1]);
      var value := values[|values| - 1];
      if before.Some? && Truthy(before.value) then Some(Extended(before.value, value)) else Some(One(value))
  }

  function Lookup(params: Params, key: string): Option<ParamValue> {
    if key in params then Some(params[key]) else None
  }

  /** Each key is grouped independently of the others: its entry depends on its own values only. */
  lemma {:induction false} GroupedByKey(pairs: Pairs, key: string)
    ensures Lookup(Grouped(pairs), key) == Collected(ValuesOf(pairs, key))
    decreases |pairs|
  {
    if pairs != [] {
      var init := pairs[..|pairs| - 1];
      var last := pairs[|pairs| - 1];
      GroupedByKey(init, key);
      assert Grouped(pairs) == Stored(Grouped(init), last.0, last.1);
      if last.0 == key {
        var vs := ValuesOf(init, key) + [last.1];
        assert ValuesOf(pairs, key) == vs;
        assert vs[..|vs| - 1] == ValuesOf(init, key);
        assert vs[|vs| - 1] == last.1;
      } else {
        assert ValuesOf(pairs, key) == ValuesOf(init, key) + [];
        assert ValuesOf(init, key) + [] == ValuesOf(init, key);
      }
    }
  }

  /** The values without the empty strings they start with. */
  function DropLeadingEmpty(values: seq<string>): (r: seq<string>)
    ensures |r| <= |values|
    ensures r == [] || r[0] != ""
  {
    if values != [] && values[0] == "" then DropLeadingEmpty(values[1..]) else values
  }

  lemma {:induction false} DropLeadingEmptyAppend(values: seq<string>, v: string)
    ensures DropLeadingEmpty(values + [v]) ==
            if DropLeadingEmpty(values) == [] then DropLeadingEmpty([v]) else DropLeadingEmpty(values) + [v]
  {
    if values != [] {
      assert (values + [v])[1..] == values[1..] + [v];
      if values[0] == "" {
        DropLeadingEmptyAppend(values[1..], v);
      }
    } else {
      assert values + [v] == [v];
    }
  }

  /**
   * What a key ends up with: nothing when it never occurs; otherwise its
   * values with the leading empty ones dropped (an empty stored string is
   * falsy, so the next occurrence replaces it) — a single value as a
   * string, several as an array, and the empty string when all are empty.
   */
  function Shape(values: seq<string>): Option<ParamValue> {
    var kept := DropLeadingEmpty(values);
    if values == [] then None
    else if kept == [] then Some(One(""))
    else if |kept| == 1 then Some(One(kept[0]))
    else Some(Many(kept))
  }

  /** The grouping of one key's values has the shape `Shape` describes. */
  lemma {:induction false} CollectedShape(values: seq<string>)
    ensures Collected(values) == Shape(values)
    decreases |values|
  {
    if values != [] {
      var init := values[..|values| - 1];
      var v := values[|values| - 1];
      assert values == init + [v];
      CollectedShape(init);
      DropLeadingEmptyAppend(init, v);
      var k := DropLeadingEmpty(init);
      if k == [] {
        ShapeOfOne(v);
        assert DropLeadingEmpty(values) == DropLeadingEmpty([v]);
        if init == [] {
          assert Collected(init) == None;
        } else {
          assert Collected(init) == Some(One(""));
        }
        assert Collected(values) == Some(One(v));
      } else {
        assert k[0] != "";
        assert DropLeadingEmpty(values) == k + [v];
        if |k| == 1 {
          assert Collected(init) == Some(One(k[0]));
          assert k + [v] == [k[0], v];
        } else {
          assert Collected(init) == Some(Many(k));
        }
      }
    }
  }

  lemma ShapeOfOne(v: string)
    ensures DropLeadingEmpty([v]) == if v == "" then [] else [v]
  {
    if v == "" {
      assert [v][1..] == [];
    }
  }

  /**
   * The promise of the grouping: a key given once keeps its value as a
   * string, a key given several times, none of them empty, gets all its
   * values in order as an array, and a key never given is absent.
   */
  lemma GroupingSpec(pairs: Pairs, key: string)
    ensures ValuesOf(pairs, key) == [] <==> key !in Grouped(pairs)
    ensures |ValuesOf(pairs, key)| == 1 ==> Grouped(pairs)[key] == One(ValuesOf(pairs, key)[0])
    ensures |ValuesOf(pairs, key)| >= 2 && "" !in ValuesOf(pairs, key) ==>
              Grouped(pairs)[key] == Many(ValuesOf(pairs, key))
  {
    var vs := ValuesOf(pairs, key);
    GroupedByKey(pairs, key);
    CollectedShape(vs);
    if |vs| == 1 {
      assert vs == [vs[0]];
      ShapeOfOne(vs[0]);
    }
    if vs != [] && "" !in vs {
      assert vs[0] in vs;
      assert DropLeadingEmpty(vs) == vs;
    }
  }

  /** An empty value followed by another occurrence of its key leaves only the later value. */
  lemma EmptyValueReplaced(key: string, value: string)
    ensures Grouped([(key, ""), (key, value)])[key] == One(value)
  {
    var pairs := [(key, ""), (key, value)];
    assert pairs[..1] == [(key, "")];
    assert pairs[..1][..0] == [];
    assert Grouped(pairs[..1]) == map[key := One("")];
    assert !Truthy(One(""));
  }

  // ---------------------------------------------------------------------
  // Parsing against a schema

  /**
   * `parseSearchParamsStrict`: the schema's verdict on the grouped
   * parameters, success with the data or failure with the error; a bad
   * query is reported, never thrown.
   */
  method ParseSearchParamsStrict<T, E>(pairs: Pairs, schema: Params -> Result<T, E>) returns (r: Result<T, E>)
    ensures r == schema(Grouped(pairs))
    ensures r.Success? <==> schema(Grouped(pairs)).Success?
  {
    var params := GroupParams(pairs);
    r := schema(params);
  }

  /**
   * `parseSearchParams`: the parsed data, or the schema's defaults (its
   * verdict on an empty dictionary) when the query does not pass. The
   * source's `schema.parse({})` throws for a schema without defaults for
   * every field; such schemas are excluded.
   */
  method ParseSearchParams<T, E>(pairs: Pairs, schema: Params -> Result<T, E>) returns (r: T)
    requires schema(map[]).Success?
    ensures schema(Grouped(pairs)).Success? ==> r == schema(Grouped(pairs)).data
    ensures schema(Grouped(pairs)).Failure? ==> r == schema(map[]).data
  {
    var params := GroupParams(pairs);
    var result := schema(params);
    if result.Success? {
      return result.data;
    }
    r := schema(map[]).data;
  }

  // ---------------------------------------------------------------------
  // Common schemas

  /** `z.coerce.number()` on a stored value: absent, not a number, or a number. */
  datatype Coerced = Absent | NotANumber | Number(x: real)

  /**
   * `Number(String(value))`, with the string-to-number conversion as a
   * parameter (None standing for NaN). An array is converted through its
   * comma-joined text.
   */
  function Coerce(params: Params, key: string, toNumber: string -> Option<real>): (r: Coerced)
    ensures r.Absent? <==> key !in params
  {
    if key !in params then Absent
    else
      var text := match params[key] case One(s) => s case Many(xs) => if xs == [] then "" else Join(xs, ',');
      match toNumber(text)
      case None => NotANumber
      case Some(x) => Number(x)
  }

  function AsOption(c: Coerced): Option<real>
    requires !c.NotANumber?
  {
    if c.Absent? then None else Some(c.x)
  }

  /**
   * `paginationSchema`: `page` a whole number at least 1, 1 when absent;
   * `limit` a whole number from 1 to 100, 12 when absent.
   */
  function PaginationSchema(params: Params, toNumber: string -> Option<real>): (r: Result<Pagination, string>)
    ensures var page := Coerce(params, "page", toNumber);
            var limit := Coerce(params, "limit", toNumber);
            r.Success? <==> && !page.NotANumber? && !limit.NotANumber?
                            && (page.Number? ==> IsInteger(page.x) && page.x >= 1.0)
                            && (limit.Number? ==> IsInteger(limit.x) && 1.0 <= limit.x <= 100.0)
    ensures r.Success? ==> r.data.page >= 1 && 1 <= r.data.limit <= 100
    ensures r.Success? && "page" !in params ==> r.data.page == 1
    ensures r.Success? && "limit" !in params ==> r.data.limit == 12
    ensures r.Success? && "page" in params ==> r.data.page as real == Coerce(params, "page", toNumber).x
    ensures r.Success? && "limit" in params ==> r.data.limit as real == Coerce(params, "limit", toNumber).x
  {
    var page := Coerce(params, "page", toNumber);
    var limit := Coerce(params, "limit", toNumber);
    if page.NotANumber? || limit.NotANumber? then Failure("Expected number, received nan")
    else
      match ParsePagination(AsOption(page), AsOption(limit))
      case Some(p) => Success(p)
      case None => Failure("Number out of range")
  }

  /** The pagination schema's defaults, what the lenient parse falls back to: page 1 of 12. */
  lemma PaginationDefaults(toNumber: string -> Option<real>)
    ensures PaginationSchema(map[], toNumber) == Success(Pagination(1, 12))
  {
  }

  /**
   * `booleanString`: 'true' and '1' are true, 'false' and '0' are false,
   * an absent value stays absent, anything else (an array included) is
   * rejected.
   */
  function BooleanString(v: Option<ParamValue>): (r: Result<Option<bool>, string>)
    ensures v.None? ==> r == Success(None)
    ensures r.Success? <==> v.None? || (v.value.One? && v.value.value in ["true", "false", "1", "0"])
    ensures r == Success(Some(true)) <==> v == Some(One("true")) || v == Some(One("1"))
    ensures r == Success(Some(false)) <==> v == Some(One("false")) || v == Some(One("0"))
  {
    match v
    case None => Success(None)
    case Some(Many(_)) => Failure("Expected string, received array")
    case Some(One(s)) =>
      if s in ["true", "false", "1", "0"] then Success(Some(s == "true" || s == "1"))
      else Failure("Invalid enum value")
  }

  /** `s.trim()` applied to each piece. */
  function Trimmed(pieces: seq<string>): (r: seq<string>)
    ensures |r| == |pieces| && forall i :: 0 <= i < |r| ==> r[i] == Trim(pieces[i])
  {
    seq(|pieces|, i requires 0 <= i < |pieces| => Trim(pieces[i]))
  }

  function NonEmpty(): string -> bool {
    (s: string) => s != ""
  }

  /** `val.split(',').map(s => s.trim()).filter(Boolean)`. */
  function CommaPieces(s: string): seq<string> {
    Filter(Trimmed(Split(s, ',')), NonEmpty())
  }

  /**
   * The list helper keeps exactly the non-blank pieces between commas,
   * trimmed: none is empty, starts or ends with whitespace, or holds a
   * comma.
   */
  lemma CommaPiecesSpec(s: string)
    ensures forall x :: x in CommaPieces(s) <==> x in Trimmed(Split(s, ',')) && x != ""
    ensures forall x :: x in CommaPieces(s) ==> CleanPiece(x)
  {
    var pieces := Split(s, ',');
    var trimmed := Trimmed(pieces);
    FilterContains(trimmed, NonEmpty());
    forall x | x in CommaPieces(s) ensures CleanPiece(x) {
      var i :| 0 <= i < |trimmed| && trimmed[i] == x;
      TrimNoComma(pieces[i]);
    }
  }

  lemma TrimNoComma(s: string)
    requires ',' !in s
    ensures ',' !in Trim(s)
  {
    var r := Trim(s);
    var i := |TrimEnd(s)| - |r|;
    forall j | 0 <= j < |r| ensures r[j] != ',' {
      assert r[j] == s[i + j];
    }
  }

  /**
   * `commaSeparatedArray`: a string becomes its non-blank pieces, trimmed;
   * an absent value stays absent; an array is rejected.
   */
  function CommaSeparatedArray(v: Option<ParamValue>): (r: Result<Option<seq<string>>, string>)
    ensures v.None? ==> r == Success(None)
    ensures r.Success? <==> v.None? || v.value.One?
    ensures r.Success? && v.Some? ==> r.data.Some? && forall x :: x in r.data.value ==> CleanPiece(x)
  {
    match v
    case None => Success(None)
    case Some(Many(_)) => Failure("Expected string, received array")
    case Some(One(s)) =>
      CommaPiecesSpec(s);
      Success(Some(CommaPieces(s)))
  }

  /** A piece that survives the list helper unchanged: non-empty, trimmed, without commas. */
  predicate CleanPiece(x: string) {
    x != "" && !IsWhitespace(x[0]) && !IsWhitespace(x[|x| - 1]) && ',' !in x
  }

  /** Joining clean pieces with commas and reading them back gives the pieces. */
  lemma CommaRoundTrip(xs: seq<string>)
    requires |xs| >= 1
    requires forall i :: 0 <= i < |xs| ==> CleanPiece(xs[i])
    ensures CommaPieces(Join(xs, ',')) == xs
  {
    SplitJoin(xs, ',');
    var trimmed := Trimmed(xs);
    forall i | 0 <= i < |xs| ensures trimmed[i] == xs[i] {
      TrimClean(xs[i]);
    }
    assert trimmed == xs;
    FilterKeepsAll(xs, NonEmpty());
  }

  lemma TrimClean(x: string)
    requires x == [] || (!IsWhitespace(x[0]) && !IsWhitespace(x[|x| - 1]))
    ensures Trim(x) == x
  {
  }
}
