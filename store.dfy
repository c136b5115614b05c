/** What the record store hands back to a controller, as inputs, and the field renaming
    between the API's camelCase names and the store's snake_case columns. Query building,
    filtering, ordering and constraints inside the store are not modelled. */
module Store {
  import opened Wrappers
  import opened Json

  /** A store error: its code and message. */
  datatype StoreError = StoreError(code: string, message: string)

  /** A `.single()` / `.maybeSingle()` call: a row, an error, or no row and no error. */
  datatype Single<T> = Found(row: T) | Failed(err: StoreError) | Missing

  /** A list query with `count: 'exact'`: the rows (`data` may be null) and the count. */
  datatype Listing = Listed(rows: Option<seq<Record>>, count: Option<nat>) | ListFailed(err: StoreError)

  /** A delete with `count: 'exact'`. */
  datatype Deletion = Deleted(count: Option<int>) | DeleteFailed(err: StoreError)

  /** A filter a controller adds to a list query: `.eq(column, value)` or
      `.contains(column, values)`. */
  datatype Filter = Eq(column: string, value: Json) | Contains(column: string, values: seq<string>)

  /** A list query as a controller builds it: the filters in the order they were added, then
      `.range(from, to)` and `.order(column, { ascending })`. */
  datatype ListQuery = ListQuery(filters: seq<Filter>, range: Option<(int, int)>, order: Option<(string, bool)>)

  /** The store's code for "no row matched a single-row query". */
  const NoRowCode := "PGRST116"
  /** The store's code for a unique-constraint violation. */
  const UniqueViolationCode := "23505"

  /** One field: its API name and its column name. */
  datatype Field = Field(camel: string, snake: string)

  /** No column of `fields[k..]` is `column`. */
  predicate ColumnFreeFrom(column: string, fields: seq<Field>, k: nat)
    decreases |fields| - k
  {
    k >= |fields| || (fields[k].snake != column && ColumnFreeFrom(column, fields, k + 1))
  }

  /** No name of `fields[k..]` is `name`. */
  predicate NameFreeFrom(name: string, fields: seq<Field>, k: nat)
    decreases |fields| - k
  {
    k >= |fields| || (fields[k].camel != name && NameFreeFrom(name, fields, k + 1))
  }

  /** The columns of `fields[k..]` are pairwise distinct. */
  predicate ColumnsDistinctFrom(fields: seq<Field>, k: nat)
    decreases |fields| - k
  {
    k >= |fields| || (ColumnFreeFrom(fields[k].snake, fields, k + 1) && ColumnsDistinctFrom(fields, k + 1))
  }

  /** The names of `fields[k..]` are pairwise distinct. */
  predicate NamesDistinctFrom(fields: seq<Field>, k: nat)
    decreases |fields| - k
  {
    k >= |fields| || (NameFreeFrom(fields[k].camel, fields, k + 1) && NamesDistinctFrom(fields, k + 1))
  }

  /** A field table whose columns are distinct, so renaming to columns loses nothing. */
  predicate DistinctColumns(fields: seq<Field>) {
    forall i, j :: 0 <= i < j < |fields| ==> fields[i].snake != fields[j].snake
  }

  /** A field table whose API names are distinct, so renaming from columns loses nothing. */
  predicate DistinctNames(fields: seq<Field>) {
    forall i, j :: 0 <= i < j < |fields| ==> fields[i].camel != fields[j].camel
  }

  lemma {:induction false} ColumnFreeAll(column: string, fields: seq<Field>, k: nat)
    requires ColumnFreeFrom(column, fields, k)
    ensures forall j :: k <= j < |fields| ==> fields[j].snake != column
    decreases |fields| - k
  {
    if k < |fields| {
      ColumnFreeAll(column, fields, k + 1);
    }
  }

  lemma {:induction false} NameFreeAll(name: string, fields: seq<Field>, k: nat)
    requires NameFreeFrom(name, fields, k)
    ensures forall j :: k <= j < |fields| ==> fields[j].camel != name
    decreases |fields| - k
  {
    if k < |fields| {
      NameFreeAll(name, fields, k + 1);
    }
  }

  /** The field-by-field check of a table establishes that its columns are distinct. */
  lemma {:induction false} ColumnsPairwise(fields: seq<Field>, k: nat)
    requires ColumnsDistinctFrom(fields, k)
    ensures forall i, j :: k <= i < j < |fields| ==> fields[i].snake != fields[j].snake
    decreases |fields| - k
  {
    if k < |fields| {
      ColumnFreeAll(fields[k].snake, fields, k + 1);
      ColumnsPairwise(fields, k + 1);
    }
  }

  /** The field-by-field check of a table establishes that its names are distinct. */
  lemma {:induction false} NamesPairwise(fields: seq<Field>, k: nat)
    requires NamesDistinctFrom(fields, k)
    ensures forall i, j :: k <= i < j < |fields| ==> fields[i].camel != fields[j].camel
    decreases |fields| - k
  {
    if k < |fields| {
      NameFreeAll(fields[k].camel, fields, k + 1);
      NamesPairwise(fields, k + 1);
    }
  }

  /** The first `n` fields of a table applied in order, as a handler's run of `if`s applies
      them: each field the body defines is copied to its column. */
  function ToColumnsUpTo(body: Record, fields: seq<Field>, n: nat): Record
    requires n <= |fields|
    decreases n
  {
    if n == 0 then map[]
    else
      var prev := ToColumnsUpTo(body, fields, n - 1);
      var f := fields[n - 1];
      if f.camel in body then prev[f.snake := body[f.camel]] else prev
  }

  /** API fields to columns. An absent (`undefined`) field is not sent. */
  function ToColumns(body: Record, fields: seq<Field>): Record {
    ToColumnsUpTo(body, fields, |fields|)
  }

  /** The first `n` columns of a table applied in order, as a row mapper copies them. */
  function FromColumnsUpTo(row: Record, fields: seq<Field>, n: nat): Record
    requires n <= |fields|
    decreases n
  {
    if n == 0 then map[]
    else
      var prev := FromColumnsUpTo(row, fields, n - 1);
      var f := fields[n - 1];
      if f.snake in row then prev[f.camel := row[f.snake]] else prev
  }

  /** Columns to API fields (a mapper such as `mapBlogRow`). A column the row lacks is
      `undefined` and does not reach the wire. */
  function FromColumns(row: Record, fields: seq<Field>): Record {
    FromColumnsUpTo(row, fields, |fields|)
  }

  /** The first `n` fields of a table written as `column: body.field ?? fallback`: every
      column is sent, with the fallback for a field that is absent or null. */
  function DefaultedUpTo(body: Record, fields: seq<Field>, fallback: Json, n: nat): Record
    requires n <= |fields|
    decreases n
  {
    if n == 0 then map[]
    else DefaultedUpTo(body, fields, fallback, n - 1)[fields[n - 1].snake := Coalesce(body, fields[n - 1].camel, fallback)]
  }

  /** Every field of a table written with a fallback. */
  function Defaulted(body: Record, fields: seq<Field>, fallback: Json): Record {
    DefaultedUpTo(body, fields, fallback, |fields|)
  }

  /** `column: body.field` for each key of `keys`, as an object literal writes it: a field the
      body leaves undefined is not sent, and every other key of `obj` is kept. */
  function PutDefined(obj: Record, body: Record, keys: seq<string>): Record
    decreases |keys|
  {
    if keys == [] then obj else PutDefined(Put(obj, keys[0], Get(body, keys[0])), body, keys[1..])
  }

  /** One `if (body.f !== undefined) patch.column = body.f` of a patch builder, for the
      `k`-th field of its table. */
  method CopyIfDefined(patch: Record, body: Record, fields: seq<Field>, k: nat) returns (next: Record)
    requires k < |fields| && patch == ToColumnsUpTo(body, fields, k)
    ensures next == ToColumnsUpTo(body, fields, k + 1)
  {
    next := patch;
    if fields[k].camel in body {
      next := next[fields[k].snake := body[fields[k].camel]];
    }
  }

  lemma {:induction false} ToColumnsUpToSpec(body: Record, fields: seq<Field>, n: nat)
    requires n <= |fields| && DistinctColumns(fields)
    ensures forall c :: c in ToColumnsUpTo(body, fields, n) ==> exists i :: 0 <= i < n && fields[i].snake == c && fields[i].camel in body
    ensures forall i :: 0 <= i < n && fields[i].camel in body ==>
      fields[i].snake in ToColumnsUpTo(body, fields, n) && ToColumnsUpTo(body, fields, n)[fields[i].snake] == body[fields[i].camel]
    decreases n
  {
    if n > 0 {
      ToColumnsUpToSpec(body, fields, n - 1);
    }
  }

  lemma {:induction false} FromColumnsUpToSpec(row: Record, fields: seq<Field>, n: nat)
    requires n <= |fields| && DistinctNames(fields)
    ensures forall c :: c in FromColumnsUpTo(row, fields, n) ==> exists i :: 0 <= i < n && fields[i].camel == c && fields[i].snake in row
    ensures forall i :: 0 <= i < n && fields[i].snake in row ==>
      fields[i].camel in FromColumnsUpTo(row, fields, n) && FromColumnsUpTo(row, fields, n)[fields[i].camel] == row[fields[i].snake]
    decreases n
  {
    if n > 0 {
      FromColumnsUpToSpec(row, fields, n - 1);
    }
  }

  lemma {:induction false} DefaultedUpToSpec(body: Record, fields: seq<Field>, fallback: Json, n: nat)
    requires n <= |fields| && DistinctColumns(fields)
    ensures forall c :: c in DefaultedUpTo(body, fields, fallback, n) ==> exists i :: 0 <= i < n && fields[i].snake == c
    ensures forall i :: 0 <= i < n ==>
      fields[i].snake in DefaultedUpTo(body, fields, fallback, n)
      && DefaultedUpTo(body, fields, fallback, n)[fields[i].snake] == Coalesce(body, fields[i].camel, fallback)
    decreases n
  {
    if n > 0 {
      DefaultedUpToSpec(body, fields, fallback, n - 1);
    }
  }

  /** Over a table with distinct columns, every column is sent, holding the field when the body
      has it non-null and the fallback otherwise, and nothing else is sent. */
  lemma DefaultedSpec(body: Record, fields: seq<Field>, fallback: Json)
    requires DistinctColumns(fields)
    ensures forall c :: c in Defaulted(body, fields, fallback) ==> exists i :: 0 <= i < |fields| && fields[i].snake == c
    ensures forall i :: 0 <= i < |fields| ==>
      fields[i].snake in Defaulted(body, fields, fallback)
      && Defaulted(body, fields, fallback)[fields[i].snake] == Coalesce(body, fields[i].camel, fallback)
  {
    DefaultedUpToSpec(body, fields, fallback, |fields|);
  }

  /** Each listed key the body defines is written with the body's value; every other key keeps
      its place and value in `obj`, and no key is added for an undefined field. */
  lemma {:induction false} PutDefinedSpec(obj: Record, body: Record, keys: seq<string>)
    ensures forall k :: k in keys && k in body ==>
      k in PutDefined(obj, body, keys) && PutDefined(obj, body, keys)[k] == body[k]
    ensures forall k :: !(k in keys && k in body) ==>
      (k in PutDefined(obj, body, keys) <==> k in obj) && (k in obj ==> PutDefined(obj, body, keys)[k] == obj[k])
    decreases |keys|
  {
    if keys != [] {
      var next := Put(obj, keys[0], Get(body, keys[0]));
      PutDefinedSpec(next, body, keys[1..]);
      forall k | k in keys && k in body
        ensures k in PutDefined(obj, body, keys) && PutDefined(obj, body, keys)[k] == body[k]
      {
        if k !in keys[1..] {
          assert k == keys[0];
        }
      }
    }
  }

  /** Over a table with distinct columns, the patch holds exactly the fields the body
      defines, each under its column with its value unchanged, and nothing else. */
  lemma ToColumnsSpec(body: Record, fields: seq<Field>)
    requires DistinctColumns(fields)
    ensures forall c :: c in ToColumns(body, fields) ==> exists i :: 0 <= i < |fields| && fields[i].snake == c && fields[i].camel in body
    ensures forall i :: 0 <= i < |fields| && fields[i].camel in body ==>
      fields[i].snake in ToColumns(body, fields) && ToColumns(body, fields)[fields[i].snake] == body[fields[i].camel]
  {
    ToColumnsUpToSpec(body, fields, |fields|);
  }

  /** Over a table with distinct names, the mapped row holds exactly the listed columns the
      row has, each under its API name with its value unchanged, and nothing else. */
  lemma FromColumnsSpec(row: Record, fields: seq<Field>)
    requires DistinctNames(fields)
    ensures forall c :: c in FromColumns(row, fields) ==> exists i :: 0 <= i < |fields| && fields[i].camel == c && fields[i].snake in row
    ensures forall i :: 0 <= i < |fields| && fields[i].snake in row ==>
      fields[i].camel in FromColumns(row, fields) && FromColumns(row, fields)[fields[i].camel] == row[fields[i].snake]
  {
    FromColumnsUpToSpec(row, fields, |fields|);
  }

  /** Renaming a row's columns and renaming the result back gives each listed column of the
      row back with its value, and nothing else: mapper and patch builder are inverse renamings. */
  lemma RenamingRoundTrip(row: Record, fields: seq<Field>)
    requires DistinctNames(fields) && DistinctColumns(fields)
    ensures forall i :: 0 <= i < |fields| && fields[i].snake in row ==>
      fields[i].snake in ToColumns(FromColumns(row, fields), fields) && ToColumns(FromColumns(row, fields), fields)[fields[i].snake] == row[fields[i].snake]
    ensures forall c :: c in ToColumns(FromColumns(row, fields), fields) ==> c in row && ToColumns(FromColumns(row, fields), fields)[c] == row[c]
  {
    FromColumnsSpec(row, fields);
    ToColumnsSpec(FromColumns(row, fields), fields);
  }
}
