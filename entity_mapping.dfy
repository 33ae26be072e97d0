/**
 * The entity manager's mapping of the nullable test entity onto one row of named columns: each
 * simple field is a column named after it, each field of a nested entity a column named
 * `parent.child`, a null value of a nullable field writes no column, and a null value of a
 * non-nullable field (or nested entity) rejects the whole put.
 */
module EntityMapping {
  import opened Wrappers

  /** A nested entity whose only field, `nullable`, may be null. */
  datatype AllOptionalNestedEntity = AllOptionalNestedEntity(nullable: Option<string>)

  /** A nested entity whose only field, `notnullable`, must not be null. */
  datatype AllMandatoryNestedEntity = AllMandatoryNestedEntity(notnullable: Option<string>)

  /** The test entity; `None` stands for a Java null. The id is the row key and has no column. */
  datatype NullableEntity = NullableEntity(
    id: string,
    notnullable: Option<string>,
    nullable: Option<string>,
    notnullableAllOptionalNestedEntity: Option<AllOptionalNestedEntity>,
    nullableAllOptionalNestedEntity: Option<AllOptionalNestedEntity>,
    notnullableAllMandatoryNestedEntity: Option<AllMandatoryNestedEntity>,
    nullableAllMandatoryNestedEntity: Option<AllMandatoryNestedEntity>)

  datatype Exception = IllegalArgumentException(message: string)

  /** What `put` throws; its cause is the root cause the tests inspect. */
  datatype PersistenceException = PersistenceException(cause: Exception)

  /** The columns of one row: column name to string value. */
  type Columns = map<string, string>

  const NotnullableAllOptional := "notnullableAllOptionalNestedEntity"
  const NullableAllOptional := "nullableAllOptionalNestedEntity"
  const NotnullableAllMandatory := "notnullableAllMandatoryNestedEntity"
  const NullableAllMandatory := "nullableAllMandatoryNestedEntity"

  const NullValueMessage := "cannot write non-nullable column with null value: "

  function NullValueError(field: string): Exception {
    IllegalArgumentException(NullValueMessage + field)
  }

  /** The column name of field `child` of the nested entity held in field `parent`. */
  function NestedColumn(parent: string, child: string): string {
    parent + "." + child
  }

  /** The columns of a simple field named `name`, written under `prefix + name`. */
  function LeafColumns(prefix: string, name: string, nullable: bool, value: Option<string>): Result<Columns, Exception> {
    match value
    case None => if nullable then Ok(map[]) else Err(NullValueError(name))
    case Some(v) => Ok(map[prefix + name := v])
  }

  function AllOptionalColumns(name: string, nullable: bool, value: Option<AllOptionalNestedEntity>): Result<Columns, Exception> {
    match value
    case None => if nullable then Ok(map[]) else Err(NullValueError(name))
    case Some(child) => LeafColumns(name + ".", "nullable", true, child.nullable)
  }

  function AllMandatoryColumns(name: string, nullable: bool, value: Option<AllMandatoryNestedEntity>): Result<Columns, Exception> {
    match value
    case None => if nullable then Ok(map[]) else Err(NullValueError(name))
    case Some(child) => LeafColumns(name + ".", "notnullable", false, child.notnullable)
  }

  predicate MandatoryChildNull(value: Option<AllMandatoryNestedEntity>) {
    value.Some? && value.value.notnullable.None?
  }
  /**
   * The nullability rule, field by field: `field` is a non-nullable field of the entity, or of a
   * present nested entity, that holds null. Nested children are named without their parent.
   */
  predicate Rejects(e: NullableEntity, field: string) {
    || (field == "notnullable" && e.notnullable.None?)
    || (field == NotnullableAllOptional && e.notnullableAllOptionalNestedEntity.None?)
    || (field == NotnullableAllMandatory && e.notnullableAllMandatoryNestedEntity.None?)
    || (field == "notnullable" && MandatoryChildNull(e.notnullableAllMandatoryNestedEntity))
    || (field == "notnullable" && MandatoryChildNull(e.nullableAllMandatoryNestedEntity))
  }

  function Count(present: bool): nat {
    if present then 1 else 0
  }

  /** The value of the field of a nested entity, null when the nested entity itself is null. */
  function OptionalChild(value: Option<AllOptionalNestedEntity>): Option<string> {
    if value.Some? then value.value.nullable else None
  }

  function MandatoryChild(value: Option<AllMandatoryNestedEntity>): Option<string> {
    if value.Some? then value.value.notnullable else None
  }

  /** The number of non-null simple values in the entity and in its present nested entities. */
  function NonNullValues(e: NullableEntity): nat {
    Count(e.notnullable.Some?) + Count(e.nullable.Some?)
    + Count(OptionalChild(e.notnullableAllOptionalNestedEntity).Some?)
    + Count(OptionalChild(e.nullableAllOptionalNestedEntity).Some?)
    + Count(MandatoryChild(e.notnullableAllMandatoryNestedEntity).Some?)
    + Count(MandatoryChild(e.nullableAllMandatoryNestedEntity).Some?)
  }

  /**
   * The row `put` writes for the entity, field by field in the order the test entity is
   * populated; the first rejected field aborts the put with the message naming it.
   */
  function EntityColumns(e: NullableEntity): Result<Columns, Exception> {
    var c1 :- LeafColumns("", "notnullable", false, e.notnullable);
    var c2 :- LeafColumns("", "nullable", true, e.nullable);
    var c3 :- AllOptionalColumns(NotnullableAllOptional, false, e.notnullableAllOptionalNestedEntity);
    var c4 :- AllOptionalColumns(NullableAllOptional, true, e.nullableAllOptionalNestedEntity);
    var c5 :- AllMandatoryColumns(NotnullableAllMandatory, false, e.notnullableAllMandatoryNestedEntity);
    var c6 :- AllMandatoryColumns(NullableAllMandatory, true, e.nullableAllMandatoryNestedEntity);
    Ok(c1 + c2 + c3 + c4 + c5 + c6)
  }

  function Lookup(cols: Columns, name: string): Option<string> {
    if name in cols then Some(cols[name]) else None
  }

  /**
   * The columns of an accepted entity: every non-null value sits under its field's column name
   * (`parent.child` for a nested field), a null value has no column, and there is no other column.
   */
  lemma ColumnLayout(e: NullableEntity)
    requires EntityColumns(e).Ok?
    ensures Lookup(EntityColumns(e).value, "notnullable") == e.notnullable
    ensures Lookup(EntityColumns(e).value, "nullable") == e.nullable
    ensures Lookup(EntityColumns(e).value, NestedColumn(NotnullableAllOptional, "nullable"))
      == OptionalChild(e.notnullableAllOptionalNestedEntity)
    ensures Lookup(EntityColumns(e).value, NestedColumn(NullableAllOptional, "nullable"))
      == OptionalChild(e.nullableAllOptionalNestedEntity)
    ensures Lookup(EntityColumns(e).value, NestedColumn(NotnullableAllMandatory, "notnullable"))
      == MandatoryChild(e.notnullableAllMandatoryNestedEntity)
    ensures Lookup(EntityColumns(e).value, NestedColumn(NullableAllMandatory, "notnullable"))
      == MandatoryChild(e.nullableAllMandatoryNestedEntity)
    ensures EntityColumns(e).value.Keys <= ColumnNames()
  {
    var c1, c2, c3, c4, c5, c6 := Components(e);
    var n3, n4 := NestedColumn(NotnullableAllOptional, "nullable"), NestedColumn(NullableAllOptional, "nullable");
    var n5, n6 := NestedColumn(NotnullableAllMandatory, "notnullable"), NestedColumn(NullableAllMandatory, "notnullable");
    assert |n3| == 43 && |n4| == 40 && |n5| == 47 && |n6| == 44 by {
      ColumnNamesDistinct();
    }
    UnionLookup(c1, c2, c3, c4, c5, c6, "notnullable", "nullable", n3, n4, n5, n6);
  }

  /** At most one column, named `name`, holding `value` when that is non-null. */
  predicate SingleColumn(c: Columns, name: string, value: Option<string>) {
    c.Keys <= {name} && Lookup(c, name) == value
  }

  lemma SingleColumnSize(c: Columns, name: string, value: Option<string>)
    requires SingleColumn(c, name, value)
    ensures |c| == Count(value.Some?)
  {
    if value.Some? {
      assert c.Keys == {name};
    } else {
      assert c.Keys == {};
    }
  }

  /** The six per-field column maps an accepted entity is the union of. */
  lemma Components(e: NullableEntity) returns (c1: Columns, c2: Columns, c3: Columns, c4: Columns, c5: Columns, c6: Columns)
    requires EntityColumns(e).Ok?
    ensures EntityColumns(e).value == c1 + c2 + c3 + c4 + c5 + c6
    ensures SingleColumn(c1, "notnullable", e.notnullable)
    ensures SingleColumn(c2, "nullable", e.nullable)
    ensures SingleColumn(c3, NestedColumn(NotnullableAllOptional, "nullable"), OptionalChild(e.notnullableAllOptionalNestedEntity))
    ensures SingleColumn(c4, NestedColumn(NullableAllOptional, "nullable"), OptionalChild(e.nullableAllOptionalNestedEntity))
    ensures SingleColumn(c5, NestedColumn(NotnullableAllMandatory, "notnullable"), MandatoryChild(e.notnullableAllMandatoryNestedEntity))
    ensures SingleColumn(c6, NestedColumn(NullableAllMandatory, "notnullable"), MandatoryChild(e.nullableAllMandatoryNestedEntity))
  {
    c1 := LeafColumns("", "notnullable", false, e.notnullable).value;
    c2 := LeafColumns("", "nullable", true, e.nullable).value;
    c3 := AllOptionalColumns(NotnullableAllOptional, false, e.notnullableAllOptionalNestedEntity).value;
    c4 := AllOptionalColumns(NullableAllOptional, true, e.nullableAllOptionalNestedEntity).value;
    c5 := AllMandatoryColumns(NotnullableAllMandatory, false, e.notnullableAllMandatoryNestedEntity).value;
    c6 := AllMandatoryColumns(NullableAllMandatory, true, e.nullableAllMandatoryNestedEntity).value;
    assert "" + "notnullable" == "notnullable";
    assert "" + "nullable" == "nullable";
  }

  /** The six column names differ in length, so they are distinct. */
  lemma ColumnNamesDistinct()
    ensures |NestedColumn(NotnullableAllOptional, "nullable")| == 43
    ensures |NestedColumn(NullableAllOptional, "nullable")| == 40
    ensures |NestedColumn(NotnullableAllMandatory, "notnullable")| == 47
    ensures |NestedColumn(NullableAllMandatory, "notnullable")| == 44
  {
  }

  /** The column names the entity can have. */
  function ColumnNames(): set<string> {
    {"notnullable", "nullable",
     NestedColumn(NotnullableAllOptional, "nullable"), NestedColumn(NullableAllOptional, "nullable"),
     NestedColumn(NotnullableAllMandatory, "notnullable"), NestedColumn(NullableAllMandatory, "notnullable")}
  }

  /** An accepted entity has one column per non-null value. */
  lemma ColumnCount(e: NullableEntity)
    requires EntityColumns(e).Ok?
    ensures |EntityColumns(e).value| == NonNullValues(e)
  {
    var c1, c2, c3, c4, c5, c6 := Components(e);
    var n3, n4 := NestedColumn(NotnullableAllOptional, "nullable"), NestedColumn(NullableAllOptional, "nullable");
    var n5, n6 := NestedColumn(NotnullableAllMandatory, "notnullable"), NestedColumn(NullableAllMandatory, "notnullable");
    assert |n3| == 43 && |n4| == 40 && |n5| == 47 && |n6| == 44 by {
      ColumnNamesDistinct();
    }
    SingleColumnSize(c1, "notnullable", e.notnullable);
    SingleColumnSize(c2, "nullable", e.nullable);
    SingleColumnSize(c3, n3, OptionalChild(e.notnullableAllOptionalNestedEntity));
    SingleColumnSize(c4, n4, OptionalChild(e.nullableAllOptionalNestedEntity));
    SingleColumnSize(c5, n5, MandatoryChild(e.notnullableAllMandatoryNestedEntity));
    SingleColumnSize(c6, n6, MandatoryChild(e.nullableAllMandatoryNestedEntity));
    UnionSize(c1, c2, c3, c4, c5, c6, "notnullable", "nullable", n3, n4, n5, n6);
  }

  /** Six maps of at most one column each, under names of six different lengths: the union adds the sizes. */
  lemma UnionSize(c1: Columns, c2: Columns, c3: Columns, c4: Columns, c5: Columns, c6: Columns,
                  k1: string, k2: string, k3: string, k4: string, k5: string, k6: string)
    requires c1.Keys <= {k1} && c2.Keys <= {k2} && c3.Keys <= {k3}
    requires c4.Keys <= {k4} && c5.Keys <= {k5} && c6.Keys <= {k6}
    requires |k1| == 11 && |k2| == 8 && |k3| == 43 && |k4| == 40 && |k5| == 47 && |k6| == 44
    ensures |c1 + c2 + c3 + c4 + c5 + c6| == |c1| + |c2| + |c3| + |c4| + |c5| + |c6|
  {
    AddColumnSize(c1, c2, {11}, k2);
    AddColumnSize(c1 + c2, c3, {11, 8}, k3);
    AddColumnSize(c1 + c2 + c3, c4, {11, 8, 43}, k4);
    AddColumnSize(c1 + c2 + c3 + c4, c5, {11, 8, 43, 40}, k5);
    AddColumnSize(c1 + c2 + c3 + c4 + c5, c6, {11, 8, 43, 40, 47}, k6);
  }

  /** In the union of six single-column maps under names of different lengths, each name keeps its value. */
  lemma UnionLookup(c1: Columns, c2: Columns, c3: Columns, c4: Columns, c5: Columns, c6: Columns,
                    k1: string, k2: string, k3: string, k4: string, k5: string, k6: string)
    requires c1.Keys <= {k1} && c2.Keys <= {k2} && c3.Keys <= {k3}
    requires c4.Keys <= {k4} && c5.Keys <= {k5} && c6.Keys <= {k6}
    requires |k1| == 11 && |k2| == 8 && |k3| == 43 && |k4| == 40 && |k5| == 47 && |k6| == 44
    ensures Lookup(c1 + c2 + c3 + c4 + c5 + c6, k1) == Lookup(c1, k1)
    ensures Lookup(c1 + c2 + c3 + c4 + c5 + c6, k2) == Lookup(c2, k2)
    ensures Lookup(c1 + c2 + c3 + c4 + c5 + c6, k3) == Lookup(c3, k3)
    ensures Lookup(c1 + c2 + c3 + c4 + c5 + c6, k4) == Lookup(c4, k4)
    ensures Lookup(c1 + c2 + c3 + c4 + c5 + c6, k5) == Lookup(c5, k5)
    ensures Lookup(c1 + c2 + c3 + c4 + c5 + c6, k6) == Lookup(c6, k6)
    ensures (c1 + c2 + c3 + c4 + c5 + c6).Keys <= {k1, k2, k3, k4, k5, k6}
  {
  }

  /**
   * Adding a map of at most one column, whose name is longer or shorter than every name used so
   * far, adds its size.
   */
  lemma AddColumnSize(a: Columns, b: Columns, usedLengths: set<nat>, name: string)
    requires forall k :: k in a ==> |k| in usedLengths
    requires b.Keys <= {name} && |name| !in usedLengths
    ensures |a + b| == |a| + |b|
    ensures forall k :: k in a + b ==> |k| in usedLengths + {|name|}
  {
    assert (a + b).Keys == a.Keys + b.Keys;
    assert a.Keys !! b.Keys;
  }

  /**
   * Put rejects exactly the entities that break the nullability rule, and the message names a
   * field that breaks it.
   */
  lemma RejectionRule(e: NullableEntity)
    ensures EntityColumns(e).Err? <==> exists field :: Rejects(e, field)
    ensures EntityColumns(e).Err? ==> exists field :: Rejects(e, field) && EntityColumns(e).error == NullValueError(field)
  {
    if e.notnullable.None? {
      assert Rejects(e, "notnullable");
    } else if e.notnullableAllOptionalNestedEntity.None? {
      assert Rejects(e, NotnullableAllOptional);
    } else if e.notnullableAllMandatoryNestedEntity.None? {
      assert Rejects(e, NotnullableAllMandatory);
    } else if MandatoryChildNull(e.notnullableAllMandatoryNestedEntity) || MandatoryChildNull(e.nullableAllMandatoryNestedEntity) {
      assert Rejects(e, "notnullable");
    }
  }

  /**
   * A nested entity read back from the row: present when its column is, otherwise null for a
   * nullable field and an empty entity for a non-nullable one.
   */
  function ReadAllOptional(cols: Columns, name: string, nullable: bool): Option<AllOptionalNestedEntity> {
    var child := Lookup(cols, NestedColumn(name, "nullable"));
    if child.None? && nullable then None else Some(AllOptionalNestedEntity(child))
  }

  function ReadAllMandatory(cols: Columns, name: string, nullable: bool): Option<AllMandatoryNestedEntity> {
    var child := Lookup(cols, NestedColumn(name, "notnullable"));
    if child.None? && nullable then None else Some(AllMandatoryNestedEntity(child))
  }

  /** The entity `get` builds from a non-empty row; absent columns become null fields. */
  function EntityFromColumns(id: string, cols: Columns): NullableEntity {
    NullableEntity(
      id,
      Lookup(cols, "notnullable"),
      Lookup(cols, "nullable"),
      ReadAllOptional(cols, NotnullableAllOptional, false),
      ReadAllOptional(cols, NullableAllOptional, true),
      ReadAllMandatory(cols, NotnullableAllMandatory, false),
      ReadAllMandatory(cols, NullableAllMandatory, true))
  }

  /**
   * What a row cannot tell apart: a present nullable nested entity whose fields are all null
   * writes no column, exactly like a null one.
   */
  function Normalized(e: NullableEntity): NullableEntity {
    e.(nullableAllOptionalNestedEntity :=
         if OptionalChild(e.nullableAllOptionalNestedEntity).None? then None else e.nullableAllOptionalNestedEntity,
       nullableAllMandatoryNestedEntity :=
         if MandatoryChild(e.nullableAllMandatoryNestedEntity).None? then None else e.nullableAllMandatoryNestedEntity)
  }

  /** Every present nullable nested entity has a non-null field, so it writes at least one column. */
  predicate NullableNestedNonEmpty(e: NullableEntity) {
    && (e.nullableAllOptionalNestedEntity.Some? ==> e.nullableAllOptionalNestedEntity.value.nullable.Some?)
    && (e.nullableAllMandatoryNestedEntity.Some? ==> e.nullableAllMandatoryNestedEntity.value.notnullable.Some?)
  }

  lemma NormalizedIdentity(e: NullableEntity)
    ensures Normalized(e) == e <==> NullableNestedNonEmpty(e)
  {
  }

  /** The stored columns of row `id`; a missing row has none. */
  function RowColumns(rows: map<string, Columns>, id: string): Columns {
    if id in rows then rows[id] else map[]
  }

  /** The rows after `put`: the entity's columns are added to its row, overwriting same-named ones. */
  function PutRow(rows: map<string, Columns>, e: NullableEntity): Result<map<string, Columns>, PersistenceException> {
    match EntityColumns(e)
    case Err(cause) => Err(PersistenceException(cause))
    case Ok(cols) => Ok(rows[e.id := RowColumns(rows, e.id) + cols])
  }

  /** What `get` returns: null for a row without columns, otherwise the entity read from the row. */
  function GetRow(rows: map<string, Columns>, id: string): Option<NullableEntity> {
    var cols := RowColumns(rows, id);
    if cols == map[] then None else Some(EntityFromColumns(id, cols))
  }

  /** The rows after `delete`: the row has no column left, and no other row changes. */
  function DeleteRow(rows: map<string, Columns>, id: string): (r: map<string, Columns>)
    ensures RowColumns(r, id) == map[]
    ensures forall other :: other != id ==> RowColumns(r, other) == RowColumns(rows, other)
  {
    rows - {id}
  }

  /**
   * Get after put into an empty row returns the entity up to what the row cannot tell apart; in
   * particular null fields come back null and a null nullable nested entity comes back null.
   */
  lemma GetAfterPut(rows: map<string, Columns>, e: NullableEntity)
    requires RowColumns(rows, e.id) == map[]
    requires PutRow(rows, e).Ok?
    ensures GetRow(PutRow(rows, e).value, e.id) == Some(Normalized(e))
  {
    var cols := EntityColumns(e).value;
    ColumnLayout(e);
    assert RowColumns(PutRow(rows, e).value, e.id) == cols;
    assert "notnullable" in cols;
  }

  /** Get after put returns an equal entity whenever no nullable nested entity is empty. */
  lemma GetAfterPutEqual(rows: map<string, Columns>, e: NullableEntity)
    requires RowColumns(rows, e.id) == map[]
    requires PutRow(rows, e).Ok? && NullableNestedNonEmpty(e)
    ensures GetRow(PutRow(rows, e).value, e.id) == Some(e)
  {
    GetAfterPut(rows, e);
    NormalizedIdentity(e);
  }

  /** A rejected put changes no row. */
  lemma RejectedPutWritesNothing(rows: map<string, Columns>, e: NullableEntity, field: string)
    requires Rejects(e, field)
    ensures PutRow(rows, e) == Err(PersistenceException(EntityColumns(e).error))
  {
    RejectionRule(e);
  }

  /** The column family the entity manager reads and writes: row key to columns. */
  class EntityManager {
    var rows: map<string, Columns>

    constructor ()
      ensures rows == map[]
    {
      rows := map[];
    }

    /** Writes the entity's columns into its row in one batch, or throws without writing anything. */
    method Put(e: NullableEntity) returns (r: Result<(), PersistenceException>)
      modifies this
      ensures r.Ok? <==> PutRow(old(rows), e).Ok?
      ensures r.Ok? ==> rows == PutRow(old(rows), e).value
      ensures r.Err? ==> r.error == PutRow(old(rows), e).error && rows == old(rows)
    {
      var next := PutRow(rows, e);
      if next.Err? {
        return Err(next.error);
      }
      rows := next.value;
      return Ok(());
    }

    method Get(id: string) returns (e: Option<NullableEntity>)
      ensures e == GetRow(rows, id)
      ensures e.Some? ==> e.value.id == id
    {
      e := GetRow(rows, id);
    }

    method Delete(id: string)
      modifies this
      ensures rows == DeleteRow(old(rows), id)
    {
      rows := DeleteRow(rows, id);
    }

    /** The columns a low-level query of row `id` returns. */
    function Row(id: string): Columns
      reads this
    {
      RowColumns(rows, id)
    }
  }
}
