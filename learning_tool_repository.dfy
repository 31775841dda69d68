/** `PanacheLearningToolRepository`: the learning-tool table behind the tool
    service, as a `Tables.Table` of entity rows, listed in the modelled insertion order. */
module LearningToolRepository {
  import opened Wrappers
  import opened Backend
  import opened Tables

  /** `toDomain`: a field copy that passes a null (absent) entity through. */
  function ToDomain(e: Option<LearningToolEntity>): (r: Option<LearningTool>)
    ensures r.None? <==> e.None?
  {
    if e.None? then None
    else Some(LearningTool(e.value.id, e.value.name, e.value.category, e.value.status, e.value.progress))
  }

  /** `toEntity`: the row a tool is written as; reading it back gives the
      tool. */
  function ToEntity(t: LearningTool): (r: LearningToolEntity)
    ensures ToDomain(Some(r)) == Some(t)
  {
    LearningToolEntity(t.id, t.name, t.category, t.status, t.progress)
  }

  /** Writing a row back from what was read from it gives the same row. */
  lemma ToEntityOfToDomain(e: LearningToolEntity)
    ensures ToEntity(ToDomain(Some(e)).value) == e
  {
  }

  /** The four assignments `update` makes on the stored row: name,
      category, status and progress come from `t`; the row keeps its id. */
  function Overwrite(e: LearningToolEntity, t: LearningTool): (r: LearningToolEntity)
    ensures r.id == e.id
    ensures ToDomain(Some(r)) == Some(t.(id := e.id))
  {
    e.(name := t.name, category := t.category, status := t.status, progress := t.progress)
  }

  /** Overwriting twice with the same tool is overwriting once. */
  lemma OverwriteIdempotent(e: LearningToolEntity, t: LearningTool)
    ensures Overwrite(Overwrite(e, t), t) == Overwrite(e, t)
  {
  }

  /** The domain tools of a list of rows, in order. */
  function Domains(rows: seq<LearningToolEntity>): (r: seq<LearningTool>)
    ensures |r| == |rows|
    ensures forall k :: 0 <= k < |rows| ==> Some(r[k]) == ToDomain(Some(rows[k]))
  {
    if rows == [] then [] else [ToDomain(Some(rows[0])).value] + Domains(rows[1..])
  }

  /** The tools of two lists of rows one after the other. */
  lemma DomainsAppend(a: seq<LearningToolEntity>, b: seq<LearningToolEntity>)
    ensures Domains(a + b) == Domains(a) + Domains(b)
  {
    var l, r := Domains(a + b), Domains(a) + Domains(b);
    forall k | 0 <= k < |l| ensures l[k] == r[k] {
      if k < |a| {
        assert (a + b)[k] == a[k];
      } else {
        assert (a + b)[k] == b[k - |a|];
      }
    }
  }

  /** Every row carries the id it is stored under. */
  predicate RowsCarryIds(t: Table<LearningToolEntity>) {
    forall id :: id in t.rows ==> t.rows[id].id == Some(id)
  }

  class PanacheLearningToolRepository {
    var table: Table<LearningToolEntity>

    predicate Valid()
      reads this
    {
      Tables.Valid(table) && RowsCarryIds(table)
    }

    /** An empty table. */
    constructor ()
      ensures Valid() && table == Empty()
    {
      table := Empty();
    }

    /** `findAll`: one tool per row, in `listAll` order. */
    function FindAll(): (r: seq<LearningTool>)
      reads this
      requires Valid()
      ensures |r| == |table.order| == |table.rows|
      ensures forall k :: 0 <= k < |r| ==> Some(r[k]) == ToDomain(Some(table.rows[table.order[k]]))
    {
      Domains(ListAll(table))
    }

    /** `findById`: the row with that id, read as a tool, or empty. */
    function FindById(id: int): (r: Option<LearningTool>)
      reads this
      requires Valid()
      ensures r.Some? <==> id in table.rows
      ensures r.Some? ==> r == ToDomain(Some(table.rows[id])) && r.value.id == Some(id)
    {
      if id in table.rows then ToDomain(Some(table.rows[id])) else None
    }

    /** `save`: `persist` of the tool's row. A tool without an id is stored
        under the next identity value and returned with it; one that
        already has an id is refused by `persist` and the table does not
        change. */
    method Save(t: LearningTool) returns (r: Result<LearningTool, string>)
      requires Valid()
      modifies this
      ensures Valid()
      ensures t.id.None? ==>
        table == Insert(old(table), ToEntity(t.(id := Some(old(table).nextId)))) &&
        r == Success(t.(id := Some(old(table).nextId)))
      ensures t.id.Some? ==> table == old(table) && r.Failure?
    {
      if t.id.Some? {
        return Failure("detached entity passed to persist");
      }
      var saved := t.(id := Some(table.nextId));
      table := Insert(table, ToEntity(saved));
      r := Success(saved);
    }

    /** `update`: when a row with the tool's id exists, its four fields are
        overwritten in place and the row is returned; otherwise nothing
        changes and the result is null. */
    method Update(t: LearningTool) returns (r: Option<LearningTool>)
      requires Valid() && t.id.Some?
      modifies this
      ensures Valid()
      ensures t.id.value in old(table).rows ==>
        table == Replace(old(table), t.id.value, Overwrite(old(table).rows[t.id.value], t)) &&
        r == Some(t)
      ensures t.id.value !in old(table).rows ==> table == old(table) && r.None?
    {
      var id := t.id.value;
      if id !in table.rows {
        return None;
      }
      table := Replace(table, id, Overwrite(table.rows[id], t));
      r := ToDomain(Some(table.rows[id]));
    }

    /** `deleteById`: only that row goes; an absent id deletes nothing. */
    method DeleteById(id: int)
      requires Valid()
      modifies this
      ensures Valid()
      ensures table == Remove(old(table), id)
    {
      table := Remove(table, id);
    }
  }

  /** A saved tool is listed last by `findAll`. */
  lemma FindAllAfterSave(t: Table<LearningToolEntity>, tool: LearningTool)
    requires Tables.Valid(t) && tool.id.None?
    ensures Domains(ListAll(Insert(t, ToEntity(tool.(id := Some(t.nextId)))))) ==
      Domains(ListAll(t)) + [tool.(id := Some(t.nextId))]
  {
    var row := ToEntity(tool.(id := Some(t.nextId)));
    InsertListsLast(t, row);
    DomainsAppend(ListAll(t), [row]);
  }
}
