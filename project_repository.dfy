/** `PanacheProjectRepository`: the project table behind the project
    service. The table is a `Tables.Table` of entity rows; `listAll` order is
    modelled as insertion order (the query has no ORDER BY). */
module ProjectRepository {
  import opened Wrappers
  import opened Backend
  import opened Tables

  /** `toDomain`: a field copy that passes a null (absent) entity through. */
  function ToDomain(e: Option<ProjectEntity>): (r: Option<Project>)
    ensures r.None? <==> e.None?
  {
    if e.None? then None
    else
      var q := e.value;
      Some(Project(q.id, q.title, q.description, q.technologies, q.problem, q.learning,
        q.features, q.architecture, q.githubUrl, q.demoUrl, q.imageUrls, q.version))
  }

  /** `toEntity`: the row a project is written as; reading it back gives the
      project. */
  function ToEntity(p: Project): (r: ProjectEntity)
    ensures ToDomain(Some(r)) == Some(p)
  {
    ProjectEntity(p.id, p.title, p.description, p.technologies, p.problem, p.learning,
      p.features, p.architecture, p.githubUrl, p.demoUrl, p.imageUrls, p.version)
  }

  /** Writing a row back from what was read from it gives the same row. */
  lemma ToEntityOfToDomain(e: ProjectEntity)
    ensures ToEntity(ToDomain(Some(e)).value) == e
  {
  }

  /** The ten assignments `update` makes on the stored row: every content
      field comes from `p`, while the row keeps its own `id` and `version`. */
  function Overwrite(e: ProjectEntity, p: Project): (r: ProjectEntity)
    ensures r.id == e.id && r.version == e.version
    ensures ToDomain(Some(r)) == Some(p.(id := e.id, version := e.version))
  {
    e.(title := p.title, description := p.description, technologies := p.technologies,
      problem := p.problem, learning := p.learning, features := p.features,
      architecture := p.architecture, githubUrl := p.githubUrl, demoUrl := p.demoUrl,
      imageUrls := p.imageUrls)
  }

  /** The version a client sends in an update is never stored: two updates
      that differ only in `version` (or `id`) write the same row. */
  lemma OverwriteIgnoresVersion(e: ProjectEntity, p: Project, v: string, id: Option<int>)
    ensures Overwrite(e, p.(version := v, id := id)) == Overwrite(e, p)
  {
  }

  /** Overwriting twice with the same project is overwriting once. */
  lemma OverwriteIdempotent(e: ProjectEntity, p: Project)
    ensures Overwrite(Overwrite(e, p), p) == Overwrite(e, p)
  {
  }

  /** The domain projects of a list of rows, in order. */
  function Domains(rows: seq<ProjectEntity>): (r: seq<Project>)
    ensures |r| == |rows|
    ensures forall k :: 0 <= k < |rows| ==> Some(r[k]) == ToDomain(Some(rows[k]))
  {
    if rows == [] then [] else [ToDomain(Some(rows[0])).value] + Domains(rows[1..])
  }

  /** The projects of two lists of rows one after the other. */
  lemma DomainsAppend(a: seq<ProjectEntity>, b: seq<ProjectEntity>)
    ensures Domains(a + b) == Domains(a) + Domains(b)
  {
    var l, r := Domains(a + b), Domains(a) + Domains(b);
    forall k | 0 <= k < |l| ensures l[k] == r[k] {
      if k < |a| {
        assert (a + b)[k] == a[k];
      } else {
        assert (a + b)[k] == b[k - |a|];
      }
    }
  }

  /** A saved project is listed last by `findAll`, after the projects listed
      before. */
  lemma FindAllAfterSave(t: Table<ProjectEntity>, p: Project)
    requires Tables.Valid(t) && p.id.None?
    ensures Domains(ListAll(Insert(t, ToEntity(p.(id := Some(t.nextId)))))) ==
      Domains(ListAll(t)) + [p.(id := Some(t.nextId))]
  {
    var row := ToEntity(p.(id := Some(t.nextId)));
    InsertListsLast(t, row);
    DomainsAppend(ListAll(t), [row]);
  }

  /** Every row carries the id it is stored under. */
  predicate RowsCarryIds(t: Table<ProjectEntity>) {
    forall id :: id in t.rows ==> t.rows[id].id == Some(id)
  }

  class PanacheProjectRepository {
    var table: Table<ProjectEntity>

    predicate Valid()
      reads this
    {
      Tables.Valid(table) && RowsCarryIds(table)
    }

    /** An empty table. */
    constructor ()
      ensures Valid() && table == Empty()
    {
      table := Empty();
    }

    /** `findAll`: one project per row, in `listAll` order. */
    function FindAll(): (r: seq<Project>)
      reads this
      requires Valid()
      ensures |r| == |table.order| == |table.rows|
      ensures forall k :: 0 <= k < |r| ==> Some(r[k]) == ToDomain(Some(table.rows[table.order[k]]))
    {
      Domains(ListAll(table))
    }

    /** `findById`: the row with that id, read as a project, or empty. */
    function FindById(id: int): (r: Option<Project>)
      reads this
      requires Valid()
      ensures r.Some? <==> id in table.rows
      ensures r.Some? ==> r == ToDomain(Some(table.rows[id])) && r.value.id == Some(id)
    {
      if id in table.rows then ToDomain(Some(table.rows[id])) else None
    }

    /** `save`: `persist` of the project's row. A project without an id is
        stored under the next identity value and returned with it; one that
        already has an id is refused by `persist` (the entity counts as
        detached) and the table does not change. */
    method Save(p: Project) returns (r: Result<Project, string>)
      requires Valid()
      modifies this
      ensures Valid()
      ensures p.id.None? ==>
        table == Insert(old(table), ToEntity(p.(id := Some(old(table).nextId)))) &&
        r == Success(p.(id := Some(old(table).nextId)))
      ensures p.id.Some? ==> table == old(table) && r.Failure?
    {
      if p.id.Some? {
        return Failure("detached entity passed to persist");
      }
      var id := table.nextId;
      var saved := p.(id := Some(id));
      table := Insert(table, ToEntity(saved));
      r := Success(saved);
    }

    /** `update`: when a row with the project's id exists, its ten content
        fields are overwritten in place and the row is returned; otherwise
        nothing changes and the result is null. */
    method Update(p: Project) returns (r: Option<Project>)
      requires Valid() && p.id.Some?
      modifies this
      ensures Valid()
      ensures p.id.value in old(table).rows ==>
        table == Replace(old(table), p.id.value, Overwrite(old(table).rows[p.id.value], p)) &&
        r == ToDomain(Some(table.rows[p.id.value]))
      ensures p.id.value !in old(table).rows ==> table == old(table) && r.None?
    {
      var id := p.id.value;
      if id !in table.rows {
        return None;
      }
      table := Replace(table, id, Overwrite(table.rows[id], p));
      r := ToDomain(Some(table.rows[id]));
    }

    /** `deleteById`: only that row goes; an absent id deletes nothing. */
    method DeleteById(id: int)
      requires Valid()
      modifies this
      ensures Valid()
      ensures table == Remove(old(table), id)
    {
      table := Remove(table, id);
    }
  }

  /** An update of a stored project keeps its id and version and takes
      every other field from the update. */
  lemma UpdatedRow(t: Table<ProjectEntity>, p: Project)
    requires Tables.Valid(t) && RowsCarryIds(t) && p.id.Some? && p.id.value in t.rows
    ensures var u := Replace(t, p.id.value, Overwrite(t.rows[p.id.value], p));
      ToDomain(Some(u.rows[p.id.value])) == Some(p.(version := t.rows[p.id.value].version))
  {
  }

  /** The row ids stay the ids the rows are stored under across a save, an
      update and a delete. */
  lemma RowsCarryIdsKept(t: Table<ProjectEntity>, p: Project, id: int)
    requires Tables.Valid(t) && RowsCarryIds(t)
    ensures RowsCarryIds(Insert(t, ToEntity(p.(id := Some(t.nextId)))))
    ensures RowsCarryIds(Remove(t, id))
    ensures id in t.rows ==> RowsCarryIds(Replace(t, id, Overwrite(t.rows[id], p)))
  {
  }
}
