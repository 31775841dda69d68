/** `ProjectService`: the project use cases, between the REST layer's DTOs
    and the project repository. */
module ProjectService {
  import opened Wrappers
  import opened Backend
  import opened Tables
  import ProjectMapper
  import ProjectRepository

  /** The message of the exception `getProjectById` throws. */
  const NotFound := "Proyecto no encontrado"

  /** What `updateProject` hands to the repository: the DTO's project with
      the id of the request path, whatever id the DTO carried. */
  function WithPathId(id: int, dto: ProjectDTO): (r: Project)
    ensures r.id == Some(id)
    ensures ProjectMapper.ToDTO(Some(r)) == Some(dto.(id := Some(id)))
  {
    ProjectMapper.ToDomain(Some(dto)).value.(id := Some(id))
  }

  /** The id inside the DTO of an update plays no part. */
  lemma PathIdWins(id: int, d1: ProjectDTO, d2: ProjectDTO)
    requires d1.(id := None) == d2.(id := None)
    ensures WithPathId(id, d1) == WithPathId(id, d2)
  {
    assert d1.(id := Some(id)) == d2.(id := Some(id));
    ProjectMapper.ToDTOInjective(Some(WithPathId(id, d1)), Some(WithPathId(id, d2)));
  }

  /** The DTO of a stored row. */
  function RowDTO(e: ProjectEntity): ProjectDTO {
    ProjectMapper.ToDTO(ProjectRepository.ToDomain(Some(e))).value
  }

  /** The DTOs of a list of projects, in order. */
  function DTOs(ps: seq<Project>): (r: seq<ProjectDTO>)
    ensures |r| == |ps|
    ensures forall k :: 0 <= k < |ps| ==> Some(r[k]) == ProjectMapper.ToDTO(Some(ps[k]))
  {
    if ps == [] then [] else [ProjectMapper.ToDTO(Some(ps[0])).value] + DTOs(ps[1..])
  }

  class ProjectService {
    const repo: ProjectRepository.PanacheProjectRepository

    constructor (repo: ProjectRepository.PanacheProjectRepository)
      ensures this.repo == repo
    {
      this.repo := repo;
    }

    /** `getAllProjects`: one DTO per stored project, in repository order. */
    function GetAllProjects(): (r: seq<ProjectDTO>)
      reads this, repo
      requires repo.Valid()
      ensures |r| == |repo.table.order| == |repo.table.rows|
      ensures forall k :: 0 <= k < |r| ==> r[k] == RowDTO(repo.table.rows[repo.table.order[k]])
    {
      DTOs(repo.FindAll())
    }

    /** `getProjectById`: the stored project's DTO, or the "not found"
        exception. */
    function GetProjectById(id: int): (r: Result<ProjectDTO, string>)
      reads this, repo
      requires repo.Valid()
      ensures r.Success? <==> id in repo.table.rows
      ensures r.Success? ==> r.value == RowDTO(repo.table.rows[id]) && r.value.id == Some(id)
      ensures r.Failure? ==> r.error == NotFound
    {
      var found := repo.FindById(id);
      if found.Some? then Success(ProjectMapper.ToDTO(found).value) else Failure(NotFound)
    }

    /** `createProject`: the DTO's project saved; the answer is the saved
        row's DTO, which is the request with the new id. */
    method CreateProject(dto: ProjectDTO) returns (r: Result<ProjectDTO, string>)
      requires repo.Valid()
      modifies repo
      ensures repo.Valid()
      ensures dto.id.None? ==>
        repo.table == Insert(old(repo.table), ProjectRepository.ToEntity(ProjectMapper.ToDomain(Some(dto)).value.(id := Some(old(repo.table).nextId)))) &&
        r == Success(dto.(id := Some(old(repo.table).nextId)))
      ensures dto.id.Some? ==> repo.table == old(repo.table) && r.Failure?
    {
      var project := ProjectMapper.ToDomain(Some(dto)).value;
      var saved := repo.Save(project);
      if saved.Failure? {
        return Failure(saved.error);
      }
      r := Success(ProjectMapper.ToDTO(Some(saved.value)).value);
    }

    /** `updateProject`: the update goes to the row of the path id. The
        answer is the updated row's DTO (the request's content with the path
        id and the stored version), or null when no such row exists. */
    method UpdateProject(id: int, dto: ProjectDTO) returns (r: Option<ProjectDTO>)
      requires repo.Valid()
      modifies repo
      ensures repo.Valid()
      ensures id in old(repo.table).rows ==>
        repo.table == Replace(old(repo.table), id, ProjectRepository.Overwrite(old(repo.table).rows[id], WithPathId(id, dto))) &&
        r == Some(dto.(id := Some(id), version := old(repo.table).rows[id].version))
      ensures id !in old(repo.table).rows ==> repo.table == old(repo.table) && r.None?
    {
      var project := WithPathId(id, dto);
      var updated := repo.Update(project);
      r := ProjectMapper.ToDTO(updated);
    }

    /** `deleteProject`: only that project goes. */
    method DeleteProject(id: int)
      requires repo.Valid()
      modifies repo
      ensures repo.Valid()
      ensures repo.table == Remove(old(repo.table), id)
    {
      repo.DeleteById(id);
    }
  }

  /** After an update of a stored project, reading it back gives the DTO the
      update answered with. */
  lemma UpdateThenGet(t: Table<ProjectEntity>, id: int, dto: ProjectDTO)
    requires Tables.Valid(t) && ProjectRepository.RowsCarryIds(t) && id in t.rows
    ensures RowDTO(Replace(t, id, ProjectRepository.Overwrite(t.rows[id], WithPathId(id, dto))).rows[id]) ==
      dto.(id := Some(id), version := t.rows[id].version)
  {
  }
}
