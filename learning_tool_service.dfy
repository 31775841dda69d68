/** `LearningToolService`: the learning-tool use cases, between the REST
    layer's DTOs and the tool repository. */
module LearningToolService {
  import opened Wrappers
  import opened Backend
  import opened Tables
  import LearningToolMapper
  import LearningToolRepository

  /** The message of the exception `getToolById` throws. */
  const NotFound := "Tool not found"

  /** What `updateTool` fails with when no row has the path id: the mapper
      dereferences the null the repository returns. */
  const NullDereference := "NullPointerException"

  /** What `updateTool` hands to the repository: the DTO's tool with the id
      of the request path, whatever id the DTO carried. */
  function WithPathId(id: int, dto: LearningToolDTO): (r: LearningTool)
    ensures r.id == Some(id)
    ensures LearningToolMapper.ToDTO(r) == dto.(id := Some(id))
  {
    LearningToolMapper.ToDomain(dto).(id := Some(id))
  }

  /** The id inside the DTO of an update plays no part. */
  lemma PathIdWins(id: int, d1: LearningToolDTO, d2: LearningToolDTO)
    requires d1.(id := None) == d2.(id := None)
    ensures WithPathId(id, d1) == WithPathId(id, d2)
  {
    assert d1.(id := Some(id)) == d2.(id := Some(id));
    LearningToolMapper.ToDTOInjective(WithPathId(id, d1), WithPathId(id, d2));
  }

  /** The DTO of a stored row. */
  function RowDTO(e: LearningToolEntity): LearningToolDTO {
    LearningToolMapper.ToDTO(LearningToolRepository.ToDomain(Some(e)).value)
  }

  /** The DTOs of a list of tools, in order. */
  function DTOs(ts: seq<LearningTool>): (r: seq<LearningToolDTO>)
    ensures |r| == |ts|
    ensures forall k :: 0 <= k < |ts| ==> r[k] == LearningToolMapper.ToDTO(ts[k])
  {
    if ts == [] then [] else [LearningToolMapper.ToDTO(ts[0])] + DTOs(ts[1..])
  }

  class LearningToolService {
    const repo: LearningToolRepository.PanacheLearningToolRepository

    constructor (repo: LearningToolRepository.PanacheLearningToolRepository)
      ensures this.repo == repo
    {
      this.repo := repo;
    }

    /** `getAllTools`: one DTO per stored tool, in repository order. */
    function GetAllTools(): (r: seq<LearningToolDTO>)
      reads this, repo
      requires repo.Valid()
      ensures |r| == |repo.table.order| == |repo.table.rows|
      ensures forall k :: 0 <= k < |r| ==> r[k] == RowDTO(repo.table.rows[repo.table.order[k]])
    {
      DTOs(repo.FindAll())
    }

    /** `getToolById`: the stored tool's DTO, or the "not found" exception. */
    function GetToolById(id: int): (r: Result<LearningToolDTO, string>)
      reads this, repo
      requires repo.Valid()
      ensures r.Success? <==> id in repo.table.rows
      ensures r.Success? ==> r.value == RowDTO(repo.table.rows[id]) && r.value.id == Some(id)
      ensures r.Failure? ==> r.error == NotFound
    {
      var found := repo.FindById(id);
      if found.Some? then Success(LearningToolMapper.ToDTO(found.value)) else Failure(NotFound)
    }

    /** `createTool`: the DTO's tool saved; the answer is the saved row's
        DTO, which is the request with the new id. */
    method CreateTool(dto: LearningToolDTO) returns (r: Result<LearningToolDTO, string>)
      requires repo.Valid()
      modifies repo
      ensures repo.Valid()
      ensures dto.id.None? ==>
        repo.table == Insert(old(repo.table), LearningToolRepository.ToEntity(LearningToolMapper.ToDomain(dto).(id := Some(old(repo.table).nextId)))) &&
        r == Success(dto.(id := Some(old(repo.table).nextId)))
      ensures dto.id.Some? ==> repo.table == old(repo.table) && r.Failure?
    {
      var tool := LearningToolMapper.ToDomain(dto);
      var saved := repo.Save(tool);
      if saved.Failure? {
        return Failure(saved.error);
      }
      r := Success(LearningToolMapper.ToDTO(saved.value));
    }

    /** `updateTool`: the update goes to the row of the path id and the
        answer is the request with the path id. With no such row the
        repository returns null, which the mapper dereferences: the call
        fails instead of answering null. */
    method UpdateTool(id: int, dto: LearningToolDTO) returns (r: Result<LearningToolDTO, string>)
      requires repo.Valid()
      modifies repo
      ensures repo.Valid()
      ensures id in old(repo.table).rows ==>
        repo.table == Replace(old(repo.table), id, LearningToolRepository.Overwrite(old(repo.table).rows[id], WithPathId(id, dto))) &&
        r == Success(dto.(id := Some(id)))
      ensures id !in old(repo.table).rows ==> repo.table == old(repo.table) && r == Failure(NullDereference)
    {
      var tool := WithPathId(id, dto);
      var updated := repo.Update(tool);
      if updated.None? {
        return Failure(NullDereference);
      }
      r := Success(LearningToolMapper.ToDTO(updated.value));
    }

    /** `deleteTool`: only that tool goes. */
    method DeleteTool(id: int)
      requires repo.Valid()
      modifies repo
      ensures repo.Valid()
      ensures repo.table == Remove(old(repo.table), id)
    {
      repo.DeleteById(id);
    }
  }

  /** After an update of a stored tool, reading it back gives the DTO the
      update answered with. */
  lemma UpdateThenGet(t: Table<LearningToolEntity>, id: int, dto: LearningToolDTO)
    requires Tables.Valid(t) && LearningToolRepository.RowsCarryIds(t) && id in t.rows
    ensures RowDTO(Replace(t, id, LearningToolRepository.Overwrite(t.rows[id], WithPathId(id, dto))).rows[id]) ==
      dto.(id := Some(id))
  {
  }
}
