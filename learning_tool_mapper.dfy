/** `LearningToolMapper`: the conversions between the learning-tool DTO and
    the domain tool. Unlike the project mapper there is no null check, so a
    null argument makes both throw; the arguments here are never null. */
module LearningToolMapper {
  import opened Backend

  /** `toDTO`. */
  function ToDTO(t: LearningTool): (r: LearningToolDTO)
    ensures r.id == t.id
  {
    LearningToolDTO(t.id, t.name, t.category, t.status, t.progress)
  }

  /** `toDomain`; converting the result back gives the DTO it came from. */
  function ToDomain(d: LearningToolDTO): (r: LearningTool)
    ensures r.id == d.id
    ensures ToDTO(r) == d
  {
    LearningTool(d.id, d.name, d.category, d.status, d.progress)
  }

  /** Converting a tool to its DTO and back gives the same tool on all five
      fields. */
  lemma ToDomainOfToDTO(t: LearningTool)
    ensures ToDomain(ToDTO(t)) == t
  {
  }

  /** Two tools with the same DTO are the same tool. */
  lemma ToDTOInjective(t: LearningTool, u: LearningTool)
    requires ToDTO(t) == ToDTO(u)
    ensures t == u
  {
    ToDomainOfToDTO(t);
    ToDomainOfToDTO(u);
  }
}
