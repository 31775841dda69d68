/** `ProjectMapper`: the conversions between the project DTO and the domain
    project. Both copy every field to the field of the same name and pass a
    null through. */
module ProjectMapper {
  import opened Wrappers
  import opened Backend

  /** `toDTO`. */
  function ToDTO(p: Option<Project>): (r: Option<ProjectDTO>)
    ensures r.None? <==> p.None?
  {
    if p.None? then None
    else
      var q := p.value;
      Some(ProjectDTO(q.id, q.title, q.description, q.technologies, q.problem, q.learning,
        q.features, q.architecture, q.githubUrl, q.demoUrl, q.imageUrls, q.version))
  }

  /** `toDomain`; converting the result back gives the DTO it came from. */
  function ToDomain(d: Option<ProjectDTO>): (r: Option<Project>)
    ensures r.None? <==> d.None?
    ensures ToDTO(r) == d
  {
    if d.None? then None
    else
      var q := d.value;
      Some(Project(q.id, q.title, q.description, q.technologies, q.problem, q.learning,
        q.features, q.architecture, q.githubUrl, q.demoUrl, q.imageUrls, q.version))
  }

  /** Converting a project to its DTO and back gives the same project: no
      field is dropped or swapped, `id` and `version` included. */
  lemma ToDomainOfToDTO(p: Option<Project>)
    ensures ToDomain(ToDTO(p)) == p
  {
  }

  /** Two projects with the same DTO are the same project. */
  lemma ToDTOInjective(p: Option<Project>, q: Option<Project>)
    requires ToDTO(p) == ToDTO(q)
    ensures p == q
  {
    ToDomainOfToDTO(p);
    ToDomainOfToDTO(q);
  }
}
