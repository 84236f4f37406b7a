/**
  The project handlers of `ProjectController` over the Project collection.
  The acting user (`req.user.id`, set by authentication) is the `actor`
  parameter; `req.project` for update and delete is the project id `pid`,
  which the route's middleware has already resolved to a stored project.
 */
module Projects {
  import opened Responses
  import opened Ids

  datatype Project = Project(
    projectName: string,
    clientName: string,
    description: string,
    manager: UserId,
    team: seq<UserId>)

  const ProjectCreated := "Proyecto Creado Correctamente"
  const ProjectNotFound := "Proyecto no encontrado"
  const InvalidAction := "Acción no válida"
  const ProjectUpdated := "Proyecto Actualizado"
  const ProjectDeleted := "Proyecto Eliminado"

  /** Read access: the user manages the project or is on its team. */
  predicate CanRead(p: Project, user: UserId)
  {
    p.manager == user || user in p.team
  }

  /** Access depends on the manager and the team only: editing the descriptive fields grants or revokes nothing. */
  lemma AccessIgnoresDescription(p: Project, user: UserId, projectName: string, clientName: string,
                                 description: string)
    ensures CanRead(p.(projectName := projectName, clientName := clientName, description := description), user)
        <==> CanRead(p, user)
  {
  }

  class ProjectController {
    var projects: map<ProjectId, Project>
    var nextId: ProjectId

    ghost predicate Valid()
      reads this
    {
      forall pid :: pid in projects ==> pid < nextId
    }

    constructor ()
      ensures Valid() && projects == map[]
    {
      projects := map[];
      nextId := 0;
    }

    /** `getAllProjects`: the `$or` of manager and team membership. */
    function GetAllProjects(actor: UserId): (r: map<ProjectId, Project>)
      reads this
      ensures forall pid :: pid in r <==> pid in projects && CanRead(projects[pid], actor)
      ensures forall pid :: pid in r ==> r[pid] == projects[pid]
    {
      map pid | pid in projects && CanRead(projects[pid], actor) :: projects[pid]
    }

    /** `getProjectById`: absence and denial both answer 404. */
    function GetProjectById(pid: ProjectId, actor: UserId): (r: Response<Project>)
      reads this
      ensures r.Ok? <==> pid in projects && CanRead(projects[pid], actor)
      ensures r.Ok? ==> r.body == projects[pid]
      ensures r.Err? ==> r.status == NotFound
      ensures pid !in projects ==> r == Err(NotFound, ProjectNotFound)
      ensures pid in projects && !CanRead(projects[pid], actor) ==> r == Err(NotFound, InvalidAction)
    {
      if pid !in projects then Err(NotFound, ProjectNotFound)
      else if !CanRead(projects[pid], actor) then Err(NotFound, InvalidAction)
      else Ok(projects[pid])
    }

    /** The listing and the single lookup grant the same projects to the same user. */
    lemma ListingAgreesWithLookup(actor: UserId)
      ensures forall pid :: pid in GetAllProjects(actor) <==> GetProjectById(pid, actor).Ok?
      ensures forall pid :: pid in GetAllProjects(actor) ==>
        GetAllProjects(actor)[pid] == GetProjectById(pid, actor).body
    {
    }

    /** A non-member gets the same status for an existing project as for a missing one, but not the same message. */
    lemma DenialLooksLikeAbsence(pid: ProjectId, missing: ProjectId, actor: UserId)
      requires pid in projects && !CanRead(projects[pid], actor)
      requires missing !in projects
      ensures GetProjectById(pid, actor).Err? && GetProjectById(missing, actor).Err?
      ensures GetProjectById(pid, actor).status == GetProjectById(missing, actor).status
      ensures GetProjectById(pid, actor) != GetProjectById(missing, actor)
    {
    }

    /** `createProject`: the new project's manager is the acting user. */
    method CreateProject(actor: UserId, projectName: string, clientName: string, description: string)
      returns (pid: ProjectId, r: Response<string>)
      requires Valid()
      modifies this
      ensures Valid()
      ensures r == Ok(ProjectCreated)
      ensures pid !in old(projects)
      ensures projects == old(projects)[pid := Project(projectName, clientName, description, actor, [])]
      ensures GetProjectById(pid, actor) == Ok(projects[pid])
    {
      pid := nextId;
      nextId := nextId + 1;
      projects := projects[pid := Project(projectName, clientName, description, actor, [])];
      r := Ok(ProjectCreated);
    }

    /** `updateProject`: only the three descriptive fields of that one project change. */
    method UpdateProject(pid: ProjectId, projectName: string, clientName: string, description: string)
      returns (r: Response<string>)
      requires Valid()
      requires pid in projects
      modifies this
      ensures Valid() && nextId == old(nextId)
      ensures r == Ok(ProjectUpdated)
      ensures projects.Keys == old(projects).Keys
      ensures projects[pid].projectName == projectName
      ensures projects[pid].clientName == clientName
      ensures projects[pid].description == description
      ensures projects[pid].manager == old(projects)[pid].manager
      ensures projects[pid].team == old(projects)[pid].team
      ensures forall q :: q in projects && q != pid ==> projects[q] == old(projects)[q]
      ensures forall u :: GetAllProjects(u).Keys == old(GetAllProjects(u)).Keys
    {
      var p := projects[pid];
      projects := projects[pid := p.(projectName := projectName, clientName := clientName,
                                     description := description)];
      forall u ensures CanRead(projects[pid], u) <==> CanRead(p, u) {
        AccessIgnoresDescription(p, u, projectName, clientName, description);
      }
      r := Ok(ProjectUpdated);
    }

    /** `deleteProject`: that project goes and every other stays as it was. */
    method DeleteProject(pid: ProjectId) returns (r: Response<string>)
      requires Valid()
      requires pid in projects
      modifies this
      ensures Valid() && nextId == old(nextId)
      ensures r == Ok(ProjectDeleted)
      ensures projects.Keys == old(projects).Keys - {pid}
      ensures forall q :: q in projects ==> projects[q] == old(projects)[q]
      ensures forall u :: GetProjectById(pid, u) == Err(NotFound, ProjectNotFound)
    {
      projects := projects - {pid};
      r := Ok(ProjectDeleted);
    }
  }
}
