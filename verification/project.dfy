/** Client projects: validated records read from the project catalog. */
module Projects {
  import opened Wrappers
  import opened Dates

  datatype ProjectStatus = Planning | Active | OnHold | Completed | Cancelled

  function ProjectStatusValue(s: ProjectStatus): string {
    match s
    case Planning => "Planning"
    case Active => "Active"
    case OnHold => "On Hold"
    case Completed => "Completed"
    case Cancelled => "Cancelled"
  }

  datatype ProjectType = FixedPrice | TimeAndMaterials | Retainer

  function ProjectTypeValue(t: ProjectType): string {
    match t
    case FixedPrice => "Fixed Price"
    case TimeAndMaterials => "Time and Materials"
    case Retainer => "Retainer"
  }

  datatype Project = Project(
    id: string,
    name: string,
    description: string,
    clientName: string,
    clientContactEmail: Option<string>,
    clientContactPhone: Option<string>,
    status: ProjectStatus,
    projectType: ProjectType,
    timesheetId: Option<string>,
    startDate: DateTime,
    endDate: Option<DateTime>,
    budget: Option<real>,
    repositoryUrl: Option<string>,
    createdAt: DateTime,
    updatedAt: DateTime,
    specialistIds: seq<string>)

  function ProjectId(p: Project): string {
    p.id
  }
}
