/** The CRM's records. `Project` carries the optional `notes` and `estimatedCost` fields
    that the detail view reads and writes although the interface declaration omits them. */
module Types {
  import opened Wrappers

  datatype ProjectStatus = Planning | InProgress | Review | Completed | OnHold

  datatype ClientStatus = Lead | Active | Potential | Churned

  datatype ProjectType = Website | Marketing | SEO | PPC

  datatype Plan = Basic | Pro | Enterprise

  datatype Task = Task(id: string, title: string, completed: bool, dueDate: Option<string>)

  datatype CreativeMockup = CreativeMockup(id: string, url: string, prompt: string, createdAt: string)

  datatype Project = Project(
    id: string,
    name: string,
    kind: ProjectType,
    status: ProjectStatus,
    progress: int,
    startDate: string,
    endDate: Option<string>,
    externalLink: Option<string>,
    driveLink: Option<string>,
    sheetLink: Option<string>,
    tasks: seq<Task>,
    notes: Option<string>,
    estimatedCost: Option<int>)

  datatype Client = Client(
    id: string,
    name: string,
    company: string,
    email: string,
    phone: string,
    status: ClientStatus,
    totalRevenue: int,
    notes: string,
    projects: seq<Project>,
    createdAt: string,
    mockups: Option<seq<CreativeMockup>>)

  datatype AgencyProfile = AgencyProfile(name: string, website: string, plan: Plan, lastBackup: Option<string>)
}
