/** The record shapes of `backend/models.go` as immutable values. Dates are
    day numbers (see `Dates`); progress is the source's float64 percentage
    as a real; creation/update timestamps other than a team member's join
    date are not modelled. A task's `assignee` is the preloaded team member,
    the zero-valued member (id 0) when the task is unassigned. */
module Models {
  import opened Dates

  datatype TeamMember = TeamMember(
    id: nat,
    projectId: nat,
    name: string,
    email: string,
    role: string,
    avatar: string,
    isActive: bool,
    createdAt: Day
  )

  datatype Task = Task(
    id: nat,
    stageId: nat,
    name: string,
    description: string,
    startDate: Day,
    endDate: Day,
    status: string,
    priority: string,
    progress: real,
    assignedTo: nat,
    assignee: TeamMember
  )

  datatype Stage = Stage(
    id: nat,
    projectId: nat,
    name: string,
    description: string,
    startDate: Day,
    endDate: Day,
    status: string,
    order: int,
    progress: real,
    tasks: seq<Task>
  )

  datatype Project = Project(
    id: nat,
    name: string,
    description: string,
    startDate: Day,
    endDate: Day,
    status: string,
    stages: seq<Stage>,
    teamMembers: seq<TeamMember>
  )
}
