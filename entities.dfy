/** The data model shared by the client application and the backend:
    users, freelancers, projects, notifications, freelancer profiles and
    the per-freelancer read model of matching projects. Technologies are
    plain strings compared by exact equality; lists keep their order and
    their duplicates. Dates are milliseconds since the epoch. */
module Entities {
  import opened Wrappers

  /** The backend's account kind ('CLIENT' | 'FREELANCER'). */
  datatype UserType = ClientAccount | FreelancerAccount

  datatype User = User(id: string, name: string, email: string, userType: UserType)

  datatype Freelancer = Freelancer(
    id: string,
    name: string,
    email: string,
    title: string,
    technologies: seq<string>,
    hourlyRate: int,
    experience: int,
    avatar: string)

  /** A posted project; `matches` is absent until matching has run. */
  datatype Project = Project(
    id: string,
    title: string,
    description: string,
    budget: int,
    technologies: seq<string>,
    postedDate: int,
    matches: Option<seq<Freelancer>>)

  /** What the project form hands over: a project without id, date or matches. */
  datatype ProjectInput = ProjectInput(
    title: string,
    description: string,
    budget: int,
    technologies: seq<string>)

  datatype Notification = Notification(
    id: string,
    projectId: string,
    projectTitle: string,
    freelancer: Freelancer,
    timestamp: int)

  datatype Availability = FullTime | PartTime | Contract

  /** The wire name of an availability ('full-time' | 'part-time' | 'contract'). */
  function AvailabilityName(a: Availability): string {
    match a
    case FullTime => "full-time"
    case PartTime => "part-time"
    case Contract => "contract"
  }

  datatype ProfileData = ProfileData(
    title: string,
    bio: string,
    experience: int,
    hourlyRate: int,
    technologies: seq<string>,
    availability: Availability,
    avatar: Option<string>)

  /** A JavaScript number that is either a whole percentage or NaN. */
  datatype Score = NaN | Percent(value: nat)

  datatype ProjectMatch = ProjectMatch(
    id: string,
    title: string,
    description: string,
    budget: int,
    technologies: seq<string>,
    postedDate: int,
    clientName: string,
    clientEmail: string,
    matchPercentage: Score)
}
