/**
 * The records the application stores. Dates are timestamps (whole
 * milliseconds); an optional field is an `Option`.
 */
module Types {
  import opened Wrappers

  datatype ResourceType = Pdf | Link | Note | Other

  datatype Resource = Resource(
    id: string,
    name: string,
    kind: ResourceType,
    path: Option<string>,
    url: Option<string>,
    content: Option<string>,
    subjectId: string,
    createdAt: int)

  datatype Subject = Subject(
    id: string,
    name: string,
    color: string,
    resources: seq<Resource>,
    description: Option<string>,
    schedule: Option<string>)

  /** One slot of the weekly timetable: day 0-5 is Monday to Saturday, period 1-8. */
  datatype ScheduleCell = ScheduleCell(
    id: string,
    day: int,
    period: int,
    subject: Option<string>,
    room: Option<string>,
    professor: Option<string>,
    notes: Option<string>)

  datatype Priority = Low | Medium | High

  /** A planned study session; `duration` is in minutes. */
  datatype StudyPlan = StudyPlan(
    id: string,
    title: string,
    subjectId: string,
    date: int,
    duration: int,
    completed: bool,
    priority: Priority)

  datatype Role = User | Assistant

  datatype ChatMessage = ChatMessage(
    id: string,
    content: string,
    role: Role,
    timestamp: int,
    subjectContext: Option<string>)

  function SubjectId(s: Subject): string { s.id }
  function ResourceId(r: Resource): string { r.id }
  function CellId(c: ScheduleCell): string { c.id }
  function PlanId(p: StudyPlan): string { p.id }
  function PlanSubject(p: StudyPlan): string { p.subjectId }
}
