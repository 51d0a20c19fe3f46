/**
 * The job vocabulary shared by the scheduler, the solver and the
 * subscriber: each program declares the same `Job` and `JobUpdate`
 * records, and they exchange updates as JSON group messages.
 */
module Protocol {
  import opened Wrappers

  /** `record Job(string Name, string CorrelationId, string[] Steps)` */
  datatype Job = Job(name: string, correlationId: string, steps: seq<string>)

  /** `record JobUpdate(string Name, string CorrelationId, string Step, string Status)` */
  datatype JobUpdate = JobUpdate(name: string, correlationId: string, step: string, status: string)

  /** Status strings as the programs spell them (note the space in "In Progress"). */
  const InProgress := "In Progress"
  const Completed := "Completed"
  const Cancelled := "Cancelled"

  /** The data type a pub/sub message is tagged with. */
  datatype DataType = Json | Text | Binary

  /** A `SendToGroupAsync(group, data, dataType)` call. */
  datatype GroupSend = GroupSend(group: string, update: JobUpdate, dataType: DataType)

  /**
   * A group message as a receiver sees it: the sender's user id (absent
   * for messages the server sends) and the data read back as a `JobUpdate`
   * (absent when the data is not a JSON `JobUpdate`, or is JSON `null`).
   */
  datatype GroupMessage = GroupMessage(fromUserId: Option<string>, dataType: DataType, update: Option<JobUpdate>)

  /** The message a receiver gets for a send made by `sender`. */
  function Received(sender: string, s: GroupSend): GroupMessage {
    GroupMessage(Some(sender), s.dataType, Some(s.update))
  }

  /**
   * The negotiate address of the two-segment route
   * `{server}/negotiate/{user}/{group}`.
   */
  function NegotiateUri(server: string, user: string, group: string): string {
    server + NegotiatePath(user, group)
  }

  /** The path part of a two-segment negotiate address. */
  function NegotiatePath(user: string, group: string): string {
    "/negotiate/" + user + "/" + group
  }

  /** Line input as `Console.ReadLine` gives it: a line, or null at the end. */
  type Line = Option<string>

  /** `string.IsNullOrEmpty` on a line. */
  predicate IsNullOrEmpty(line: Line) {
    line.None? || line.value == ""
  }
}
