/**
 * The console scheduler: it names a job after the user and the time,
 * joins the job's group, submits a seven-step job, waits for the solver's
 * final update, and can cancel the job from the keyboard.
 */
module Scheduler {
  import opened Wrappers
  import opened Text
  import opened Protocol
  import JobSolver
  import Manager

  /** `job-{user}-{time}`, the time formatted as yyyy-MM-dd-HH-mm-ss. */
  function JobId(userName: string, timestamp: string): string {
    "job-" + userName + "-" + timestamp
  }

  /** The scheduler's user id in the job's group. */
  function SchedulerUserId(jobId: string): string {
    "scheduler-" + jobId
  }

  /** The scheduler negotiates as its own user id, for the group named after the job. */
  function SchedulerNegotiateUri(server: string, jobId: string): string {
    NegotiateUri(server, SchedulerUserId(jobId), jobId)
  }

  /**
   * The scheduler's negotiate address ends in a path that the manager's
   * route serves: access for the scheduler's user id to the group that the
   * submitted job's updates are sent to.
   */
  lemma SchedulerJoinsJobGroup(server: string, userName: string, timestamp: string)
    requires Free(userName, '/') && Free(timestamp, '/')
    ensures var jobId := JobId(userName, timestamp);
      var uri := SchedulerNegotiateUri(server, jobId);
      && StartsWith(uri, server)
      && Manager.MatchNegotiateRoute(uri[|server|..]) == Some((SchedulerUserId(jobId), SubmittedJob(jobId).correlationId))
  {
    var jobId := JobId(userName, timestamp);
    assert Free(jobId, '/') by {
      forall i | 0 <= i < |jobId| ensures jobId[i] != '/' {
        if 4 <= i < 4 + |userName| {
          assert jobId[i] == userName[i - 4];
        } else if i >= 5 + |userName| {
          assert jobId[i] == timestamp[i - 5 - |userName|];
        }
      }
    }
    var user := SchedulerUserId(jobId);
    forall i | 0 <= i < |user| ensures user[i] != '/' {
      if i >= 10 {
        assert user[i] == jobId[i - 10];
      }
    }
    var uri := SchedulerNegotiateUri(server, jobId);
    assert uri[..|server|] == server;
    assert uri[|server|..] == NegotiatePath(user, jobId);
    Manager.NegotiateRouteRoundTrip(user, jobId);
  }

  const JobSteps := ["Read all the data", "Build in-memory model", "Train the model",
                     "Evaluate the model", "Gather results", "Send Response", "Done"]

  /** The job the scheduler submits: correlated by the job id, seven steps ending with "Done". */
  function SubmittedJob(jobId: string): (job: Job)
    ensures job.correlationId == jobId
    ensures |job.steps| == 7 && job.steps[6] == "Done"
    ensures forall i :: 0 <= i < 6 ==> job.steps[i] != "Done"
  {
    Job("Job 1", jobId, JobSteps)
  }

  /** The update that ends the scheduler's wait. */
  predicate IsDone(u: JobUpdate) {
    u.step == "Done" && u.status == Completed
  }

  /** What the `GroupMessageReceived` handler does with a message. */
  datatype Reaction =
    | SignalDone    // print and set the done event
    | PrintOnly     // print only
    | HandlerFault  // JSON that reads back as null: the handler throws

  function OnGroupMessage(m: GroupMessage): (r: Reaction)
    ensures r == SignalDone <==> m.dataType == Json && m.update.Some? && IsDone(m.update.value)
    ensures m.dataType != Json ==> r == PrintOnly
    ensures r == HandlerFault <==> m.dataType == Json && m.update.None?
  {
    if m.dataType == Json then
      match m.update
      case None => HandlerFault
      case Some(u) => if IsDone(u) then SignalDone else PrintOnly
    else PrintOnly
  }

  /** The update that tells the group the job is cancelled. */
  function CancelUpdate(job: Job): JobUpdate {
    JobUpdate(job.name, job.correlationId, Cancelled, Cancelled)
  }

  /** The key read after Ctrl+C. */
  datatype ConsoleKey = KeyY | OtherKey

  /** The scheduler's state: the done event it waits on and the group sends it makes. */
  class SchedulerSession {
    const jobId: string
    const job: Job
    var isDone: bool
    var sent: seq<GroupSend>

    constructor(jobId: string)
      ensures this.jobId == jobId && job == SubmittedJob(jobId)
      ensures !isDone && sent == []
    {
      this.jobId := jobId;
      job := SubmittedJob(jobId);
      isDone := false;
      sent := [];
    }

    /** The `GroupMessageReceived` handler: a JSON (Done, Completed) update sets the done event. */
    method HandleGroupMessage(m: GroupMessage)
      modifies this`isDone
      ensures isDone == (old(isDone) || OnGroupMessage(m) == SignalDone)
    {
      if OnGroupMessage(m) == SignalDone {
        isDone := true;
      }
    }

    /**
     * The `CancelKeyPress` handler: Y sends the cancel update to the job's
     * group and sets the done event; any other key does nothing.
     * `sendFails` is a send that throws: the handler then faults before the
     * event is set, and nothing is sent.
     */
    method HandleCancelKeyPress(key: ConsoleKey, sendFails: bool) returns (faulted: bool)
      modifies this
      ensures faulted <==> key == KeyY && sendFails
      ensures key == KeyY && !sendFails ==>
        sent == old(sent) + [GroupSend(jobId, CancelUpdate(job), Json)] && isDone
      ensures key != KeyY || sendFails ==> sent == old(sent) && isDone == old(isDone)
    {
      faulted := false;
      if key == KeyY {
        if sendFails {
          return true;
        }
        sent := sent + [GroupSend(jobId, CancelUpdate(job), Json)];
        isDone := true;
      }
    }
  }

  /**
   * Of the solver's updates for the submitted job, the last one and only
   * that one ends the scheduler's wait.
   */
  lemma DoneOnlyOnLastUpdate(jobId: string, k: int)
    requires 0 <= k < 14
    ensures var s := JobSolver.FullSends(SubmittedJob(jobId))[k];
      OnGroupMessage(Received("solver", s)) == SignalDone <==> k == 13
  {
    var job := SubmittedJob(jobId);
    JobSolver.StepSendsAt(job, job.steps, k);
  }

  /**
   * The scheduler's cancel update, as the solver receives it, cancels the
   * solver's run whenever the solver's user name is not the scheduler's.
   */
  lemma CancelStopsSolver(jobId: string, solverName: string)
    requires solverName != SchedulerUserId(jobId)
    ensures var job := SubmittedJob(jobId);
      JobSolver.Cancels(solverName, Received(SchedulerUserId(jobId), GroupSend(jobId, CancelUpdate(job), Json)))
  {
  }
}
