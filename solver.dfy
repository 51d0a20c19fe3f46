/**
 * The job-solver's `/jobs` endpoint: it checks the job, negotiates a Web
 * PubSub connection for the job's group, and reports every step of the job
 * to that group, stopping when another member of the group cancels.
 */
module JobSolver {
  import opened Wrappers
  import opened Protocol

  /** What the HTTP call to the negotiate endpoint gives: a URL, or an exception. */
  datatype NegotiateOutcome = Negotiated(url: string) | NegotiateFailed

  /**
   * The endpoint's results. `Aborted` is the cancellation exception that a
   * cancelled send or delay throws; `Faulted` is any other exception, thrown
   * by `StartAsync` or by a send. Both leave the handler unhandled.
   */
  datatype JobsResult = BadRequest(message: string) | StatusCode(code: int) | OkJob(job: Job) | Aborted | Faulted

  /** How the step loop ends. */
  datatype RunEnd = StepsDone | StepsCanceled | StepsFailed

  /** The solver's user name: the HOSTNAME setting, else the machine name. */
  function Username(hostname: Option<string>, machineName: string): (u: string)
    ensures hostname.Some? ==> u == hostname.value
    ensures hostname.None? ==> u == machineName
  {
    hostname.GetOr(machineName)
  }

  /**
   * The `GroupMessageReceived` handler's decision: an update with status
   * "Cancelled" from any user other than the solver cancels the job. Its own
   * messages and data that is not a `JobUpdate` change nothing.
   */
  predicate Cancels(username: string, m: GroupMessage) {
    m.fromUserId != Some(username) && m.update.Some? && m.update.value.status == Cancelled
  }

  /** The group update the solver sends for one step and status. */
  function Update(job: Job, step: string, status: string): GroupSend {
    GroupSend(job.correlationId, JobUpdate(job.name, job.correlationId, step, status), Json)
  }

  /** The updates for `steps`, in order: "In Progress" then "Completed" for each. */
  function StepSends(job: Job, steps: seq<string>): (r: seq<GroupSend>)
    ensures |r| == 2 * |steps|
  {
    if steps == [] then []
    else [Update(job, steps[0], InProgress), Update(job, steps[0], Completed)] + StepSends(job, steps[1..])
  }

  /** The updates of an uncancelled run. */
  function FullSends(job: Job): seq<GroupSend> {
    StepSends(job, job.steps)
  }

  /** Update `k` of a run: for step `k / 2`, "In Progress" when `k` is even, "Completed" when odd. */
  function UpdateAt(job: Job, k: nat): GroupSend
    requires k < 2 * |job.steps|
  {
    Update(job, job.steps[k / 2], if k % 2 == 0 then InProgress else Completed)
  }

  /**
   * A run sends two updates per step; update `k` is for step `k / 2`, "In
   * Progress" when `k` is even and "Completed" when it is odd, and goes to the
   * job's group carrying the job's name and correlation id.
   */
  lemma {:induction false} StepSendsAt(job: Job, steps: seq<string>, k: int)
    requires 0 <= k < 2 * |steps|
    ensures StepSends(job, steps)[k] == Update(job, steps[k / 2], if k % 2 == 0 then InProgress else Completed)
    decreases |steps|
  {
    var head := [Update(job, steps[0], InProgress), Update(job, steps[0], Completed)];
    assert StepSends(job, steps) == head + StepSends(job, steps[1..]);
    if k >= 2 {
      StepSendsAt(job, steps[1..], k - 2);
      assert (k - 2) / 2 == k / 2 - 1 && (k - 2) % 2 == k % 2;
    }
  }

  /** `sent` holds the first `|sent|` updates of a run of `job`, each in its place. */
  predicate RunPrefix(job: Job, sent: seq<GroupSend>) {
    |sent| <= 2 * |job.steps| && forall j :: 0 <= j < |sent| ==> sent[j] == UpdateAt(job, j)
  }

  /** Sending the next update in its place keeps a run prefix. */
  lemma RunPrefixExtend(job: Job, sent: seq<GroupSend>, k: nat)
    requires RunPrefix(job, sent) && |sent| == k < 2 * |job.steps|
    ensures RunPrefix(job, sent + [UpdateAt(job, k)])
  {
    var next := sent + [UpdateAt(job, k)];
    forall j | 0 <= j < |next|
      ensures next[j] == UpdateAt(job, j)
    {
      if j < k {
        assert next[j] == sent[j];
      }
    }
  }

  /** Updates sent in their places are the first updates of the full run. */
  lemma RunPrefixOfFullSends(job: Job, sent: seq<GroupSend>)
    requires RunPrefix(job, sent)
    ensures sent == FullSends(job)[..|sent|]
  {
    forall j | 0 <= j < |sent|
      ensures sent[j] == FullSends(job)[j]
    {
      StepSendsAt(job, job.steps, j);
    }
  }

  /**
   * Messages are delivered to the handler at the solver's suspension
   * points: point `2 * i` is the send of step `i`'s "In Progress" update,
   * point `2 * i + 1` the delay before its "Completed" update. `inbox[k]`
   * holds the messages that arrive just before point `k`.
   */
  function Batch(inbox: seq<seq<GroupMessage>>, k: nat): seq<GroupMessage> {
    if k < |inbox| then inbox[k] else []
  }

  /** Some message of the batch cancels the job. */
  predicate CancelledBy(username: string, batch: seq<GroupMessage>) {
    exists i :: 0 <= i < |batch| && Cancels(username, batch[i])
  }

  /** The first point, from `k` on and before `n`, at which the job is cancelled; `n` if none. */
  function FirstCancel(username: string, inbox: seq<seq<GroupMessage>>, k: nat, n: nat): (r: nat)
    requires k <= n
    ensures k <= r <= n
    ensures r < n ==> CancelledBy(username, Batch(inbox, r))
    ensures forall p :: k <= p < r ==> !CancelledBy(username, Batch(inbox, p))
    decreases n - k
  {
    if k == n then n
    else if CancelledBy(username, Batch(inbox, k)) then k
    else FirstCancel(username, inbox, k + 1, n)
  }

  /**
   * Where the run stops: at the send that throws (`fault`, counted in
   * updates) when that comes before the cancellation point `stop`, else at
   * `stop`. At the same point the cancelled token wins, as it is checked
   * before the send is made.
   */
  function Halt(stop: nat, fault: Option<nat>): nat {
    if fault.Some? && fault.value < stop then fault.value else stop
  }

  /**
   * At a point `k` the run has reached, one of three things happens: the
   * job is cancelled there, the send there throws, or the run passes it.
   */
  lemma AtPoint(username: string, inbox: seq<seq<GroupMessage>>, fault: Option<nat>, n: nat, k: nat)
    requires k < n && k <= Halt(FirstCancel(username, inbox, 0, n), fault)
    ensures var stop := FirstCancel(username, inbox, 0, n);
      && (CancelledBy(username, Batch(inbox, k)) ==> Halt(stop, fault) == k && RunOutcome(n, stop, fault) == StepsCanceled)
      && (!CancelledBy(username, Batch(inbox, k)) && fault == Some(k) ==>
            Halt(stop, fault) == k && RunOutcome(n, stop, fault) == StepsFailed)
      && (!CancelledBy(username, Batch(inbox, k)) && fault != Some(k) ==> k < Halt(stop, fault))
  {
  }

  /** How a run of `n` points that halts at `Halt(stop, fault)` ends. */
  function RunOutcome(n: nat, stop: nat, fault: Option<nat>): RunEnd {
    if Halt(stop, fault) < stop then StepsFailed else if stop == n then StepsDone else StepsCanceled
  }

  /** The job is accepted: present, with a non-empty correlation id. */
  predicate Accepted(request: Option<Job>) {
    request.Some? && request.value.correlationId != ""
  }

  /**
   * The `/jobs` handler. A missing job or an empty correlation id (a null
   * one reads as empty) is refused; otherwise the solver negotiates at
   * `{server}/negotiate/{username}/{correlationId}`, starts its client
   * (`started` is false when `StartAsync` throws) and sends its updates
   * until the end of the job, until a cancellation takes effect, or until
   * the send numbered `fault` throws.
   */
  method HandleJob(request: Option<Job>, server: string, username: string,
                   negotiation: NegotiateOutcome, started: bool, fault: Option<nat>,
                   inbox: seq<seq<GroupMessage>>)
    returns (result: JobsResult, negotiateUri: Option<string>, sent: seq<GroupSend>)
    ensures !Accepted(request) ==>
      result == BadRequest("Correlation id is required") && negotiateUri == None && sent == []
    ensures Accepted(request) ==>
      negotiateUri == Some(NegotiateUri(server, username, request.value.correlationId))
    ensures Accepted(request) && negotiation.NegotiateFailed? ==> result == StatusCode(500) && sent == []
    ensures Accepted(request) && negotiation.Negotiated? && !started ==> result == Faulted && sent == []
    ensures Accepted(request) && negotiation.Negotiated? && started ==>
      var job := request.value;
      var stop := FirstCancel(username, inbox, 0, 2 * |job.steps|);
      var end := Halt(stop, fault);
      && sent == FullSends(job)[..end]
      && result == (if end < stop then Faulted else if stop == 2 * |job.steps| then OkJob(job) else Aborted)
  {
    if request.None? || request.value.correlationId == "" {
      return BadRequest("Correlation id is required"), None, [];
    }
    var job := request.value;
    negotiateUri := Some(NegotiateUri(server, username, job.correlationId));
    if negotiation.NegotiateFailed? {
      return StatusCode(500), negotiateUri, [];
    }
    if !started {
      return Faulted, negotiateUri, [];
    }
    var outcome;
    outcome, sent := RunSteps(job, username, fault, inbox);
    result := match outcome
      case StepsDone => OkJob(job)
      case StepsCanceled => Aborted
      case StepsFailed => Faulted;
  }

  /**
   * The step loop: for each step, the "In Progress" update, the delay, and
   * the "Completed" update. The delay and both sends are cancellable, and
   * either send may throw.
   */
  method RunSteps(job: Job, username: string, fault: Option<nat>, inbox: seq<seq<GroupMessage>>)
    returns (outcome: RunEnd, sent: seq<GroupSend>)
    ensures var stop := FirstCancel(username, inbox, 0, 2 * |job.steps|);
      && sent == FullSends(job)[..Halt(stop, fault)]
      && outcome == RunOutcome(2 * |job.steps|, stop, fault)
  {
    ghost var n := 2 * |job.steps|;
    // the point at which the run halts: cancellation, a failed send, or n
    ghost var end := Halt(FirstCancel(username, inbox, 0, n), fault);
    sent := [];
    var i := 0;
    while i < |job.steps|
      invariant 0 <= i <= |job.steps|
      invariant 2 * i <= end
      invariant RunPrefix(job, sent) && |sent| == 2 * i
    {
      var ended;
      ended, sent := RunStep(job, username, fault, inbox, i, sent);
      if ended.Some? {
        RunPrefixOfFullSends(job, sent);
        return ended.value, sent;
      }
      i := i + 1;
    }
    RunPrefixOfFullSends(job, sent);
    outcome := StepsDone;
  }

  /**
   * One step of the loop: the "In Progress" update, the delay and the
   * "Completed" update, given the updates sent before it. `ended` is how
   * the run ends when it halts within this step.
   */
  method RunStep(job: Job, username: string, fault: Option<nat>, inbox: seq<seq<GroupMessage>>,
                 i: nat, before: seq<GroupSend>)
    returns (ended: Option<RunEnd>, sent: seq<GroupSend>)
    requires i < |job.steps|
    requires 2 * i <= Halt(FirstCancel(username, inbox, 0, 2 * |job.steps|), fault)
    requires RunPrefix(job, before) && |before| == 2 * i
    ensures RunPrefix(job, sent)
    ensures var stop := FirstCancel(username, inbox, 0, 2 * |job.steps|);
      && (ended.None? ==> 2 * i + 2 <= Halt(stop, fault) && |sent| == 2 * i + 2)
      && (ended.Some? ==> |sent| == Halt(stop, fault)
                          && ended.value == RunOutcome(2 * |job.steps|, stop, fault))
  {
    var step := job.steps[i];
    assert (2 * i) / 2 == i == (2 * i + 1) / 2;
    // SendToGroupAsync(..., cts.Token) of the "In Progress" update
    ended, sent := RunPoint(job, username, fault, inbox, 2 * i, Update(job, step, InProgress), before);
    if ended.Some? {
      return;
    }
    // Task.Delay(6000, cts.Token), then the "Completed" update
    ended, sent := RunPoint(job, username, fault, inbox, 2 * i + 1, Update(job, step, Completed), sent);
  }

  /**
   * One suspension point `k` of the run, where `update` is the update sent
   * there: a cancelled token throws, else the send either throws or goes out.
   * `ended` is how the run ends when it halts at this point.
   */
  method RunPoint(job: Job, username: string, fault: Option<nat>, inbox: seq<seq<GroupMessage>>,
                  k: nat, update: GroupSend, before: seq<GroupSend>)
    returns (ended: Option<RunEnd>, sent: seq<GroupSend>)
    requires k < 2 * |job.steps| && update == UpdateAt(job, k)
    requires k <= Halt(FirstCancel(username, inbox, 0, 2 * |job.steps|), fault)
    requires RunPrefix(job, before) && |before| == k
    ensures RunPrefix(job, sent)
    ensures var stop := FirstCancel(username, inbox, 0, 2 * |job.steps|);
      && (ended.None? ==> k + 1 <= Halt(stop, fault) && |sent| == k + 1)
      && (ended.Some? ==> |sent| == Halt(stop, fault)
                          && ended.value == RunOutcome(2 * |job.steps|, stop, fault))
  {
    AtPoint(username, inbox, fault, 2 * |job.steps|, k);
    if CancelledBy(username, Batch(inbox, k)) {
      return Some(StepsCanceled), before;
    }
    if fault == Some(k) {
      return Some(StepsFailed), before;
    }
    RunPrefixExtend(job, before, k);
    sent := before + [update];
    ended := None;
  }

  /** Without a cancelling message before the end, the run sends every update. */
  lemma UncancelledRunIsFull(username: string, inbox: seq<seq<GroupMessage>>, n: nat)
    requires forall p :: 0 <= p < n ==> !CancelledBy(username, Batch(inbox, p))
    ensures FirstCancel(username, inbox, 0, n) == n
  {
  }

  /** The solver's own messages never cancel its job. */
  lemma OwnMessagesIgnored(username: string, m: GroupMessage)
    requires m.fromUserId == Some(username)
    ensures !Cancels(username, m)
  {
  }

  /** Steps A, B, C give exactly six updates, in step order. */
  lemma ThreeStepRun(job: Job)
    requires job.steps == ["A", "B", "C"]
    ensures FullSends(job) == [
      Update(job, "A", InProgress), Update(job, "A", Completed),
      Update(job, "B", InProgress), Update(job, "B", Completed),
      Update(job, "C", InProgress), Update(job, "C", Completed)]
  {
    forall k | 0 <= k < 6 ensures FullSends(job)[k] == Update(job, job.steps[k / 2], if k % 2 == 0 then InProgress else Completed) {
      StepSendsAt(job, job.steps, k);
    }
  }

  /**
   * A cancellation that arrives after step A completes and before step B
   * starts leaves only A's two updates sent.
   */
  lemma CancelledAfterFirstStep(job: Job, username: string, inbox: seq<seq<GroupMessage>>)
    requires job.steps == ["A", "B", "C"]
    requires !CancelledBy(username, Batch(inbox, 0)) && !CancelledBy(username, Batch(inbox, 1))
    requires CancelledBy(username, Batch(inbox, 2))
    ensures var stop := FirstCancel(username, inbox, 0, 6);
      stop == 2 && FullSends(job)[..stop] == [Update(job, "A", InProgress), Update(job, "A", Completed)]
  {
    ThreeStepRun(job);
  }
}
