/**
 * The console subscriber: it joins a group, prints what other members send,
 * leaves when a job is cancelled, and sends each console line to the group.
 */
module Subscriber {
  import opened Wrappers
  import opened Text
  import opened Protocol
  import Manager

  /** The configured user id, else "console-subscriber". */
  function UserId(configured: Option<string>): string {
    configured.GetOr("console-subscriber")
  }

  /** The configured group name, else "group". */
  function GroupName(configured: Option<string>): string {
    configured.GetOr("group")
  }

  /**
   * Unconfigured, the subscriber negotiates as "console-subscriber" for the
   * group "group", and the manager's route reads both back.
   */
  lemma DefaultNegotiation()
    ensures Manager.MatchNegotiateRoute(NegotiatePath(UserId(None), GroupName(None)))
         == Some(("console-subscriber", "group"))
  {
    var user, group := UserId(None), GroupName(None);
    assert Free(user, '/') by {
      forall i | 0 <= i < |user| ensures user[i] != '/' {}
    }
    assert Free(group, '/') by {
      forall i | 0 <= i < |group| ensures group[i] != '/' {}
    }
    Manager.NegotiateRouteRoundTrip(user, group);
  }

  /** What the `GroupMessageReceived` handler does with a message. */
  datatype Reaction =
    | Skip          // the subscriber's own message
    | PrintOnly     // printed
    | Exit          // a cancelled job: dispose the client and exit the process
    | HandlerFault  // data that does not read back as a JobUpdate: the handler throws

  function OnGroupMessage(userid: string, m: GroupMessage): (r: Reaction)
    ensures r == Skip <==> m.fromUserId == Some(userid)
    ensures r == Exit <==> m.fromUserId != Some(userid) && m.update.Some? && m.update.value.status == Cancelled
    ensures r == PrintOnly <==> m.fromUserId != Some(userid) && m.update.Some? && m.update.value.status != Cancelled
    ensures r == HandlerFault <==> m.fromUserId != Some(userid) && m.update.None?
  {
    if m.fromUserId == Some(userid) then Skip
    else match m.update
      case None => HandlerFault
      case Some(u) => if u.status == Cancelled then Exit else PrintOnly
  }

  /** One console line and the time it is read at, as `DateTime.Now` prints it. */
  datatype Command = Command(line: Line, now: string)

  /** The update sent for a command; its status embeds the time. */
  function CommandSend(group: string, command: string, now: string): GroupSend {
    GroupSend(group, JobUpdate("?", group, command, "Update on " + now + " for " + command), Json)
  }

  /** The sends for the commands before the first null or empty line. */
  function CommandSends(group: string, input: seq<Command>): seq<GroupSend>
    decreases |input|
  {
    if input == [] || IsNullOrEmpty(input[0].line) then []
    else [CommandSend(group, input[0].line.value, input[0].now)] + CommandSends(group, input[1..])
  }

  /**
   * Every send goes to the group with name "?", the group as correlation
   * id and a non-empty command as step; there is one per line read before
   * the loop ends.
   */
  lemma {:induction false} CommandSendsShape(group: string, input: seq<Command>, k: int)
    ensures |CommandSends(group, input)| <= |input|
    ensures 0 <= k < |CommandSends(group, input)| ==>
      var s := CommandSends(group, input)[k];
      && s.group == group && s.update.name == "?" && s.update.correlationId == group
      && s.dataType == Json
      && !IsNullOrEmpty(input[k].line) && s.update.step == input[k].line.value
      && s.update.status == "Update on " + input[k].now + " for " + input[k].line.value
    ensures var n := |CommandSends(group, input)|;
      n < |input| ==> IsNullOrEmpty(input[n].line)
    decreases |input|
  {
    if input != [] && !IsNullOrEmpty(input[0].line) {
      CommandSendsShape(group, input[1..], k - 1);
    }
  }

  /**
   * The command loop: a null or empty line disposes the client and ends
   * the loop; any other line is sent to the group. The end of the input
   * reads as null. `failAt` is the line whose send throws: the exception
   * then ends the loop without disposing the client.
   */
  method CommandLoop(group: string, input: seq<Command>, failAt: Option<nat>)
    returns (sent: seq<GroupSend>, disposed: bool)
    ensures var all := CommandSends(group, input);
      if failAt.Some? && failAt.value < |all| then sent == all[..failAt.value] && !disposed
      else sent == all && disposed
  {
    ghost var all := CommandSends(group, input);
    sent := [];
    disposed := false;
    var i := 0;
    while true
      invariant 0 <= i <= |input|
      invariant i <= |all| && sent == all[..i]
      invariant failAt.Some? ==> i <= failAt.value
      invariant !disposed
      decreases |input| - i
    {
      var command: Line := if i < |input| then input[i].line else None;
      // the commands sent so far were all non-empty, so line i has a send iff it is non-empty
      CommandSendsShape(group, input, i);
      if IsNullOrEmpty(command) {
        disposed := true;
        break;
      }
      if failAt == Some(i) {
        // SendToGroupAsync throws
        return;
      }
      assert all[..i + 1] == all[..i] + [all[i]];
      sent := sent + [CommandSend(group, command.value, input[i].now)];
      i := i + 1;
    }
  }
}
