# IoT hub sample: a Dafny model of its routing, job and device logic

The sample wires IoT hub devices and Web PubSub clients together. This project
models the decisions its programs make and proves properties about them:

- **iot-manager**: the Service Bus relay, the device registry service, the
  negotiate endpoint and the startup configuration, and the Web PubSub hub
  reply.
- **job-solver**: reports job steps to a group and stops when the job is
  cancelled.
- **console-scheduler**: submits a job, waits for its end and can cancel it.
- **console-device**: the device simulator.
- **console-subscriber**: the group subscriber.

The Azure services are replaced by plain values. What a service call does
(succeeds, device not found, already exists, throws) is a parameter of the
operation that makes it. For the calls made in a loop, the parameter names
the call that throws. Events that arrive while a loop waits (group messages
for the solver, direct-method calls for the device) are a sequence indexed
by the point at which they land.

Modules, one per program file, with three shared ones:

| module | file | models |
|---|---|---|
| `Wrappers` | `wrappers.dfy` | `Option` and `Result` |
| `Text` | `text.dfy` | the string operations the code relies on: ordinal `StartsWith`/`Contains`, `Replace` (every non-overlapping occurrence, left to right), case-insensitive containment, `int.ToString`; and the readers the model states round trips with, which the code does not use: `Split` and a decimal parser |
| `Protocol` | `protocol.dfy` | the `Job` and `JobUpdate` records, the status strings, group sends and received group messages, the two-segment negotiate address |
| `Relay` | `relay.dfy` | `ServiceBusHostedService`: one queued message is routed to the paired device and settled |
| `Registry` | `registry.dfy` | `DeviceRegistrationService` as a class over the registry map, specified by pure `Register`/`Deregister` |
| `Manager` | `manager.dfy` | iot-manager's `Program.cs`: required settings, credential and Service Bus client choice, the negotiate handler and its route |
| `Hub` | `hub.dfy` | `AspHub.OnMessageReceivedAsync` reply text |
| `JobSolver` | `solver.dfy` | the `/jobs` handler with its step loop and cancellation |
| `Scheduler` | `scheduler.dfy` | the console scheduler's ids, job, done test and cancel key |
| `DeviceSimulator` | `device.dfy` | the direct-method handler over the interval field, and the telemetry loop |
| `Subscriber` | `subscriber.dfy` | the subscriber's group handler and command loop |

How the solver's cancellation is modelled: the `GroupMessageReceived`
handler runs while the step loop is suspended. A run of n steps has 2n
suspension points:

- point 2i is the send of step i's "In Progress" update;
- point 2i+1 is the delay that is followed by step i's "Completed" update.

`inbox[k]` holds the group messages handled just before point k. The
first point whose batch holds a cancelling message (`FirstCancel`) is where
the linked token's cancellation takes effect. That call throws, the
exception leaves the endpoint, and the result is `Aborted`. A send may
also throw for another reason: `fault` numbers the update whose send throws.
The run then stops there with the result `Faulted`, unless cancellation
took effect first (`Halt`).

The model follows the code as written:

- The dead-letter reasons are `DeviceIdNotFound`, `DeviceNotFound` and
  `DeviceMessageFailed`.
- The DeviceNotFound description has no space before "does not exist".
- The solver's first status is "In Progress", with a space.
- Devices are paired by the prefix test and every-occurrence `Replace`, not
  by a typed identity.
- There is no deregister route; the registry service is modelled on its own.
- The manager maps only the two-segment `/negotiate/{userId}/{groupName}`
  route.

## Model

| member | source | states |
|---|---|---|
| Relay.Counterpart | iot-manager/OtherServices/ServiceBusHostedService.cs:56-58 | The paired device: an id starting with `device-solver::` has every `device-solver::` replaced by `device-scheduler::`; any other id has every `device-scheduler::` replaced by `device-solver::`. Its properties are the Counterpart lemmas below. |
| Relay.AfterSend | iot-manager/OtherServices/ServiceBusHostedService.cs:63-76 | The settlement after a send: completed when it returns, `DeviceNotFound` dead-letter on the not-found exception, `DeviceMessageFailed` with the message on any other; a dead-letter call that throws abandons the message instead. Stated through `Relay.Route`. |
| Relay.DeadLetter | iot-manager/OtherServices/ServiceBusHostedService.cs:52-74 | `DeadLetterMessageAsync`: the message is dead-lettered with the reason and description, or abandoned by the processor when the call throws. Stated through `Relay.Route`. |
| Relay.CloudToDevice | iot-manager/OtherServices/ServiceBusHostedService.cs:120-126 | The forwarded message: the body, property `from-device` = sender, full acknowledgement. Stated through `Relay.Route`. |
| Relay.Route | iot-manager/OtherServices/ServiceBusHostedService.cs:41-77 | The message is abandoned iff the device-id property is absent (the indexer throws) or a dead-letter call it needs throws. It is dead-lettered `DeviceIdNotFound` iff the property is present but null or has no "::" and that dead-letter call returns; nothing is sent then. A send happens iff the id is routable. It goes to the counterpart with the body unchanged, `from-device` = sender and full acknowledgement. The message is completed iff the send returns. When the dead-letter call returns, a not-found failure gives `DeviceNotFound` with "Device {target}does not exist" and any other failure gives `DeviceMessageFailed` with the exception message. |
| Relay.DeadLetterReasons | iot-manager/OtherServices/ServiceBusHostedService.cs:52-74 | Every dead-letter reason is one of the three the handler writes. |
| Relay.CounterpartSwapsTag | iot-manager/OtherServices/ServiceBusHostedService.cs:56-58 | For `tag + c`, where tag is either device tag and c holds neither tag, the counterpart is the other tag followed by the same c. |
| Relay.CounterpartInvolution | iot-manager/OtherServices/ServiceBusHostedService.cs:56-58 | For such ids the counterpart of the counterpart is the id itself, and the counterpart differs from the id. |
| Relay.CounterpartUntagged | iot-manager/OtherServices/ServiceBusHostedService.cs:56-58 | An id holding neither tag is its own counterpart, so its messages are sent back to it. |
| Relay.CounterpartNotInvolutive | iot-manager/OtherServices/ServiceBusHostedService.cs:56-58 | About the literal ids: because `Replace` rewrites every occurrence, `device-scheduler::device-solver::` maps to `device-solver::device-solver::`. That maps to `device-scheduler::device-scheduler::`, not back to the start. |
| Relay.ReplyReachesSender | iot-manager/OtherServices/ServiceBusHostedService.cs:56-63 | A message sent by the counterpart of a well-formed tagged id is routed to that id. |
| Registry.ConnectionString | iot-manager/IoT/DeviceRegistrationService.cs:31 | `HostName={host};DeviceId={id};SharedAccessKey={key}`; it reads back by `Registry.ConnectionStringRoundTrip`. |
| Registry.Register | iot-manager/IoT/DeviceRegistrationService.cs:15-34 | Registration on the registry map: a failure leaves it and returns the error; an existing device's key is fetched; an absent device is added with the generated key. Properties in `Registry.RegisterEffect` and `Registry.RegisterIdempotent`. |
| Registry.Deregister | iot-manager/IoT/DeviceRegistrationService.cs:36-48 | Deregistration on the registry map: a failure leaves it; an existing device is removed; a missing one is ignored. Properties in `Registry.DeregisterEffect` and `Registry.DeregisterUndoesRegister`. |
| Registry.ConnectionStringRoundTrip | iot-manager/IoT/DeviceRegistrationService.cs:30-31 | The connection string reads back as host, device id and key, when none of them holds ';'. |
| Registry.RegisterEffect | iot-manager/IoT/DeviceRegistrationService.cs:15-34 | Registration succeeds iff the registry raises no other failure. Existing keys are kept. At most the requested device is added, exactly one device when it was absent. The result is the connection string of the key the registry then holds. On failure the registry is unchanged. |
| Registry.RegisterIdempotent | iot-manager/IoT/DeviceRegistrationService.cs:24-28 | Registering the same id twice gives the same registry and the same connection string, whatever key a second add would generate. |
| Registry.DeregisterEffect | iot-manager/IoT/DeviceRegistrationService.cs:36-48 | On success the device is gone and every other entry is unchanged. A device that is not found leaves the registry as it was. Other failures propagate. |
| Registry.DeregisterUndoesRegister | iot-manager/IoT/DeviceRegistrationService.cs:15-48 | Deregistering a device that registration just added restores the registry. |
| Registry.DeviceRegistrationService.constructor | iot-manager/IoT/DeviceRegistrationService.cs:9-13 | The service starts over the given registry. |
| Registry.DeviceRegistrationService.RegisterDevice | iot-manager/IoT/DeviceRegistrationService.cs:15-34 | The new registry and the result are those of `Register` on the old registry: add, or fetch on already-exists, then format the string. |
| Registry.DeviceRegistrationService.DeregisterDevice | iot-manager/IoT/DeviceRegistrationService.cs:36-48 | The new registry and the result are those of `Deregister` on the old registry: fetch and remove, ignoring not-found. |
| Manager.LoadSettings | iot-manager/Program.cs:17-42 | The settings are read iff hostname, hub name, API key and Service Bus namespace are all configured; each missing one gives its own error, the first three in that order and the namespace after them. On success the settings carry the configured values, the credential chosen from `azureClientId`, and the Service Bus client chosen from the namespace with that credential. |
| Manager.ChooseCredential | iot-manager/Program.cs:24-27 | No `azureClientId` selects the default credential, with interactive sign-in included. Otherwise it selects the managed identity with that id. |
| Manager.ChooseServiceBusClient | iot-manager/Program.cs:34-42 | The connection-string client is chosen iff the setting contains "SharedAccessKey" ignoring case, and uses the setting. Otherwise the namespace client is built from the setting and the credential. |
| Manager.ServiceBusChoiceIgnoresCase | iot-manager/Program.cs:34 | Upper-casing the setting does not change the choice. |
| Manager.LowerCaseKeySelectsConnectionString | iot-manager/Program.cs:34 | A setting containing "sharedaccesskey" in lower case selects the connection-string client. |
| Manager.Negotiate | iot-manager/Program.cs:74-89 | The response is Unauthorized, and no access URI is requested, iff the `x-api-key` header is missing or differs from the configured key. Otherwise the URI is requested for that user with the send and join/leave roles of that group and the groups `[group]`. The response is Ok iff that request succeeds, and then carries the issued absolute URI. |
| Manager.GroupRoles | iot-manager/Program.cs:86 | The two roles granted: send to, and join or leave, the named group. Scoped by `Manager.RolesScopedToGroup`. |
| Manager.RolesScopedToGroup | iot-manager/Program.cs:85-87 | No role granted for one group is a role of a different group. |
| Manager.MatchNegotiateRoute | iot-manager/Program.cs:74 | The route `/negotiate/{userId}/{groupName}` read case-sensitively on canonical paths: exactly two non-empty segments after `negotiate`. Read back by `Manager.NegotiateRouteRoundTrip`; one segment refused by `Manager.OneSegmentPathNotMapped`. |
| Manager.NegotiateRouteRoundTrip | iot-manager/Program.cs:74 | The route matches `/negotiate/{user}/{group}` for non-empty segments without '/', and gives back user and group. |
| Manager.OneSegmentPathNotMapped | iot-manager/Program.cs:74 | `/negotiate/{id}` with one segment matches no route. |
| Hub.EchoedData | iot-manager/WebPubSub/AspHub.cs:46 | The data echoed: the payload's text when the data type is Text, else the empty string. |
| Hub.MessageReply | iot-manager/WebPubSub/AspHub.cs:44-48 | `Hello user {userId} from server. Got your event {eventName} with data {data}`, user and event from the connection context. Properties in `Hub.ReplyShape` and `Hub.ReplyDeterminesData`. |
| Hub.ReplyShape | iot-manager/WebPubSub/AspHub.cs:42-53 | The reply starts with "Hello user {userId} from server." and ends with the echoed data. For non-text data it ends with " with data ". |
| Hub.ReplyDeterminesData | iot-manager/WebPubSub/AspHub.cs:44-48 | For the same connection context, two text events get the same reply only if their data are equal. |
| Protocol.NegotiateUri | job-solver/Program.cs:33 | The two-segment negotiate address `{server}/negotiate/{user}/{group}` the solver, the scheduler and the subscriber build. |
| JobSolver.Username | job-solver/Program.cs:8 | The user name is HOSTNAME when it is set, else the machine name. |
| JobSolver.Accepted | job-solver/Program.cs:26-30 | A job is accepted when present with a non-null, non-empty correlation id. |
| JobSolver.Cancels | job-solver/Program.cs:58-73 | A group message cancels the run when it is not the solver's own and its update has status "Cancelled". Own messages by `JobSolver.OwnMessagesIgnored`. |
| JobSolver.Update | job-solver/Program.cs:78-84 | The update for a step and status: the job's name and correlation id, sent as JSON to the group named by the correlation id. |
| JobSolver.StepSends | job-solver/Program.cs:75-85 | The updates of a run over the given steps: "In Progress" then "Completed" per step, in order. Indexed by `JobSolver.StepSendsAt`. |
| JobSolver.FullSends | job-solver/Program.cs:75-85 | The updates of an uncancelled run over the job's steps. |
| JobSolver.StepSendsAt | job-solver/Program.cs:75-85 | An uncancelled run sends 2·|steps| updates to the job's group. Update k is for step k/2 and carries the job's name and correlation id. Its status is "In Progress" for even k and "Completed" for odd k. |
| JobSolver.FirstCancel | job-solver/Program.cs:56-73 | The cancellation point is the least point whose batch holds a "Cancelled" update from another user, or the end of the run when there is none. |
| JobSolver.Halt | job-solver/Program.cs:76-84 | Where a run stops: at the update whose send throws when that comes before the cancellation point, else at the cancellation point. |
| JobSolver.HandleJob | job-solver/Program.cs:24-91 | A missing job or empty correlation id gets BadRequest, with no negotiation and no updates. Otherwise the negotiate URI is `{server}/negotiate/{username}/{correlationId}`. A failed negotiation gets 500 and no updates; a failing `StartAsync` faults with no updates. Otherwise the updates sent are the prefix of the full run that ends where the run halts, and the result is Faulted when a send threw first, Ok(job) when nothing cancelled the run, Aborted otherwise. |
| JobSolver.RunSteps | job-solver/Program.cs:75-85 | The step loop sends exactly the full run's updates up to where it halts. It ends failed iff a send threw before the cancellation point, done iff that point is the end, cancelled otherwise. |
| JobSolver.RunStep | job-solver/Program.cs:76-84 | One pass of the loop body, given the updates of the earlier steps in their places: either the step's two updates go out and the run has not halted yet, or the run halts inside the step, the updates sent are exactly those before the halt point and the end is that of `RunOutcome`. |
| JobSolver.RunPoint | job-solver/Program.cs:77-84 | At one suspension point: a cancelled token ends the run as cancelled and sends nothing; else a throwing send ends it as failed and sends nothing; else the point's update is appended in its place and the run goes on. |
| JobSolver.AtPoint | job-solver/Program.cs:67-84 | At a point the run has reached, exactly one of three things holds: the batch there cancels and the run halts there as cancelled; the send there throws and the run halts there as failed; or the run passes the point. |
| JobSolver.RunPrefixExtend | job-solver/Program.cs:76-84 | Appending update k after the first k updates keeps every update in its place. |
| JobSolver.RunPrefixOfFullSends | job-solver/Program.cs:75-85 | Updates sent each in its place are exactly the first updates of the full run. |
| JobSolver.UncancelledRunIsFull | job-solver/Program.cs:75-90 | With no cancelling message the cancellation point is the end, so the whole run is sent. |
| JobSolver.OwnMessagesIgnored | job-solver/Program.cs:60-64 | The solver's own group messages never cancel its job. |
| JobSolver.ThreeStepRun | job-solver/Program.cs:75-85 | Steps A, B, C give exactly A In Progress, A Completed, B In Progress, B Completed, C In Progress, C Completed. |
| JobSolver.CancelledAfterFirstStep | job-solver/Program.cs:67-84 | A cancellation arriving between step A's completion and step B's start leaves only A's two updates sent. |
| Scheduler.JobId | console-scheduler/Program.cs:26 | `job-{user}-{time}`, the time given as its formatted string. |
| Scheduler.SchedulerUserId | console-scheduler/Program.cs:27 | `scheduler-{jobId}`. |
| Scheduler.SchedulerNegotiateUri | console-scheduler/Program.cs:29 | `{server}/negotiate/{userid}/{jobId}`; served by the manager's route by `Scheduler.SchedulerJoinsJobGroup`. |
| Scheduler.SchedulerJoinsJobGroup | console-scheduler/Program.cs:26-29 | For a user name and time without '/', the scheduler's negotiate address is the server followed by a path the manager's route serves, for user `scheduler-{jobId}` and the group that is the submitted job's correlation id. |
| Scheduler.SubmittedJob | console-scheduler/Program.cs:68 | The submitted job has correlation id = job id and seven steps. Its last step is "Done" and no earlier step is. |
| Scheduler.IsDone | console-scheduler/Program.cs:53 | An update ends the wait when its step is "Done" and its status "Completed". |
| Scheduler.OnGroupMessage | console-scheduler/Program.cs:44-63 | The handler signals done iff the message is JSON with step "Done" and status "Completed". Non-JSON messages are only printed. JSON that reads back as null makes the handler fault. |
| Scheduler.CancelUpdate | console-scheduler/Program.cs:86 | `JobUpdate(job.Name, job.CorrelationId, "Cancelled", "Cancelled")`. |
| Scheduler.SchedulerSession.constructor | console-scheduler/Program.cs:68 | The session starts with the submitted job, the done event unset and nothing sent. |
| Scheduler.SchedulerSession.HandleGroupMessage | console-scheduler/Program.cs:44-63 | The done event becomes set exactly when the message signals done, and stays set. |
| Scheduler.SchedulerSession.HandleCancelKeyPress | console-scheduler/Program.cs:80-92 | Y sends `JobUpdate(name, correlationId, "Cancelled", "Cancelled")` as JSON to the job's group and sets the done event. If that send throws, the handler faults with nothing sent and the event as it was. Any other key changes nothing. |
| Scheduler.DoneOnlyOnLastUpdate | console-scheduler/Program.cs:53 | Of the solver's 14 updates for the submitted job, the last one, and only the last, ends the scheduler's wait. |
| Scheduler.CancelStopsSolver | console-scheduler/Program.cs:86 | The scheduler's cancel update, as received, cancels the solver's run whenever the solver's user name differs from the scheduler's. |
| DeviceSimulator.DeviceId | console-device/Program.cs:81-82 | The configured `DeviceId`, else `console-device::console-test`. |
| DeviceSimulator.DeviceNegotiateUri | console-device/Program.cs:87 | `{server}/negotiate/{deviceId}`, one path segment. |
| DeviceSimulator.DefaultDeviceIsEchoed | console-device/Program.cs:81-82 | The default device id `console-device::console-test` is its own counterpart in the relay. |
| DeviceSimulator.DeviceNegotiatePathUnmapped | console-device/Program.cs:81-87 | For the default id, or a configured one without '/', the device's negotiate address is the server followed by a one-segment path that matches no route of the manager. |
| DeviceSimulator.SecondsComponent | console-device/Program.cs:180 | `TimeSpan.Seconds` of a whole number of seconds lies strictly between -60 and 60. It differs from the total by whole minutes and has the total's sign. |
| DeviceSimulator.SeventyFiveSecondsShowFifteen | console-device/Program.cs:180 | An interval of 75 s is tagged "15". |
| DeviceSimulator.Telemetry | console-device/Program.cs:166-180 | The message for one line: the line as `messageText`, JSON content type, UTF-8 encoding, property `currentInterval_in_s` = the interval's seconds component in decimal. |
| DeviceSimulator.IntervalPropertyReadsBack | console-device/Program.cs:180 | The `currentInterval_in_s` property parses back to the interval's seconds component. |
| DeviceSimulator.IntervalAfter | console-device/Program.cs:136-139 | The value of `s_telemetryInterval` once the `SetTelemetryInterval` calls landing before the first i lines are read have run. Characterised by `DeviceSimulator.LatestCallWins`. |
| DeviceSimulator.LatestCallWins | console-device/Program.cs:138 | The interval in effect is the one set by the latest successful call; with no call so far it is the starting interval. |
| DeviceSimulator.LeadingLines | console-device/Program.cs:157-164 | The number of lines before the first null or empty one: every line before it is non-empty, and the line at it, if any, is null or empty. |
| DeviceSimulator.TelemetryFor | console-device/Program.cs:157-180 | The messages for the lines before the first null or empty one, each tagged with the interval in effect when its line was read. Characterised by `DeviceSimulator.TelemetryForLines`. |
| DeviceSimulator.TelemetryForLines | console-device/Program.cs:157-180 | The telemetry sent has one message per line before the first null or empty line, in order. Message k carries line k and the seconds component of the interval in effect once line k has been read. The line after the last message, if any, is null or empty. |
| DeviceSimulator.Device.constructor | console-device/Program.cs:23 | The telemetry interval starts at 20 seconds. |
| DeviceSimulator.Device.DirectMethodCallback | console-device/Program.cs:128-150 | `SetTelemetryInterval` with a payload that reads as an int returns 200 and sets the interval to it. Any other name, or a payload that does not parse, returns 400 and leaves the interval unchanged. |
| DeviceSimulator.Device.SendDeviceToCloudMessages | console-device/Program.cs:153-188 | The loop reads the interval field for each message, so it sends exactly the telemetry specified for its input, the starting interval and the `SetTelemetryInterval` calls that land between lines. When the send of message k (within that telemetry) throws, only the first k are sent; a cancelled send ends quietly, any other exception escapes. The field ends as the calls landed up to the last line read leave it. |
| Subscriber.UserId | console-subscriber/Program.cs:21 | The configured user id, else `console-subscriber`. |
| Subscriber.GroupName | console-subscriber/Program.cs:22 | The configured group, else `group`. |
| Subscriber.DefaultNegotiation | console-subscriber/Program.cs:21-26 | Unconfigured, the subscriber negotiates as "console-subscriber" for group "group", and the manager's route reads both back. |
| Subscriber.OnGroupMessage | console-subscriber/Program.cs:54-72 | Its own messages are skipped, and only those. Another user's message exits iff its update has status "Cancelled", gets `PrintOnly` (printed and nothing else) iff it is an update with another status, and faults iff it does not read back as an update. |
| Subscriber.CommandSend | console-subscriber/Program.cs:85-86 | The send for a command: `JobUpdate("?", group, command, status)` as JSON to the group, the status embedding the time. |
| Subscriber.CommandSends | console-subscriber/Program.cs:74-88 | The sends for the lines before the first null or empty one. Characterised by `Subscriber.CommandSendsShape`. |
| Subscriber.CommandSendsShape | console-subscriber/Program.cs:74-88 | Send k goes as JSON to the group as `JobUpdate("?", group, line k, status)`, line k being non-empty. The sends stop only at a null or empty line: the line after the last send, if any, is null or empty. |
| Subscriber.CommandLoop | console-subscriber/Program.cs:74-88 | The loop sends exactly the specified commands and ends having disposed the client; the end of the input reads as null. When the send for line k (within those commands) throws, only the first k are sent and the client is not disposed. |

## Left out

- Azure SDK calls are parameters (send outcome, registry failure, generated key, negotiation outcome, start failure, the send that throws, issued URI), not models of the services. Calls outside the modelled handlers and loops are not modelled: the negotiation and client start-up of the scheduler, the device and the subscriber, the scheduler's job submission (`sender.SendMessageAsync`) and Web PubSub event (`SendEventAsync`), the device's `OpenAsync`, handler registration and `CloseAsync`.
- The disposal of Web PubSub clients (the solver's after its run and in its cancel handler, the subscriber's on cancellation) is not modelled; a failing disposal is not modelled either.
- Async execution, concurrency and delays are left out. The solver's cancellation is reduced to batches of messages at its suspension points. `MaxConcurrentCalls` and the scheduler's done-event wait are not modelled.
- JSON and `BinaryData` encoding are not modelled. Payloads are opaque bytes or `JobUpdate` values, the telemetry body is the line it wraps, and `JsonSerializer.Deserialize<int>` is an `Option<int32>`.
- Timestamps, `Environment.UserName`, configuration builders, logging and console output are left out. The scheduler's job id takes the user name and formatted time as strings, and the subscriber's status takes the time as an opaque string.
- `ProcessErrorAsync` (iot-manager/OtherServices/ServiceBusHostedService.cs:79-93) is left out: it has no observable effect.
- `OnConnectAsync`, `OnConnectedAsync` and `OnDisconnectedAsync` in `AspHub` are left out: they return the library base class's behaviour, which is not part of this model.
- Manager.MatchNegotiateRoute: the framework matches the literal `negotiate` without regard to case and normalises paths; the model reads the template case-sensitively on canonical paths, so `/Negotiate/u/g` is refused here but served by the application.
- Relay.Counterpart: `StartsWith` is modelled as ordinal, whereas the code uses the culture-sensitive overload. The two agree on ids without characters that the culture's comparison ignores (a soft hyphen, for example).
- Manager.LoadSettings: the hostname is not checked to form a valid URI. A hostname for which `new Uri("https://" + hostname)` throws (line 45, such as an empty one) fails startup, where the model returns the settings.
- Manager.ChooseServiceBusClient: case is ignored for ASCII letters only, not full invariant-culture case folding.
- Manager.Negotiate: the `AbsoluteUri` normalisation of the issued URI and the framework's header binding are not modelled.
- JobSolver.HandleJob: only cancellation through the group handler is modelled, not the request's own cancellation token. A null correlation id is read as the empty string, which the code treats the same way. A faulted or aborted run is a result value; the framework's answer to the exception is not modelled.
- Registry.Register: `failure` models a fault on the first registry call only, not one on the fetch after an already-exists.
- Subscriber.OnGroupMessage: the process exit that follows a cancellation is a reaction value. Its race with the command loop is not modelled.
- DeviceSimulator.Telemetry: `int.ToString()` is rendered with "-" as the negative sign; the current culture may use another for a negative interval.
- DeviceSimulator.Device.SendDeviceToCloudMessages: cancellation that makes the read return null is read as a null line; the loop's own check of the token is folded into it. A `SetTelemetryInterval` call that lands after a line is read but before its message is tagged counts as landing before the next line.
- console-cloud and console-publisher are not part of this model: they only list, read and print through the SDKs.
