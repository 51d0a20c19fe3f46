/**
 * The console device simulator: it reads lines from the console and sends
 * each as a telemetry message tagged with the current telemetry interval,
 * and it answers the `SetTelemetryInterval` direct method.
 */
module DeviceSimulator {
  import opened Wrappers
  import opened Text
  import opened Protocol
  import Relay
  import Manager

  /** C#'s `int`. */
  newtype int32 = x: int | -0x8000_0000 <= x < 0x8000_0000

  const DefaultJobId := "console-test"

  /** The configured `DeviceId`, else `console-device::console-test`. */
  function DeviceId(configured: Option<string>): string {
    configured.GetOr("console-device::" + DefaultJobId)
  }

  /** The device negotiates at `{server}/negotiate/{deviceId}`: one path segment. */
  function DeviceNegotiateUri(server: string, deviceId: string): string {
    server + "/negotiate/" + deviceId
  }

  /** The default device is paired with itself: the relay sends its messages back to it. */
  lemma DefaultDeviceIsEchoed()
    ensures Relay.Counterpart(DeviceId(None)) == DeviceId(None)
  {
    var id := DeviceId(None);
    MissingCharNotContains(id, Relay.SolverTag, 'r');
    MissingCharNotContains(id, Relay.SchedulerTag, 'r');
    Relay.CounterpartUntagged(id);
  }

  /**
   * The device asks the manager for `/negotiate/{deviceId}`, a path of one
   * segment, which no route of the manager serves.
   */
  lemma DeviceNegotiatePathUnmapped(server: string, configured: Option<string>)
    requires configured.Some? ==> Free(configured.value, '/')
    ensures var uri := DeviceNegotiateUri(server, DeviceId(configured));
      && StartsWith(uri, server)
      && Manager.MatchNegotiateRoute(uri[|server|..]) == None
  {
    var id := DeviceId(configured);
    assert Free(id, '/') by {
      if configured.None? {
        forall i | 0 <= i < |id| ensures id[i] != '/' {}
      }
    }
    var uri := DeviceNegotiateUri(server, id);
    assert uri[..|server|] == server;
    assert uri[|server|..] == "/negotiate/" + id;
    Manager.OneSegmentPathNotMapped(id);
  }

  /**
   * `TimeSpan.Seconds` of a whole number of seconds: the seconds component,
   * which keeps the sign of the total and drops whole minutes.
   */
  function SecondsComponent(total: int): (r: int)
    ensures -60 < r < 60
    ensures (total - r) % 60 == 0
    ensures total >= 0 ==> r >= 0
    ensures total <= 0 ==> r <= 0
  {
    if total >= 0 then total % 60 else -((-total) % 60)
  }

  /** Seventy-five seconds show as "15". */
  lemma SeventyFiveSecondsShowFifteen()
    ensures DecimalString(SecondsComponent(75)) == "15"
  {
    assert NatDigits(15) == NatDigits(1) + [DigitChar(5)];
  }

  /** The message the telemetry loop sends for one console line. */
  datatype TelemetryMessage = TelemetryMessage(
    messageText: string,         // the JSON body {"messageText": ...}
    contentType: string,
    contentEncoding: string,
    properties: map<string, string>)

  function Telemetry(line: string, intervalSeconds: int): TelemetryMessage {
    TelemetryMessage(line, "application/json", "utf-8",
                     map["currentInterval_in_s" := DecimalString(SecondsComponent(intervalSeconds))])
  }

  /**
   * The telemetry interval once the direct-method calls that arrive before
   * lines `0 .. i - 1` are read have run, starting from `start`.
   * `updates[k]`, when present, is a successful `SetTelemetryInterval` call
   * that lands while line `k` is awaited; a call that fails changes nothing.
   */
  function IntervalAfter(start: int, updates: seq<Option<int32>>, i: nat): int
    decreases i
  {
    if i == 0 then start
    else if i - 1 < |updates| && updates[i - 1].Some? then updates[i - 1].value as int
    else IntervalAfter(start, updates, i - 1)
  }

  /**
   * The interval in effect is set by the latest call: the one at `k` when no
   * call lands after it and before line `i - 1` is read, else `start` when
   * no call has landed at all.
   */
  lemma {:induction false} LatestCallWins(start: int, updates: seq<Option<int32>>, k: nat, i: nat)
    requires k < i
    requires forall j :: k < j < i && j < |updates| ==> updates[j].None?
    ensures k < |updates| && updates[k].Some? ==> IntervalAfter(start, updates, i) == updates[k].value as int
    ensures (forall j :: 0 <= j < i && j < |updates| ==> updates[j].None?) ==> IntervalAfter(start, updates, i) == start
    decreases i
  {
    if i - 1 > k {
      LatestCallWins(start, updates, k, i - 1);
    } else if k > 0 && (forall j :: 0 <= j < i && j < |updates| ==> updates[j].None?) {
      LatestCallWins(start, updates, k - 1, i - 1);
    } else if k == 0 && (forall j :: 0 <= j < i && j < |updates| ==> updates[j].None?) {
      assert IntervalAfter(start, updates, 0) == start;
    }
  }

  /** The number of lines before the first null or empty one. */
  function LeadingLines(input: seq<Line>): (n: nat)
    ensures n <= |input|
    ensures forall i :: 0 <= i < n ==> !IsNullOrEmpty(input[i])
    ensures n < |input| ==> IsNullOrEmpty(input[n])
    decreases |input|
  {
    if input == [] || IsNullOrEmpty(input[0]) then 0
    else
      var n := 1 + LeadingLines(input[1..]);
      assert forall i :: 1 <= i < n ==> input[i] == input[1..][i - 1];
      n
  }

  /**
   * The messages for the lines before the first null or empty one, each
   * carrying the interval in effect when its line was read.
   */
  function TelemetryFor(input: seq<Line>, start: int, updates: seq<Option<int32>>): seq<TelemetryMessage> {
    var n := LeadingLines(input);
    seq(n, i requires 0 <= i < n => Telemetry(input[i].value, IntervalAfter(start, updates, i + 1)))
  }

  /**
   * The telemetry sent for an input: one message per line up to the first
   * null or empty line, in order, each carrying its line and the seconds
   * component of the interval in effect when the line was read.
   */
  lemma TelemetryForLines(input: seq<Line>, start: int, updates: seq<Option<int32>>, k: int)
    ensures |TelemetryFor(input, start, updates)| <= |input|
    ensures 0 <= k < |TelemetryFor(input, start, updates)| ==>
      && !IsNullOrEmpty(input[k])
      && TelemetryFor(input, start, updates)[k] == Telemetry(input[k].value, IntervalAfter(start, updates, k + 1))
    ensures var n := |TelemetryFor(input, start, updates)|;
      n < |input| ==> IsNullOrEmpty(input[n])
  {
  }

  /** The property value reads back as the seconds component. */
  lemma IntervalPropertyReadsBack(line: string, intervalSeconds: int)
    ensures ParseDecimal(Telemetry(line, intervalSeconds).properties["currentInterval_in_s"])
         == Some(SecondsComponent(intervalSeconds))
  {
    DecimalRoundTrip(SecondsComponent(intervalSeconds));
  }

  /** A send of the telemetry loop that throws: the message number, and whether it was cancelled. */
  datatype SendInterrupt = SendInterrupt(at: nat, canceled: bool)

  /** The simulator's process-wide state: `s_telemetryInterval`, in whole seconds. */
  class Device {
    var telemetryInterval: int

    constructor()
      ensures telemetryInterval == 20
    {
      telemetryInterval := 20;
    }

    /**
     * `DirectMethodCallback`. `payload` is the method's JSON data read as an
     * `int` (absent when it does not parse). Only `SetTelemetryInterval`
     * with a readable payload succeeds.
     */
    method DirectMethodCallback(name: string, payload: Option<int32>) returns (status: int)
      modifies this
      ensures name == "SetTelemetryInterval" && payload.Some? ==>
        status == 200 && telemetryInterval == payload.value as int
      ensures !(name == "SetTelemetryInterval" && payload.Some?) ==>
        status == 400 && telemetryInterval == old(telemetryInterval)
    {
      if name == "SetTelemetryInterval" {
        match payload {
          case Some(seconds) =>
            telemetryInterval := seconds as int;
            return 200;
          case None =>
            // the parse failure is caught and falls out of the switch
        }
      }
      return 400;
    }

    /**
     * `SendDeviceToCloudMessagesAsync`: read lines until a null (end of input
     * or cancellation) or an empty one, sending a message for each, tagged
     * with `s_telemetryInterval` as it is when the line has been read.
     * `updates[i]` is a `SetTelemetryInterval` call that lands while line `i`
     * is awaited. An interrupted send ends the loop: quietly when it was
     * cancelled, with the exception escaping (`faulted`) otherwise.
     */
    method SendDeviceToCloudMessages(input: seq<Line>, updates: seq<Option<int32>>, interrupt: Option<SendInterrupt>)
      returns (sent: seq<TelemetryMessage>, faulted: bool)
      modifies this
      ensures var all := TelemetryFor(input, old(telemetryInterval), updates);
        if interrupt.Some? && interrupt.value.at < |all|
        then && sent == all[..interrupt.value.at] && faulted == !interrupt.value.canceled
             && telemetryInterval == IntervalAfter(old(telemetryInterval), updates, interrupt.value.at + 1)
        else && sent == all && !faulted
             && telemetryInterval == IntervalAfter(old(telemetryInterval), updates, |all| + 1)
    {
      ghost var start := telemetryInterval;
      ghost var all := TelemetryFor(input, start, updates);
      sent := [];
      faulted := false;
      var i := 0;
      while true
        invariant 0 <= i <= |input|
        invariant i <= |all| && sent == all[..i]
        invariant interrupt.Some? ==> i <= interrupt.value.at
        invariant telemetryInterval == IntervalAfter(start, updates, i)
        decreases |input| - i
      {
        if i < |updates| && updates[i].Some? {
          // DirectMethodCallback runs while the line is awaited
          var status := DirectMethodCallback("SetTelemetryInterval", updates[i]);
        }
        var messageText: Line := if i < |input| then input[i] else None;
        // the lines sent so far were all non-empty, so line i has a message iff it is non-empty
        TelemetryForLines(input, start, updates, i);
        if IsNullOrEmpty(messageText) {
          break;
        }
        if interrupt.Some? && interrupt.value.at == i {
          // SendEventAsync throws: TaskCanceledException is caught, anything else escapes
          faulted := !interrupt.value.canceled;
          return;
        }
        assert all[..i + 1] == all[..i] + [all[i]];
        sent := sent + [Telemetry(messageText.value, telemetryInterval)];
        i := i + 1;
      }
    }
  }
}
