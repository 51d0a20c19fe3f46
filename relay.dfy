/**
 * The relay of `ServiceBusHostedService`: each message read from the
 * "device-messages" queue is forwarded, as a cloud-to-device message, to the
 * device paired with its sender, and is settled in exactly one way.
 */
module Relay {
  import opened Wrappers
  import opened Text

  /** The application property naming the device that sent the message. */
  const DeviceIdProperty := "iothub-connection-device-id"
  const SolverTag := "device-solver::"
  const SchedulerTag := "device-scheduler::"
  const Separator := "::"

  /** A queued message: its body and its application properties (a null value is `None`). */
  datatype QueueMessage = QueueMessage(body: seq<bv8>, properties: map<string, Option<string>>)

  /** `DeliveryAcknowledgement` of a cloud-to-device message. */
  datatype Acknowledgement = AckNone | AckPositive | AckNegative | AckFull

  /** The message handed to `ServiceClient.SendAsync(target, message)`. */
  datatype CloudToDeviceMessage =
    CloudToDeviceMessage(target: string, body: seq<bv8>, properties: map<string, string>, ack: Acknowledgement)

  /** What `ServiceClient.SendAsync` does: return, or throw one of two kinds of exception. */
  datatype SendOutcome = Delivered | DeviceNotFound | SendFailed(message: string)

  /**
   * How the processor settles the message: completed after the handler
   * returns (AutoCompleteMessages), dead-lettered by the handler, or
   * abandoned because the handler threw.
   */
  datatype Settlement = AutoCompleted | DeadLettered(reason: string, description: string) | Abandoned

  /** One run of the handler: the send it attempts, if any, and the settlement. */
  datatype Handling = Handling(delivery: Option<CloudToDeviceMessage>, settlement: Settlement)

  /**
   * The paired device: an id that starts with the solver tag gets every
   * solver tag replaced by the scheduler tag; any other id gets every
   * scheduler tag replaced by the solver tag.
   */
  function Counterpart(id: string): string {
    if StartsWith(id, SolverTag) then ReplaceAll(id, SolverTag, SchedulerTag)
    else ReplaceAll(id, SchedulerTag, SolverTag)
  }

  /** The sender id of a message, when the property is present, non-null and holds the separator. */
  predicate Routable(m: QueueMessage) {
    DeviceIdProperty in m.properties
    && m.properties[DeviceIdProperty].Some?
    && Contains(m.properties[DeviceIdProperty].value, Separator)
  }

  /**
   * `DeadLetterMessageAsync`: the message is dead-lettered, unless the call
   * throws (a lost lock, say); the handler then throws without settling and
   * the processor abandons the message.
   */
  function DeadLetter(reason: string, description: string, fails: bool): Settlement {
    if fails then Abandoned else DeadLettered(reason, description)
  }

  const NoDeviceId := DeadLettered("DeviceIdNotFound", "Device id not found in message properties")

  /** The message `SendCloudToDeviceMessageAsync` builds. */
  function CloudToDevice(target: string, from: string, body: seq<bv8>): CloudToDeviceMessage {
    CloudToDeviceMessage(target, body, map["from-device" := from], AckFull)
  }

  /** The settlement that follows an attempted send to `target`. */
  function AfterSend(target: string, outcome: SendOutcome, deadLetterFails: bool): Settlement {
    match outcome
    case Delivered => AutoCompleted
    case DeviceNotFound => DeadLetter("DeviceNotFound", "Device " + target + "does not exist", deadLetterFails)
    case SendFailed(msg) => DeadLetter("DeviceMessageFailed", msg, deadLetterFails)
  }

  /**
   * The `ProcessMessageAsync` handler followed by the processor's settlement.
   * `outcome` is what the send would do if it were attempted;
   * `deadLetterFails` says whether a `DeadLetterMessageAsync` call would throw.
   */
  function Route(m: QueueMessage, outcome: SendOutcome, deadLetterFails: bool): (h: Handling)
    // the indexer throws on a missing property, a throwing dead-letter call
    // leaves the message unsettled, and the processor abandons it
    ensures h.settlement == Abandoned <==>
      DeviceIdProperty !in m.properties || (deadLetterFails && !(Routable(m) && outcome == Delivered))
    // a null id or one without "::" is dead-lettered and nothing is sent
    ensures h.settlement == NoDeviceId <==> DeviceIdProperty in m.properties && !Routable(m) && !deadLetterFails
    ensures h.delivery.Some? <==> Routable(m)
    // the forwarded message: counterpart target, same body, sender in "from-device", full ack
    ensures Routable(m) ==>
      var from := m.properties[DeviceIdProperty].value;
      && h.delivery.value.target == Counterpart(from)
      && h.delivery.value.body == m.body
      && h.delivery.value.properties == map["from-device" := from]
      && h.delivery.value.ack == AckFull
    // a send that returns is completed, a failed send is dead-lettered with its reason
    ensures h.settlement == AutoCompleted <==> Routable(m) && outcome == Delivered
    ensures Routable(m) && outcome == DeviceNotFound && !deadLetterFails ==>
      h.settlement == DeadLettered("DeviceNotFound", "Device " + h.delivery.value.target + "does not exist")
    ensures Routable(m) && outcome.SendFailed? && !deadLetterFails ==>
      h.settlement == DeadLettered("DeviceMessageFailed", outcome.message)
  {
    if DeviceIdProperty !in m.properties then Handling(None, Abandoned)
    else match m.properties[DeviceIdProperty]
      case None => Handling(None, DeadLetter(NoDeviceId.reason, NoDeviceId.description, deadLetterFails))
      case Some(from) =>
        if !Contains(from, Separator) then
          Handling(None, DeadLetter(NoDeviceId.reason, NoDeviceId.description, deadLetterFails))
        else
          var target := Counterpart(from);
          Handling(Some(CloudToDevice(target, from, m.body)), AfterSend(target, outcome, deadLetterFails))
  }

  /** A dead-letter reason is one of the three the handler writes. */
  lemma DeadLetterReasons(m: QueueMessage, outcome: SendOutcome, deadLetterFails: bool)
    ensures Route(m, outcome, deadLetterFails).settlement.DeadLettered? ==>
      Route(m, outcome, deadLetterFails).settlement.reason in {"DeviceIdNotFound", "DeviceNotFound", "DeviceMessageFailed"}
  {
  }

  // ---------------------------------------------------------------------
  // The counterpart transform

  /** An id made of a tag followed by a correlation part that holds neither tag. */
  predicate Tagged(id: string, tag: string, c: string) {
    (tag == SolverTag || tag == SchedulerTag)
    && id == tag + c
    && !Contains(c, SolverTag) && !Contains(c, SchedulerTag)
  }

  /** The tag the counterpart of a `tag`-device carries. */
  function OtherTag(tag: string): string {
    if tag == SolverTag then SchedulerTag else SolverTag
  }

  lemma SchedulerNotSolverPrefix(c: string)
    ensures !StartsWith(SchedulerTag + c, SolverTag)
  {
    assert (SchedulerTag + c)[8] == 'c' && SolverTag[8] == 'o';
  }

  /** The counterpart swaps the tag and keeps the correlation part. */
  lemma CounterpartSwapsTag(id: string, tag: string, c: string)
    requires Tagged(id, tag, c)
    ensures Counterpart(id) == OtherTag(tag) + c
  {
    if tag == SolverTag {
      assert StartsWith(id, SolverTag) by { assert id[..|SolverTag|] == SolverTag; }
      ReplaceAtFront(c, SolverTag, SchedulerTag);
    } else {
      SchedulerNotSolverPrefix(c);
      ReplaceAtFront(c, SchedulerTag, SolverTag);
    }
  }

  /** For a well-formed tagged id the pairing is an involution without fixed points. */
  lemma CounterpartInvolution(id: string, tag: string, c: string)
    requires Tagged(id, tag, c)
    ensures Counterpart(Counterpart(id)) == id
    ensures Counterpart(id) != id
  {
    CounterpartSwapsTag(id, tag, c);
    assert Tagged(OtherTag(tag) + c, OtherTag(tag), c);
    CounterpartSwapsTag(OtherTag(tag) + c, OtherTag(tag), c);
    assert (SolverTag + c)[8] != (SchedulerTag + c)[8];
  }

  /** An id that holds neither tag is paired with itself: its messages are echoed back. */
  lemma CounterpartUntagged(id: string)
    requires !Contains(id, SolverTag) && !Contains(id, SchedulerTag)
    ensures Counterpart(id) == id
  {
    ReplaceAbsent(id, SchedulerTag, SolverTag);
  }

  /**
   * When the correlation part itself holds a tag, replace-all breaks the
   * pairing: "device-scheduler::device-solver::" is paired with
   * "device-solver::device-solver::", whose counterpart is
   * "device-scheduler::device-scheduler::".
   */
  lemma CounterpartNotInvolutive()
    ensures Counterpart(SchedulerTag + SolverTag) == SolverTag + SolverTag
    ensures Counterpart(SolverTag + SolverTag) == SchedulerTag + SchedulerTag
    ensures Counterpart(Counterpart(SchedulerTag + SolverTag)) != SchedulerTag + SolverTag
  {
    var cid := SolverTag;
    assert Counterpart(SchedulerTag + cid) == SolverTag + cid by {
      // the solver tag is too short to hold the scheduler tag
      ShortNotContains(cid, SchedulerTag);
      SchedulerNotSolverPrefix(cid);
      ReplaceAtFront(cid, SchedulerTag, SolverTag);
    }
    assert Counterpart(SolverTag + cid) == SchedulerTag + SchedulerTag by {
      assert StartsWith(SolverTag + cid, SolverTag) by {
        assert (SolverTag + cid)[..|SolverTag|] == SolverTag;
      }
      ReplaceFront(cid, SolverTag, SchedulerTag);
      ReplaceFront([], SolverTag, SchedulerTag);
      assert cid + [] == cid;
    }
    assert (SchedulerTag + SchedulerTag)[26] != (SchedulerTag + cid)[26];
  }

  /**
   * A reply travels back: when the paired device answers a message from a
   * well-formed tagged sender, the answer is forwarded to that sender.
   */
  lemma ReplyReachesSender(id: string, tag: string, c: string, reply: seq<bv8>, outcome: SendOutcome,
                           deadLetterFails: bool)
    requires Tagged(id, tag, c)
    ensures var h := Route(QueueMessage(reply, map[DeviceIdProperty := Some(Counterpart(id))]), outcome, deadLetterFails);
      h.delivery.Some? && h.delivery.value.target == id
  {
    CounterpartInvolution(id, tag, c);
    CounterpartSwapsTag(id, tag, c);
    var other := OtherTag(tag) + c;
    assert OccursAt(other, Separator, |OtherTag(tag)| - 2);
    OccursContains(other, Separator, |OtherTag(tag)| - 2);
  }
}
