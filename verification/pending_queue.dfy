/** The two message queues of an `Agent` and how a run polls them. */
module PendingQueues {
  import opened AgentTypes

  datatype QueueMode = All | OneAtATime

  function DrainOf(mode: QueueMode, messages: seq<Message>): (taken: seq<Message>)
    ensures taken <= messages && (taken == [] <==> messages == [])
    ensures mode == All ==> taken == messages
    ensures mode == OneAtATime && messages != [] ==> taken == [messages[0]]
  {
    if mode == All || messages == [] then messages else messages[..1]
  }

  /** `enqueued` and `drained` remember the queue's history, except for messages withdrawn by a clear. */
  class PendingMessageQueue {
    var messages: seq<Message>
    var mode: QueueMode
    ghost var enqueued: seq<Message>
    ghost var drained: seq<Message>

    ghost predicate Valid()
      reads this
    {
      enqueued == drained + messages
    }

    constructor (mode: QueueMode)
      ensures Valid() && messages == [] && this.mode == mode && drained == []
    {
      this.mode := mode;
      messages, enqueued, drained := [], [], [];
    }

    method Enqueue(message: Message)
      requires Valid()
      modifies this
      ensures Valid() && messages == old(messages) + [message] && mode == old(mode)
      ensures enqueued == old(enqueued) + [message] && drained == old(drained)
    {
      messages := messages + [message];
      enqueued := enqueued + [message];
    }

    method Drain() returns (out: seq<Message>)
      requires Valid()
      modifies this
      ensures Valid() && mode == old(mode) && enqueued == old(enqueued)
      ensures out == DrainOf(mode, old(messages))
      ensures mode == All ==> out == old(messages)
      ensures mode == OneAtATime ==> out == if old(messages) == [] then [] else [old(messages)[0]]
      ensures old(messages) == out + messages
      ensures drained == old(drained) + out
    {
      if mode == All {
        out := messages;
        messages := [];
        drained := drained + out;
        return;
      }
      if messages == [] {
        out := [];
        return;
      }
      out := [messages[0]];
      messages := messages[1..];
      drained := drained + out;
    }

    method Clear()
      requires Valid()
      modifies this
      ensures Valid() && messages == [] && mode == old(mode)
      ensures enqueued == drained == old(drained)
    {
      messages := [];
      enqueued := drained;
    }
  }

  /** What callers did to the queues between two polls: messages added, modes as they now are. */
  datatype Arrival = Arrival(
    steering: seq<Message>, followUps: seq<Message>, steeringMode: QueueMode, followUpMode: QueueMode)

  /** The queue-facing part of the loop configuration an `Agent` builds for one run. */
  class LoopConfig {
    const steering: PendingMessageQueue
    const followUps: PendingMessageQueue
    var skipInitialSteeringPoll: bool

    ghost predicate Valid()
      reads this, steering, followUps
    {
      steering != followUps && steering.Valid() && followUps.Valid()
    }

    constructor (steering: PendingMessageQueue, followUps: PendingMessageQueue, skipInitialSteeringPoll: bool)
      requires steering != followUps && steering.Valid() && followUps.Valid()
      ensures Valid() && this.steering == steering && this.followUps == followUps
      ensures this.skipInitialSteeringPoll == skipInitialSteeringPoll
    {
      this.steering, this.followUps := steering, followUps;
      this.skipInitialSteeringPoll := skipInitialSteeringPoll;
    }

    /** Everything callers enqueue before the next poll; the order between the queues does not matter. */
    method Arrive(a: Arrival)
      requires Valid()
      modifies steering, followUps
      ensures Valid()
      ensures steering.messages == old(steering.messages) + a.steering && steering.mode == a.steeringMode
      ensures steering.enqueued == old(steering.enqueued) + a.steering && steering.drained == old(steering.drained)
      ensures followUps.messages == old(followUps.messages) + a.followUps && followUps.mode == a.followUpMode
      ensures followUps.enqueued == old(followUps.enqueued) + a.followUps && followUps.drained == old(followUps.drained)
    {
      steering.messages, steering.enqueued := steering.messages + a.steering, steering.enqueued + a.steering;
      followUps.messages, followUps.enqueued := followUps.messages + a.followUps, followUps.enqueued + a.followUps;
      steering.mode, followUps.mode := a.steeringMode, a.followUpMode;
    }

    method GetSteeringMessages(a: Arrival) returns (out: seq<Message>)
      requires Valid()
      modifies this, steering, followUps
      ensures Valid() && !skipInitialSteeringPoll
      ensures out == if old(skipInitialSteeringPoll) then [] else DrainOf(a.steeringMode, old(steering.messages) + a.steering)
      ensures steering.mode == a.steeringMode && followUps.mode == a.followUpMode
      ensures old(steering.messages) + a.steering == out + steering.messages
      ensures steering.drained == old(steering.drained) + out
      ensures steering.enqueued == old(steering.enqueued) + a.steering
      ensures followUps.messages == old(followUps.messages) + a.followUps && followUps.drained == old(followUps.drained)
      ensures followUps.enqueued == old(followUps.enqueued) + a.followUps
    {
      Arrive(a);
      if skipInitialSteeringPoll {
        skipInitialSteeringPoll := false;
        out := [];
      } else {
        out := steering.Drain();
      }
    }

    method GetFollowUpMessages(a: Arrival) returns (out: seq<Message>)
      requires Valid()
      modifies steering, followUps
      ensures Valid()
      ensures out == DrainOf(a.followUpMode, old(followUps.messages) + a.followUps)
      ensures steering.mode == a.steeringMode && followUps.mode == a.followUpMode
      ensures old(followUps.messages) + a.followUps == out + followUps.messages
      ensures followUps.drained == old(followUps.drained) + out
      ensures followUps.enqueued == old(followUps.enqueued) + a.followUps
      ensures steering.messages == old(steering.messages) + a.steering && steering.drained == old(steering.drained)
      ensures steering.enqueued == old(steering.enqueued) + a.steering
    {
      Arrive(a);
      out := followUps.Drain();
    }
  }
}
