/** The broker and the resume branch of a connection, as straight-line code between other calls. */
module Broker {
  import opened Basics
  import opened ReplayWindow
  import opened Resume

  class Broker {
    var sequence: nat
    var window: seq<Event>
    ghost var log: seq<Event>   // every event ever emitted

    ghost predicate Valid()
      reads this
    {
      |log| == sequence && Numbered(log) && Reflects(window, log)
    }

    constructor ()
      ensures Valid() && log == []
    {
      sequence, window, log := 0, [], [];
    }

    method Emit(payload: string) returns (event: Event)
      requires Valid()
      modifies this
      ensures Valid() && event == Event(|old(log)| + 1, payload) && log == old(log) + [event]
    {
      sequence := sequence + 1;
      event := Event(sequence, payload);
      EmitReflects(window, log, event);
      window := AppendReplay(window, event);
      log := log + [event];
    }

    /** The missing end of the log, or a resync exactly when part of it is gone (never for 0). */
    method Replay(after: int) returns (r: Result<ReplayResult, ()>)
      requires Valid()
      ensures r.Err? <==> after < 0
      ensures after >= 0 ==> r.Ok? && r.value.events == Missing(log, after)
      ensures after >= 0 ==> (r.value.resyncRequired <==> 1 <= after < |log| - 256)
    {
      if after < 0 {
        return Err(());
      }
      ReplayIsMissing(window, log, after);
      var current := sequence;
      var events := ReplayAfter(window, after);
      if after <= 0 || current <= after {
        return Ok(ReplayResult(events, false));
      }
      if |events| == 0 {
        return Ok(ReplayResult(events, true));
      }
      r := Ok(ReplayResult(events, events[0].sequence > after + 1));
    }
  }

  datatype ResumeAnswer = Replayed | ResyncRequired | QueueFull | InvalidPayload

  class Connection {
    const broker: Broker
    var outgoing: seq<Event>   // the channel of capacity QUEUE_SIZE

    constructor (broker: Broker)
      ensures this.broker == broker && outgoing == []
    {
      this.broker := broker;
      outgoing := [];
    }

    method Enqueue(e: Event) returns (ok: bool)
      modifies this
      ensures ok <==> |old(outgoing)| < QUEUE_SIZE
      ensures outgoing == if ok then old(outgoing) + [e] else old(outgoing)
    {
      ok := |outgoing| < QUEUE_SIZE;
      if ok {
        outgoing := outgoing + [e];
      }
    }

    /** The loop over the replayed events: all of them, or as many as the queue takes. */
    method EnqueueAll(events: seq<Event>) returns (ok: bool)
      requires |outgoing| <= QUEUE_SIZE
      modifies this
      ensures ok <==> |old(outgoing) + events| <= QUEUE_SIZE
      ensures outgoing == if ok then old(outgoing) + events else (old(outgoing) + events)[..QUEUE_SIZE]
    {
      for i := 0 to |events|
        invariant |outgoing| == |old(outgoing)| + i <= QUEUE_SIZE
        invariant outgoing == old(outgoing) + events[..i]
      {
        var queued := Enqueue(events[i]);
        if !queued {
          return false;
        }
        assert events[..i + 1] == events[..i] + [events[i]];
      }
      assert events[..|events|] == events;
      ok := true;
    }

    /**
     * connection.resume: all of the missing events are queued in order; or none is and a resync
     * event is emitted, exactly when the client asks with a positive number and has missed an event
     * that is gone; or the queue is filled with the first of them, and the connection is about to close.
     */
    method Resume(lastSequence: int) returns (answer: ResumeAnswer)
      requires broker.Valid() && |outgoing| <= QUEUE_SIZE
      modifies this, broker
      ensures broker.Valid() && |outgoing| <= QUEUE_SIZE
      ensures answer.InvalidPayload? <==> lastSequence < 0
      ensures answer.ResyncRequired? <==> 1 <= lastSequence < |old(broker.log)| - 256
      ensures broker.log == old(broker.log) + (if answer.ResyncRequired?
                                               then [Event(|old(broker.log)| + 1, "connection.resync_required")]
                                               else [])
      ensures answer.InvalidPayload? || answer.ResyncRequired? ==> outgoing == old(outgoing)
      ensures answer.Replayed? ==> outgoing == old(outgoing) + Missing(old(broker.log), lastSequence)
      ensures answer.QueueFull? ==>
                |old(outgoing) + Missing(old(broker.log), lastSequence)| > QUEUE_SIZE
                && outgoing == (old(outgoing) + Missing(old(broker.log), lastSequence))[..QUEUE_SIZE]
    {
      if lastSequence < 0 {
        return InvalidPayload;
      }
      var replay := broker.Replay(lastSequence);
      if replay.value.resyncRequired {
        var _ := broker.Emit("connection.resync_required");
        return ResyncRequired;
      }
      assert replay.value.events == Missing(broker.log, lastSequence);
      var ok := EnqueueAll(replay.value.events);
      if !ok {
        return QueueFull;
      }
      answer := Replayed;
    }
  }
}
