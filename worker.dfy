/** The timer worker the drum kit starts in `init`: a script that, once
    told "start", re-arms a 100 ms timeout for ever and posts "schedule"
    each time it fires, until told "stop". The host's timer table is the
    `pending` set; the worker's own variable is `timeoutId`. */
module Worker {

  /** The messages the kit posts to the worker. Only "start" and "stop" do anything. */
  datatype Message = Init | Start | Stop

  class TimerWorker {
    /** The worker's `timeoutID`: 0 when no timeout is armed. */
    var timeoutId: nat
    /** The timeouts the host has armed for this worker and not yet fired or cleared. */
    var pending: set<nat>
    /** The identifier the host hands out on the next setTimeout; host ids are positive. */
    var nextId: nat

    ghost predicate Valid()
      reads this
    {
      && 0 < nextId
      && timeoutId < nextId
      && pending == (if timeoutId == 0 then {} else {timeoutId})
    }

    /** Whether a recurring timeout is running. */
    predicate Armed()
      reads this
    {
      timeoutId != 0
    }

    constructor ()
      ensures Valid() && !Armed() && pending == {}
    {
      timeoutId, pending, nextId := 0, {}, 1;
    }

    /** The worker's `schedule()`: arm a fresh timeout and remember its id. */
    method ArmTimeout()
      requires 0 < nextId
      modifies this
      ensures timeoutId == old(nextId) && nextId == old(nextId) + 1
      ensures pending == old(pending) + {old(nextId)}
    {
      timeoutId := nextId;
      pending := pending + {nextId};
      nextId := nextId + 1;
    }

    /** The worker's `onmessage`: "start" arms only when nothing is armed,
        "stop" clears the armed timeout and forgets it, anything else is ignored. */
    method OnMessage(data: Message)
      requires Valid()
      modifies this
      ensures Valid()
      ensures data == Start ==> Armed() && |pending| == 1
      ensures data == Start && old(Armed()) ==> unchanged(this)
      ensures data == Stop ==> !Armed() && pending == {}
      ensures data == Init ==> unchanged(this)
    {
      if data == Start {
        if timeoutId == 0 {
          ArmTimeout();
        }
      } else if data == Stop {
        if timeoutId != 0 {
          pending := pending - {timeoutId};
        }
        timeoutId := 0;
      }
    }

    /** The armed timeout `id` fires: the worker posts "schedule" to the kit
        and arms the next timeout, which replaces the one that fired. */
    method Fire(id: nat)
      requires Valid() && id in pending
      modifies this
      ensures Valid() && Armed() && |pending| == 1
      ensures id !in pending && timeoutId != id
    {
      pending := pending - {id};
      ArmTimeout();
    }
  }

  /** Whatever messages arrive and timeouts fire, a valid worker has at most
      one timeout armed, and exactly one while it is armed. */
  lemma AtMostOneTimer(w: TimerWorker)
    requires w.Valid()
    ensures |w.pending| <= 1
    ensures |w.pending| == 1 <==> w.Armed()
  {
  }

  /** Posting "start" twice arms one timer, with the same id. */
  method StartTwice(w: TimerWorker)
    requires w.Valid()
    modifies w
    ensures w.Valid() && |w.pending| == 1
  {
    w.OnMessage(Start);
    var first := w.timeoutId;
    w.OnMessage(Start);
    assert w.timeoutId == first;
  }
}
