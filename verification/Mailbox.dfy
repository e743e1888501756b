/** The two lock-protected queues of the runtime.  Each method is one critical section. */
module Mailbox {
  import opened SchedulerModel

  datatype PushError = None | ServiceClosed | MailboxFull

  class ServiceMailbox {
    var items: seq<Item>
    var closed: bool
    const capacity: nat

    constructor (capacity: nat)
      ensures items == [] && !closed && this.capacity == capacity
    {
      items, closed := [], false;
      this.capacity := capacity;
    }

    /** A closed mailbox refuses, a full one refuses, and otherwise the envelope goes last. */
    method PushEnvelope(number: nat) returns (error: PushError)
      modifies this
      ensures error == (if old(closed) then ServiceClosed else if |old(items)| >= capacity then MailboxFull else None)
      ensures items == (if error == None then old(items) + [Envelope(number)] else old(items))
      ensures closed == old(closed)
      ensures |old(items)| <= capacity ==> |items| <= capacity
    {
      if closed {
        return ServiceClosed;
      }
      if |items| >= capacity {
        return MailboxFull;
      }
      items := items + [Envelope(number)];
      error := None;
    }

    /** A stop request may exceed the capacity. */
    method PushStop() returns (error: PushError)
      modifies this
      ensures error == if old(closed) then ServiceClosed else None
      ensures items == (if error == None then old(items) + [Stop] else old(items))
      ensures closed == old(closed)
    {
      if closed {
        return ServiceClosed;
      }
      items := items + [Stop];
      error := None;
    }

    method Pop() returns (ok: bool, item: Item)
      modifies this
      ensures ok <==> old(items) != []
      ensures if ok then old(items) == [item] + items else items == old(items)
      ensures closed == old(closed)
    {
      if |items| == 0 {
        return false, Stop;
      }
      ok, item := true, items[0];
      items := items[1..];
    }

    method Discard()
      modifies this
      ensures items == [] && closed == old(closed)
    {
      items := [];
    }

    /** Closing is for good: it empties the mailbox, and nothing is accepted afterwards. */
    method Close()
      modifies this
      ensures items == [] && closed
    {
      closed := true;
      items := [];
    }
  }

  class ReadyQueue {
    var items: seq<nat>
    var closed: bool

    predicate Valid()
      reads this
    {
      closed ==> items == []
    }

    constructor ()
      ensures Valid() && items == [] && !closed
    {
      items, closed := [], false;
    }

    method Push(ref: nat) returns (ok: bool)
      requires Valid()
      modifies this
      ensures Valid() && closed == old(closed)
      ensures ok <==> !old(closed)
      ensures items == if ok then old(items) + [ref] else old(items)
    {
      if closed {
        return false;
      }
      items := items + [ref];
      ok := true;
    }

    /** Returns once there is an item or the queue is closed; closing wins. */
    method Pop() returns (ok: bool, ref: nat)
      requires Valid() && (items != [] || closed)
      modifies this
      ensures Valid() && closed == old(closed)
      ensures ok <==> !old(closed)
      ensures if ok then old(items) == [ref] + items else items == []
    {
      if closed {
        return false, 0;
      }
      ok, ref := true, items[0];
      items := items[1..];
    }

    method Close()
      requires Valid()
      modifies this
      ensures Valid() && closed && items == []
    {
      closed := true;
      items := [];
    }
  }

  // ---------------------------------------------------------------------------------
  // The steps of the scheduler are these operations
  // ---------------------------------------------------------------------------------

  /** The scheduler's mailbox, as this one. */
  ghost predicate Stands(m: ServiceMailbox, mail: Mail)
    reads m
  {
    m.items == mail.items && m.closed == mail.closed && m.capacity == mail.capacity
  }

  /** Where the scheduler lets a send happen, the mailbox accepts it and both agree after. */
  method SendStep(m: ServiceMailbox, sv: Service) returns (r: Service)
    requires Stands(m, sv.mail) && !sv.mail.closed && |sv.mail.items| < sv.mail.capacity
    modifies m
    ensures r == Accept(sv) && Stands(m, r.mail)
  {
    var error := m.PushEnvelope(sv.log.accepted);
    r := Accept(sv);
  }

  /** A stop under a discarding policy first clears the mailbox. */
  method HaltStep(m: ServiceMailbox, sv: Service, discard: bool) returns (r: Service)
    requires Stands(m, sv.mail)
    modifies m
    ensures r == Halt(sv, discard) && Stands(m, r.mail)
  {
    if discard {
      m.Discard();
    }
    r := Halt(sv, discard);
  }

  /** ... and then leaves its request, which a full mailbox takes and a closed one refuses. */
  method StopStep(m: ServiceMailbox, sv: Service) returns (r: Service, error: PushError)
    requires Stands(m, sv.mail)
    modifies m
    ensures error == None <==> !sv.mail.closed
    ensures r == (if error == None then PutStop(sv) else sv) && Stands(m, r.mail)
  {
    error := m.PushStop();
    r := if error == None then PutStop(sv) else sv;
  }

  /** Closing is for good: it throws the mail away, as the scheduler's step does, and from then
      on both kinds of push are refused and leave the mailbox as it is. */
  method CloseStep(m: ServiceMailbox, sv: Service, number: nat)
    returns (r: Service, sent: PushError, stopped: PushError)
    requires Stands(m, sv.mail)
    modifies m
    ensures r == Shut(sv) && Stands(m, r.mail)
    ensures sent == ServiceClosed && stopped == ServiceClosed
  {
    m.Close();
    r := Shut(sv);
    sent := m.PushEnvelope(number);
    stopped := m.PushStop();
  }

  /** Taking the next item is what a batch does at the head of its loop. */
  method PopStep(m: ServiceMailbox, t: Thread, sv: Service, st: State) returns (ok: bool, item: Item)
    requires Stands(m, sv.mail) && t.n < st.maxBatch
    modifies m
    ensures Stands(m, PopDo(t, sv, st).service.mail)
    ensures PopDo(t, sv, st).thread.pc == (if !ok then ClearTail else if item.Stop? then Stopping else Handling)
    ensures ok && item.Envelope? ==> PopDo(t, sv, st).thread.item == item.number
  {
    ok, item := m.Pop();
  }
}
