/**
 * The single-value channel of sender_reciever.h: a mailbox (`holder`) shared
 * by one sender and its current receiver, holding a FIFO queue of values that
 * nobody has awaited yet, one continuation slot, and the flag the receiver
 * clears when it is destroyed.
 *
 * The first half is a value-level specification of the mailbox (the state
 * machine and its properties); the second half is the objects of the source
 * (holder, sender, reciever) as classes whose methods are tied to it.
 */
module Channel {
  import opened Wrappers

  /** The continuation slot `f_` of the holder, with its three meanings made explicit. */
  datatype Slot =
    | Empty       // `f_` is null: a sender is active and nobody waits
    | Waiting     // a receiver installed its deferred completion
    | SenderGone  // the sender's destructor installed a no-op

  /** The holder's state as a value. */
  datatype Mailbox<T> = Mailbox(queue: seq<T>, slot: Slot, receiverAlive: bool)

  /** The state of a freshly made holder. */
  function NewMailbox<T>(): (m: Mailbox<T>)
  {
    Mailbox([], Empty, true)
  }

  /** The mailbox invariant: a receiver waits only while nothing is queued. */
  predicate Inv<T>(m: Mailbox<T>)
  {
    m.slot == Waiting ==> m.queue == []
  }

  /**
   * `has_active_sender`: the slot holds neither a waiting receiver's
   * continuation nor the sender's no-op.
   */
  function HasActiveSender<T>(m: Mailbox<T>): (b: bool)
    ensures b <==> m.slot != Waiting && m.slot != SenderGone
  {
    m.slot == Empty
  }

  /** What `send` did with the value it was given. */
  datatype Delivery<T> =
    | Rejected                // no receiver: nothing changes
    | Enqueued(value: T)      // appended at the back of the queue
    | Handed(value: T)        // passed to the waiting continuation
    | Swallowed(value: T)     // passed to the sender-gone no-op and lost
  {
    /** The boolean `send` returns. */
    predicate Ok()
    {
      !Rejected?
    }

    /** The value this send made available to the receiver, if any. */
    function Accepted(): seq<T>
    {
      if Enqueued? || Handed? then [value] else []
    }

    /** The value this send completed a receiver's wait with, if any. */
    function Completed(): seq<T>
    {
      if Handed? then [value] else []
    }
  }

  datatype SendResult<T> = SendResult(next: Mailbox<T>, delivery: Delivery<T>)

  /** `sender::send`. */
  function SendStep<T>(m: Mailbox<T>, v: T): (r: SendResult<T>)
    ensures r.delivery.Ok() <==> m.receiverAlive
    ensures !m.receiverAlive ==> r.next == m
    ensures m.receiverAlive ==> r.next.slot == Empty && r.next.receiverAlive
    ensures m.receiverAlive && m.slot == Empty ==> r.delivery == Enqueued(v) && r.next.queue == m.queue + [v]
    ensures m.receiverAlive && m.slot == Waiting ==> r.delivery == Handed(v) && r.next.queue == m.queue
    ensures m.receiverAlive && m.slot == SenderGone ==> r.delivery == Swallowed(v) && r.next.queue == m.queue
    ensures Inv(m) ==> Inv(r.next)
    ensures Inv(m) ==> r.delivery.Completed() + r.next.queue == m.queue + r.delivery.Accepted()
  {
    if m.receiverAlive then
      var delivery :=
        if m.slot == Waiting then Handed(v)
        else if m.slot == SenderGone then Swallowed(v)
        else Enqueued(v);
      var queue := if delivery.Enqueued? then m.queue + [v] else m.queue;
      SendResult(Mailbox(queue, Empty, true), delivery)
    else
      SendResult(m, Rejected)
  }

  /** How the receive step `holder::operator()` ended; `Failed` is its `false`. */
  datatype Receipt<T> =
    | Immediate(value: T)  // a queued value completed the wait at once
    | Suspended            // the continuation was installed for the next send
    | Failed               // no active sender and nothing queued
  {
    /** The boolean the receive step returns. */
    predicate Ok()
    {
      !Failed?
    }

    /** The value this receive completed its wait with, if any. */
    function Completed(): seq<T>
    {
      if Immediate? then [value] else []
    }
  }

  datatype ReceiveResult<T> = ReceiveResult(next: Mailbox<T>, receipt: Receipt<T>)

  /** `holder::operator()`, the step a receiver's await runs. */
  function ReceiveStep<T>(m: Mailbox<T>): (r: ReceiveResult<T>)
    ensures r.next.receiverAlive == m.receiverAlive
    ensures m.queue != [] ==> r.receipt == Immediate(m.queue[0]) && r.next == m.(queue := m.queue[1..])
    ensures m.queue == [] ==> (r.receipt.Ok() <==> m.slot == Empty)
    ensures m.queue == [] && m.slot == Empty ==> r.receipt == Suspended && r.next == m.(slot := Waiting)
    ensures !r.receipt.Ok() ==> r.next == m
    ensures Inv(m) ==> Inv(r.next)
    ensures r.receipt.Completed() + r.next.queue == m.queue
  {
    if m.queue != [] then
      ReceiveResult(m.(queue := m.queue[1..]), Immediate(m.queue[0]))
    else if HasActiveSender(m) then
      ReceiveResult(m.(slot := Waiting), Suspended)
    else
      ReceiveResult(m, Failed)
  }

  /** `~sender`: the no-op continuation overwrites whatever the slot held. */
  function SenderGoneStep<T>(m: Mailbox<T>): (next: Mailbox<T>)
  {
    m.(slot := SenderGone)
  }

  /** `~reciever`: the sender can no longer reach a receiver. */
  function ReceiverGoneStep<T>(m: Mailbox<T>): (next: Mailbox<T>)
  {
    m.(receiverAlive := false)
  }

  /** The things that happen to one mailbox over its life. */
  datatype Event<T> =
    | Send(v: T)
    | Receive
    | SenderDestroyed
    | ReceiverDestroyed
    | ReceiverCreated  // a new reciever on the same holder: it touches nothing

  /**
   * The mailbox after some events, with the values the sends made available
   * to the receiver (`accepted`) and the values waits were completed with
   * (`completed`), each in order.
   */
  datatype History<T> = History(final: Mailbox<T>, accepted: seq<T>, completed: seq<T>)

  function Step<T>(m: Mailbox<T>, e: Event<T>): (h: History<T>)
    ensures Inv(m) ==> Inv(h.final)
    ensures Inv(m) ==> h.completed + h.final.queue == m.queue + h.accepted
    ensures e.Send? ==> h.final.receiverAlive == m.receiverAlive
    ensures !m.receiverAlive ==> !h.final.receiverAlive && h.accepted == []
  {
    match e
    case Send(v) =>
      var r := SendStep(m, v);
      History(r.next, r.delivery.Accepted(), r.delivery.Completed())
    case Receive =>
      var r := ReceiveStep(m);
      History(r.next, [], r.receipt.Completed())
    case SenderDestroyed => History(SenderGoneStep(m), [], [])
    case ReceiverDestroyed => History(ReceiverGoneStep(m), [], [])
    case ReceiverCreated => History(m, [], [])
  }

  function Run<T>(m: Mailbox<T>, events: seq<Event<T>>): (h: History<T>)
    decreases |events|
  {
    if events == [] then
      History(m, [], [])
    else
      var first := Step(m, events[0]);
      var rest := Run(first.final, events[1..]);
      History(rest.final, first.accepted + rest.accepted, first.completed + rest.completed)
  }

  /**
   * FIFO: whatever happens, the values that completed waits followed by the
   * values still queued are exactly the values queued before followed by the
   * values accepted since, in order; and the mailbox invariant holds throughout.
   */
  lemma {:induction false} RunKeepsOrder<T>(m: Mailbox<T>, events: seq<Event<T>>)
    requires Inv(m)
    ensures Inv(Run(m, events).final)
    ensures Run(m, events).completed + Run(m, events).final.queue == m.queue + Run(m, events).accepted
    decreases |events|
  {
    if events != [] {
      var first := Step(m, events[0]);
      var rest := Run(first.final, events[1..]);
      RunKeepsOrder(first.final, events[1..]);
      assert Run(m, events) == History(rest.final, first.accepted + rest.accepted, first.completed + rest.completed);
      SplitJoin(first.completed, rest.completed, rest.final.queue, first.final.queue, rest.accepted, m.queue, first.accepted);
    }
  }

  /** Regrouping two order-preserving stretches into one. */
  lemma SplitJoin<T>(c1: seq<T>, c2: seq<T>, q2: seq<T>, q1: seq<T>, a2: seq<T>, q0: seq<T>, a1: seq<T>)
    requires c2 + q2 == q1 + a2
    requires c1 + q1 == q0 + a1
    ensures (c1 + c2) + q2 == q0 + (a1 + a2)
  {
    calc {
      (c1 + c2) + q2;
      c1 + (c2 + q2);
      c1 + (q1 + a2);
      (c1 + q1) + a2;
      (q0 + a1) + a2;
    }
  }

  /** From a new mailbox, waits are completed with the sent values in send order. */
  lemma ReceivedInSendOrder<T>(events: seq<Event<T>>)
    ensures |Run(NewMailbox(), events).completed| <= |Run(NewMailbox(), events).accepted|
    ensures Run(NewMailbox(), events).completed
         == Run(NewMailbox(), events).accepted[..|Run(NewMailbox(), events).completed|]
  {
    var h := Run(NewMailbox<T>(), events);
    RunKeepsOrder(NewMailbox<T>(), events);
    assert h.completed + h.final.queue == h.accepted;
    assert h.accepted[..|h.completed|] == h.completed;
  }

  /**
   * Once the receiver is gone the flag never comes back (a new receiver does
   * not restore it), and no send is accepted any more.
   */
  lemma {:induction false} ReceiverGoneIsPermanent<T>(m: Mailbox<T>, events: seq<Event<T>>)
    requires !m.receiverAlive
    ensures !Run(m, events).final.receiverAlive
    ensures Run(m, events).accepted == []
    decreases |events|
  {
    if events != [] {
      ReceiverGoneIsPermanent(Step(m, events[0]).final, events[1..]);
    }
  }

  /** `n` consecutive receive steps. */
  function Receives<T>(n: nat): (events: seq<Event<T>>)
    ensures |events| == n
  {
    if n == 0 then [] else [Receive] + Receives(n - 1)
  }

  /**
   * After the sender is gone, the values already queued are still delivered,
   * in order, and only then does receiving fail.
   */
  lemma {:induction false} SenderGoneDrainsThenFails<T>(m: Mailbox<T>)
    requires m.slot == SenderGone
    ensures Run(m, Receives(|m.queue|)).completed == m.queue
    ensures Run(m, Receives(|m.queue|)).final == m.(queue := [])
    ensures ReceiveStep(Run(m, Receives(|m.queue|)).final).receipt == Failed
    decreases |m.queue|
  {
    if m.queue != [] {
      var events := Receives<T>(|m.queue|);
      assert events[0] == Receive && events[1..] == Receives(|m.queue| - 1);
      var next := m.(queue := m.queue[1..]);
      assert Step(m, Receive).final == next;
      SenderGoneDrainsThenFails(next);
    }
  }

  /**
   * No lost wake-up: a value sent while a receiver waits, and a value sent
   * just before it waits, both complete that wait, leaving an empty mailbox.
   */
  lemma WaitThenSendDelivers<T>(m: Mailbox<T>, v: T)
    requires m.queue == [] && m.slot == Empty && m.receiverAlive
    ensures Run(m, [Receive, Send(v)]).completed == [v]
    ensures Run(m, [Send(v), Receive]).completed == [v]
    ensures Run(m, [Receive, Send(v)]).final == m
    ensures Run(m, [Send(v), Receive]).final == m
  {
    var waiting := m.(slot := Waiting);
    assert [Receive, Send(v)][1..] == [Send(v)];
    assert Step(m, Receive).final == waiting;
    assert Run(waiting, [Send(v)]).completed == [v];
    assert [Send(v), Receive][1..] == [Receive];
  }

  // ---------------------------------------------------------------------
  // The objects of the source
  // ---------------------------------------------------------------------

  /** The runtime errors the endpoint constructors throw. */
  datatype ChannelError =
    | ReceiverWithoutHolder  // "Cannot create a reciever with no holder"
    | SenderWithoutHolder    // "Cannot create a sender with no holder"

  /**
   * `holder`: the shared mailbox. `sent` and `delivered` are a ghost record
   * of the values made available to the receiver and of the values its waits
   * were completed with (immediately, or through the continuation that the
   * executor then runs).
   */
  class Holder<T> {
    var queue: seq<T>
    var slot: Slot
    var receiverAlive: bool
    ghost var sent: seq<T>
    ghost var delivered: seq<T>

    function State(): (m: Mailbox<T>)
      reads this
    {
      Mailbox(queue, slot, receiverAlive)
    }

    /** Waiting only while empty, and values leave in the order they came. */
    ghost predicate Valid()
      reads this
    {
      Inv(State()) && delivered + queue == sent
    }

    constructor ()
      ensures Valid() && State() == NewMailbox()
      ensures sent == [] && delivered == []
    {
      queue, slot, receiverAlive := [], Empty, true;
      sent, delivered := [], [];
    }

    /** `holder::operator()`: drain the queue first, else wait if the slot is free, else fail. */
    method Receive() returns (r: Receipt<T>)
      requires Valid()
      modifies this
      ensures Valid()
      ensures ReceiveStep(old(State())) == ReceiveResult(State(), r)
      ensures sent == old(sent) && delivered == old(delivered) + r.Completed()
    {
      if queue != [] {
        var front := queue[0];
        queue := queue[1..];
        delivered := delivered + [front];
        r := Immediate(front);
      } else if slot == Empty {
        slot := Waiting;
        r := Suspended;
      } else {
        r := Failed;
      }
    }
  }

  /** `sender`. A moved-from sender has no holder. */
  class Sender<T> {
    var holder: Holder?<T>

    /** `sender()`: a sender on a new holder. */
    constructor ()
      ensures holder != null && fresh(holder)
      ensures holder.Valid() && holder.State() == NewMailbox()
      ensures holder.sent == [] && holder.delivered == []
    {
      holder := new Holder();
    }

    /** `sender(holder)` with a holder that is present. */
    constructor Sharing(h: Holder<T>)
      ensures holder == h
    {
      holder := h;
    }

    /** The move constructor: takes the holder and leaves `other` without one. */
    constructor MoveFrom(other: Sender<T>)
      modifies other
      ensures holder == old(other.holder) && other.holder == null
    {
      holder := other.holder;
      new;
      other.holder := null;
    }

    /**
     * The defaulted move assignment. It does not run the destructor's effect
     * on the holder it overwrites; moving onto itself changes nothing.
     */
    method MoveAssign(other: Sender<T>)
      modifies this, other
      ensures holder == old(other.holder)
      ensures other != this ==> other.holder == null
    {
      if other != this {
        holder, other.holder := other.holder, null;
      }
    }

    /** `~sender`: the no-op continuation tells the receiver the sender is gone. */
    method Destroy()
      requires holder != null ==> holder.Valid()
      modifies holder
      ensures holder != null ==> holder.Valid()
      ensures holder != null ==> holder.State() == SenderGoneStep(old(holder.State()))
      ensures holder != null ==> holder.sent == old(holder.sent) && holder.delivered == old(holder.delivered)
    {
      if holder != null {
        holder.slot := SenderGone;
      }
    }

    /** `has_reciever`: whether no receiver has been destroyed on this holder. */
    function HasReceiver(): (b: bool)
      requires holder != null
      reads this, holder
      ensures b <==> holder.receiverAlive
    {
      holder.receiverAlive
    }

    /** `send`: hand the value to a waiting continuation, or queue it. */
    method Send(v: T) returns (ok: bool)
      requires holder != null && holder.Valid()
      modifies holder
      ensures holder.Valid()
      ensures var r := SendStep(old(holder.State()), v); holder.State() == r.next && ok == r.delivery.Ok()
      ensures var r := SendStep(old(holder.State()), v);
        holder.sent == old(holder.sent) + r.delivery.Accepted()
        && holder.delivered == old(holder.delivered) + r.delivery.Completed()
      ensures ok == old(HasReceiver())
    {
      if HasReceiver() {
        if holder.slot != Empty {
          // calling `f_`: the waiting continuation gets the value, the no-op drops it
          if holder.slot == Waiting {
            holder.sent := holder.sent + [v];
            holder.delivered := holder.delivered + [v];
          }
        } else {
          holder.queue := holder.queue + [v];
          holder.sent := holder.sent + [v];
        }
        holder.slot := Empty;
        ok := true;
      } else {
        ok := false;
      }
    }

    /** `make_reciever`. */
    method MakeReceiver() returns (r: Receiver<T>)
      requires holder != null
      ensures fresh(r) && r.holder == holder
    {
      r := new Receiver(holder);
    }
  }

  /** `reciever`. A moved-from receiver has no holder. */
  class Receiver<T> {
    var holder: Holder?<T>

    /** `reciever(holder)` with a holder that is present. */
    constructor (h: Holder<T>)
      ensures holder == h
    {
      holder := h;
    }

    /** The move constructor. */
    constructor MoveFrom(other: Receiver<T>)
      modifies other
      ensures holder == old(other.holder) && other.holder == null
    {
      holder := other.holder;
      new;
      other.holder := null;
    }

    /**
     * The defaulted move assignment. It does not clear `alive_` on the holder
     * it overwrites; moving onto itself changes nothing.
     */
    method MoveAssign(other: Receiver<T>)
      modifies this, other
      ensures holder == old(other.holder)
      ensures other != this ==> other.holder == null
    {
      if other != this {
        holder, other.holder := other.holder, null;
      }
    }

    /** `~reciever`: the sender learns nobody is listening; a moved-from receiver does nothing. */
    method Destroy()
      requires holder != null ==> holder.Valid()
      modifies holder
      ensures holder != null ==> holder.Valid()
      ensures holder != null ==> holder.State() == ReceiverGoneStep(old(holder.State()))
      ensures holder != null ==> holder.sent == old(holder.sent) && holder.delivered == old(holder.delivered)
    {
      if holder != null {
        holder.receiverAlive := false;
      }
    }

    /**
     * `has_sender`: false once the sender's no-op is in the slot. It is also
     * false while this receiver itself waits, which is why the source only
     * vouches for it between waits.
     */
    function HasSender(): (b: bool)
      requires holder != null
      reads this, holder
      ensures holder.slot == SenderGone ==> !b
      ensures b <==> holder.slot != SenderGone && holder.slot != Waiting
    {
      HasActiveSender(holder.State())
    }

    /** `reciever::operator()`: the receive step on the shared holder. */
    method Await() returns (r: Receipt<T>)
      requires holder != null && holder.Valid()
      modifies holder
      ensures holder.Valid()
      ensures ReceiveStep(old(holder.State())) == ReceiveResult(holder.State(), r)
      ensures holder.sent == old(holder.sent) && holder.delivered == old(holder.delivered) + r.Completed()
    {
      r := holder.Receive();
    }
  }

  /** `reciever(holder)`: throws on a null holder. */
  method NewReceiver<T>(h: Holder?<T>) returns (r: Result<Receiver<T>, ChannelError>)
    ensures h == null <==> r.Failure?
    ensures r.Failure? ==> r.error == ReceiverWithoutHolder
    ensures r.Success? ==> fresh(r.value) && r.value.holder == h
  {
    if h == null {
      r := Failure(ReceiverWithoutHolder);
    } else {
      var receiver := new Receiver(h);
      r := Success(receiver);
    }
  }

  /** `reciever(const sender&)`: throws when the sender was moved from. */
  method ReceiverOf<T>(s: Sender<T>) returns (r: Result<Receiver<T>, ChannelError>)
    ensures s.holder == null <==> r.Failure?
    ensures r.Failure? ==> r.error == ReceiverWithoutHolder
    ensures r.Success? ==> fresh(r.value) && r.value.holder == s.holder
  {
    r := NewReceiver(s.holder);
  }

  /** `sender(holder)`: throws on a null holder. */
  method NewSender<T>(h: Holder?<T>) returns (r: Result<Sender<T>, ChannelError>)
    ensures h == null <==> r.Failure?
    ensures r.Failure? ==> r.error == SenderWithoutHolder
    ensures r.Success? ==> fresh(r.value) && r.value.holder == h
  {
    if h == null {
      r := Failure(SenderWithoutHolder);
    } else {
      var sender := new Sender.Sharing(h);
      r := Success(sender);
    }
  }

  /** `make_sender_reciever_pair`: both endpoints on one new holder. */
  method MakeSenderReceiverPair<T>() returns (s: Sender<T>, r: Receiver<T>)
    ensures fresh(s) && fresh(r) && s.holder != null && fresh(s.holder)
    ensures r.holder == s.holder
    ensures s.holder.Valid() && s.holder.State() == NewMailbox()
    ensures s.holder.sent == [] && s.holder.delivered == []
  {
    var h := new Holder();
    s := new Sender.Sharing(h);
    r := new Receiver(h);
  }

  /**
   * Three values sent before anyone waits are received in send order; once
   * the receiver is gone, sending fails and the value is not queued.
   */
  method SendThreeThenReceive(a: int, b: int, c: int)
  {
    var s, r := MakeSenderReceiverPair<int>();
    var ok := s.Send(a);
    assert ok;
    ok := s.Send(b);
    ok := s.Send(c);
    var x := r.Await();
    assert x == Immediate(a);
    x := r.Await();
    assert x == Immediate(b);
    x := r.Await();
    assert x == Immediate(c);
    r.Destroy();
    ok := s.Send(a);
    assert !ok && s.holder.queue == [];
  }
}
