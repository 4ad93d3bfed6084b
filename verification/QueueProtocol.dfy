/** The queue client under concurrency: the reconnect loop, Close, Notify and any number of
    consumers, interleaved at their lock regions and channel operations, while connections drop. */
module QueueProtocol {
  import opened QueueClient

  datatype LoopPc =
      /** About to read the connection and subscribe to its closure. */
    | Registering
    | Watching(link: nat)
    | BackingOff
      /** A new connection is up; about to take the lock. */
    | Dialed(link: nat)
      /** The new connection is in place; about to notify. */
    | Swapped
      /** Close came first; about to close the new connection. */
    | Discarding(link: nat)
    | Exited

  datatype ClosePc = NotCalled | Marked(link: nat) | Signalled(link: nat) | Finished

  datatype ConsumerPc =
      /** About to read the connection: at the start of a session, or in waitAndRetry. */
    | Reading(retrying: bool)
      /** Has read it; about to test it. */
    | Seen(retrying: bool, link: nat)
      /** Blocked on the notify channel. */
    | Blocked(retrying: bool, link: nat)
      /** In a session: opening a channel, or selecting on deliveries and the notify channel. */
    | Session(link: nat)
    | Idle

  datatype Consumer = Consumer(channel: nat, pc: ConsumerPc)

  datatype State = State(core: Core, loop: LoopPc, closing: ClosePc, consumers: map<nat, Consumer>)

  datatype Action =
    | Drop(link: nat)
    | Register
    | SeeDrop
    | Dial
    | Swap
    | NotifyAll
    | Discard
    | LoopStops
    | Mark
    | Signal
    | ShutDown
      /** Notify called by some other subscriber. */
    | Subscribe
    | NewConsumer(q: nat)
    | Read(q: nat)
    | Test(q: nat)
    | Receive(q: nat)
      /** The session fails: the channel cannot be used or its deliveries end. */
    | SessionFails(q: nat)
      /** The context is cancelled, or a session error is fatal. */
    | Leave(q: nat)
    | RunAgain(q: nat)

  const INITIAL := State(Core(0, false, [], [], false, [Live]), Registering, NotCalled, map[])

  predicate IsDead(c: Core, link: nat) {
    link < |c.links| && !c.links[link].Live?
  }

  function Moved(s: State, q: nat, pc: ConsumerPc): State
    requires q in s.consumers
  {
    s.(consumers := s.consumers[q := s.consumers[q].(pc := pc)])
  }

  /** The select of waitForDrop, or of the wait in redialWithBackoff, ends the loop. */
  predicate LoopMayStop(s: State) {
    match s.loop
    case Registering => IsDead(s.core, s.core.conn)
    case Watching(link) => s.core.done || (link < |s.core.links| && s.core.links[link].Clean?)
    case BackingOff => s.core.done
    case _ => false
  }

  /** Receiving from a notify channel: a buffered token first, then the closure. */
  predicate CanReceive(s: State, q: nat) {
    && q in s.consumers && s.consumers[q].channel < |s.core.channels|
    && (s.consumers[q].pc.Blocked? || s.consumers[q].pc.Session?)
    && (s.core.channels[s.consumers[q].channel].token || s.core.channels[s.consumers[q].channel].closes > 0)
  }

  function Received(s: State, q: nat): State
    requires CanReceive(s, q)
  {
    var ch := s.consumers[q].channel;
    if s.core.channels[ch].token then
      Moved(s.(core := s.core.(channels := s.core.channels[ch := s.core.channels[ch].(token := false)])), q, Reading(false))
    else Moved(s, q, Idle)
  }

  predicate Next(s: State, s': State, a: Action) {
    match a
    case Drop(link) =>
      && link < |s.core.links| && s.core.links[link].Live?
      && s' == s.(core := s.core.(links := s.core.links[link := Dropped]))
    case Register =>
      && s.loop.Registering? && s.core.conn < |s.core.links| && s.core.links[s.core.conn].Live?
      && s' == s.(loop := Watching(s.core.conn))
    case SeeDrop =>
      && s.loop.Watching? && s.loop.link < |s.core.links| && s.core.links[s.loop.link].Dropped?
      && s' == s.(loop := BackingOff)
    case Dial =>
      && s.loop.BackingOff?
      && s' == s.(core := s.core.(links := s.core.links + [Live]), loop := Dialed(|s.core.links|))
    case Swap =>
      && s.loop.Dialed?
      && s' == if s.core.closed then s.(loop := Discarding(s.loop.link))
               else s.(core := s.core.(conn := s.loop.link), loop := Swapped)
    case NotifyAll =>
      && s.loop.Swapped? && WellFormed(s.core)
      && s' == s.(core := Notified(s.core), loop := Registering)
    case Discard =>
      && s.loop.Discarding?
      && s' == s.(core := s.core.(links := Shut(s.core.links, s.loop.link)), loop := Exited)
    case LoopStops =>
      LoopMayStop(s) && s' == s.(loop := Exited)
    case Mark =>
      && s.closing.NotCalled? && WellFormed(s.core)
      && s' == s.(core := MarkedClosed(s.core), closing := Marked(s.core.conn))
    case Signal =>
      && s.closing.Marked?
      && s' == s.(core := s.core.(done := true), closing := Signalled(s.closing.link))
    case ShutDown =>
      && s.closing.Signalled?
      && s' == s.(core := s.core.(links := Shut(s.core.links, s.closing.link)), closing := Finished)
    case Subscribe =>
      s' == s.(core := Subscribed(s.core))
    case NewConsumer(q) =>
      && q !in s.consumers
      && s' == s.(core := Subscribed(s.core), consumers := s.consumers[q := Consumer(|s.core.channels|, Idle)])
    case Read(q) =>
      && q in s.consumers && s.consumers[q].pc.Reading?
      && s' == Moved(s, q, Seen(s.consumers[q].pc.retrying, s.core.conn))
    case Test(q) =>
      && q in s.consumers && s.consumers[q].pc.Seen?
      && var Seen(retrying, link) := s.consumers[q].pc;
      s' == Moved(s, q,
                  if IsDead(s.core, link) then Blocked(retrying, link)
                  else if retrying then Reading(false) else Session(link))
    case Receive(q) =>
      CanReceive(s, q) && s' == Received(s, q)
    case SessionFails(q) =>
      q in s.consumers && s.consumers[q].pc.Session? && s' == Moved(s, q, Reading(true))
    case Leave(q) =>
      q in s.consumers && s' == Moved(s, q, Idle)
    case RunAgain(q) =>
      q in s.consumers && s.consumers[q].pc.Idle? && s' == Moved(s, q, Reading(false))
  }

  predicate IsRun(run: seq<State>, actions: seq<Action>) {
    && |run| == |actions| + 1
    && run[0] == INITIAL
    && forall i :: 0 <= i < |actions| ==> Next(run[i], run[i + 1], actions[i])
  }

  // ---- The invariant ----

  /** Every channel is subscribed and open until Close, closed once by then, and never sent to after. */
  predicate ChannelsInv(c: Core) {
    && WellFormed(c) && Distinct(c.subs)
    && (c.closed ==> c.subs == [])
    && forall k :: 0 <= k < |c.channels| ==>
         && c.channels[k].closes == (if c.closed then 1 else 0) && c.channels[k].lateSends == 0
         && (!c.closed ==> k in c.subs)
  }

  /** The connection the loop has dialed but not handed over. */
  predicate HeldByLoop(loop: LoopPc, link: nat) {
    (loop.Dialed? || loop.Discarding?) && loop.link == link
  }

  /** Only the current connection and the one the loop holds can be live. */
  predicate LinksInv(s: State) {
    && s.core.conn < |s.core.links|
    && (forall k :: 0 <= k < |s.core.links| && s.core.links[k].Live? ==> k == s.core.conn || HeldByLoop(s.loop, k))
    && (s.loop.Watching? ==> s.loop.link == s.core.conn)
    && (s.loop.BackingOff? || s.loop.Dialed? || s.loop.Discarding? ==> IsDead(s.core, s.core.conn))
    && (s.loop.Dialed? || s.loop.Discarding? ==> s.loop.link != s.core.conn && s.loop.link < |s.core.links|)
  }

  predicate CloseInv(s: State) {
    && (s.core.closed <==> !s.closing.NotCalled?)
    && (s.loop.Discarding? ==> s.core.closed)
    && (s.closing.Marked? || s.closing.Signalled? ==> s.closing.link == s.core.conn)
    && (s.core.done <==> s.closing.Signalled? || s.closing.Finished?)
    && (s.closing.Finished? ==> IsDead(s.core, s.core.conn))
    && (s.loop.Exited? && s.closing.NotCalled? ==> IsDead(s.core, s.core.conn))
    && (s.closing.NotCalled? ==> forall k :: 0 <= k < |s.core.links| ==> !s.core.links[k].Clean?)
  }

  /** The notify channel holds a token, is closed, or the loop is about to put a token there. */
  predicate WakeupDue(s: State, channel: nat) {
    || s.loop.Swapped?
    || (channel < |s.core.channels| && (s.core.channels[channel].token || s.core.channels[channel].closes > 0))
  }

  predicate ConsumerInv(s: State, c: Consumer) {
    && c.channel < |s.core.channels|
    && (c.pc.Seen? || c.pc.Blocked? || c.pc.Session? ==>
          c.pc.link < |s.core.links| && (c.pc.link != s.core.conn ==> WakeupDue(s, c.channel)))
    && (c.pc.Blocked? ==> IsDead(s.core, c.pc.link))
  }

  predicate ConsumersInv(s: State) {
    && (forall q :: q in s.consumers ==> ConsumerInv(s, s.consumers[q]))
    && (forall p, q :: p in s.consumers && q in s.consumers && p != q ==> s.consumers[p].channel != s.consumers[q].channel)
  }

  predicate Inv(s: State) {
    ChannelsInv(s.core) && LinksInv(s) && CloseInv(s) && ConsumersInv(s)
  }

  // ---- Channels ----

  lemma MarkKeepsChannels(c: Core)
    requires ChannelsInv(c)
    ensures ChannelsInv(MarkedClosed(c))
    ensures forall k :: 0 <= k < |c.channels| ==>
              MarkedClosed(c).channels[k].closes == 1 && MarkedClosed(c).channels[k].token == c.channels[k].token
  {
    hide ClosedAll;
    forall k | 0 <= k < |c.channels|
      ensures ClosedAll(c.channels, c.subs)[k] == if k in c.subs then CloseOne(c.channels[k]) else c.channels[k]
    {
      ClosedAllOnce(c.channels, c.subs, k);
    }
  }

  lemma NotifyKeepsChannels(c: Core)
    requires ChannelsInv(c)
    ensures ChannelsInv(Notified(c)) && |Notified(c).channels| == |c.channels|
    ensures forall k :: 0 <= k < |c.channels| ==>
              && Notified(c).channels[k].closes == c.channels[k].closes
              && (Notified(c).channels[k].token || Notified(c).channels[k].closes > 0)
  {
    hide OfferedAll;
    forall k | 0 <= k < |c.channels|
      ensures OfferedAll(c.channels, c.subs)[k] == if k in c.subs then OfferOne(c.channels[k]) else c.channels[k]
    {
      OfferedAllOnce(c.channels, c.subs, k);
    }
  }

  lemma SubscribeKeepsChannels(c: Core)
    requires ChannelsInv(c)
    ensures ChannelsInv(Subscribed(c))
  {
    var c' := Subscribed(c);
    forall k | 0 <= k < |c'.channels|
      ensures && c'.channels[k].closes == (if c'.closed then 1 else 0) && c'.channels[k].lateSends == 0
              && (!c'.closed ==> k in c'.subs)
    {
      assert k < |c.channels| ==> c'.channels[k] == c.channels[k];
      assert !c.closed ==> c'.subs[|c.subs|] == |c.channels|;
    }
  }

  // ---- Steps ----

  lemma DropKeeps(s: State, s': State, link: nat)
    requires Inv(s) && Next(s, s', Drop(link))
    ensures Inv(s')
  {
    hide ChannelsInv, ClosedAll, OfferedAll;
    SameChannels(s.core, s'.core);
  }

  lemma DialKeeps(s: State, s': State)
    requires Inv(s) && Next(s, s', Dial)
    ensures Inv(s')
  {
    hide ChannelsInv, ClosedAll, OfferedAll;
    SameChannels(s.core, s'.core);
  }

  lemma SwapKeeps(s: State, s': State, a: Action)
    requires Inv(s) && Next(s, s', a) && (a.Swap? || a.Discard?)
    ensures Inv(s')
  {
    hide ChannelsInv, ClosedAll, OfferedAll;
    SameChannels(s.core, s'.core);
  }

  lemma LoopKeeps(s: State, s': State, a: Action)
    requires Inv(s) && Next(s, s', a) && (a.Register? || a.SeeDrop? || a.LoopStops?)
    ensures Inv(s')
  {
    hide ChannelsInv, ClosedAll, OfferedAll;
    SameChannels(s.core, s'.core);
  }

  lemma SameChannels(c: Core, c': Core)
    requires ChannelsInv(c)
    requires c'.channels == c.channels && c'.subs == c.subs && c'.closed == c.closed
    requires (c'.conn == c.conn && |c.links| <= |c'.links|) || c'.conn < |c'.links|
    ensures ChannelsInv(c')
  {
  }

  lemma NotifyKeeps(s: State, s': State)
    requires Inv(s) && Next(s, s', NotifyAll)
    ensures Inv(s')
  {
    hide ChannelsInv, OfferedAll, ClosedAll;
    NotifyKeepsChannels(s.core);
  }

  lemma CloseKeeps(s: State, s': State, a: Action)
    requires Inv(s) && Next(s, s', a) && (a.Mark? || a.Signal? || a.ShutDown?)
    ensures Inv(s')
  {
    hide ChannelsInv, OfferedAll, ClosedAll;
    if a.Mark? {
      MarkKeepsChannels(s.core);
    } else {
      SameChannels(s.core, s'.core);
    }
  }

  lemma SubscribeKeeps(s: State, s': State, a: Action)
    requires Inv(s) && Next(s, s', a) && (a.Subscribe? || a.NewConsumer?)
    ensures Inv(s')
  {
    hide ChannelsInv, OfferedAll, ClosedAll;
    SubscribeKeepsChannels(s.core);
    forall k | 0 <= k < |s.core.channels|
      ensures s'.core.channels[k] == s.core.channels[k]
    {
    }
  }

  lemma ConsumerKeeps(s: State, s': State, a: Action)
    requires Inv(s) && Next(s, s', a)
    requires a.Read? || a.Test? || a.SessionFails? || a.Leave? || a.RunAgain?
    ensures Inv(s')
  {
    hide ChannelsInv, CloseInv;
    SameRest(s, s');
  }

  lemma SameRest(s: State, s': State)
    requires s'.core == s.core && s'.loop == s.loop && s'.closing == s.closing
    ensures ChannelsInv(s.core) && LinksInv(s) && CloseInv(s) ==> ChannelsInv(s'.core) && LinksInv(s') && CloseInv(s')
  {
  }

  lemma ReceiveKeeps(s: State, s': State, q: nat)
    requires Inv(s) && Next(s, s', Receive(q))
    ensures Inv(s')
  {
    hide OfferedAll, ClosedAll;
  }

  lemma StepKeeps(s: State, s': State, a: Action)
    requires Inv(s) && Next(s, s', a)
    ensures Inv(s')
  {
    hide Inv, Next;
    match a
    case Drop(link) => DropKeeps(s, s', link);
    case Register => LoopKeeps(s, s', a);
    case SeeDrop => LoopKeeps(s, s', a);
    case Dial => DialKeeps(s, s');
    case Swap => SwapKeeps(s, s', a);
    case Discard => SwapKeeps(s, s', a);
    case LoopStops => LoopKeeps(s, s', a);
    case NotifyAll => NotifyKeeps(s, s');
    case Mark => CloseKeeps(s, s', a);
    case Signal => CloseKeeps(s, s', a);
    case ShutDown => CloseKeeps(s, s', a);
    case Subscribe => SubscribeKeeps(s, s', a);
    case NewConsumer(_) => SubscribeKeeps(s, s', a);
    case Receive(q) => ReceiveKeeps(s, s', q);
    case _ => ConsumerKeeps(s, s', a);
  }

  lemma {:induction false} InvOverRun(run: seq<State>, actions: seq<Action>, i: nat)
    requires IsRun(run, actions) && i < |run|
    ensures Inv(run[i])
  {
    hide Next;
    if i > 0 {
      InvOverRun(run, actions, i - 1);
      StepKeeps(run[i - 1], run[i], actions[i - 1]);
    }
  }

  // ---- What holds at every point of every run ----

  /** A consumer blocked on its notify channel with an older connection in hand than the current one
      has a token waiting, or finds the channel closed, or the loop is between swap and notify. */
  lemma NoLostWakeup(run: seq<State>, actions: seq<Action>, i: nat, q: nat)
    requires IsRun(run, actions) && i < |run|
    requires q in run[i].consumers && run[i].consumers[q].pc.Blocked?
    requires run[i].consumers[q].pc.link != run[i].core.conn
    ensures WakeupDue(run[i], run[i].consumers[q].channel)
  {
    hide IsRun, WakeupDue;
    InvOverRun(run, actions, i);
    assert ConsumerInv(run[i], run[i].consumers[q]);
  }

  /** So a consumer never sleeps through a usable connection. */
  lemma NeverSleepsOnLive(run: seq<State>, actions: seq<Action>, i: nat, q: nat)
    requires IsRun(run, actions) && i < |run|
    requires q in run[i].consumers && run[i].consumers[q].pc.Blocked?
    requires run[i].core.conn < |run[i].core.links| && run[i].core.links[run[i].core.conn].Live?
    ensures WakeupDue(run[i], run[i].consumers[q].channel)
  {
    hide IsRun, WakeupDue;
    InvOverRun(run, actions, i);
    assert ConsumerInv(run[i], run[i].consumers[q]);
  }

  /** No channel is closed twice or sent to after its close; while the client is open none is
      closed, and once Close has taken the lock every channel handed out has been closed. */
  lemma ChannelsClosedOnce(run: seq<State>, actions: seq<Action>, i: nat, channel: nat)
    requires IsRun(run, actions) && i < |run| && channel < |run[i].core.channels|
    ensures run[i].core.channels[channel].lateSends == 0
    ensures run[i].core.channels[channel].closes == if run[i].closing.NotCalled? then 0 else 1
  {
    hide IsRun;
    InvOverRun(run, actions, i);
  }

  /** Once Close has finished and the loop has exited, no connection ever dialed is still live. */
  lemma NoConnectionLeaks(run: seq<State>, actions: seq<Action>, i: nat, link: nat)
    requires IsRun(run, actions) && i < |run|
    requires run[i].closing.Finished? && run[i].loop.Exited?
    requires link < |run[i].core.links|
    ensures !run[i].core.links[link].Live?
  {
    hide IsRun;
    InvOverRun(run, actions, i);
  }

  /** The steps of the reconnect loop. */
  predicate LoopAction(a: Action) {
    a.Register? || a.SeeDrop? || a.Dial? || a.Swap? || a.NotifyAll? || a.Discard? || a.LoopStops?
  }

  /** Before Close, the loop may stop exactly when the current connection has died before the loop
      has subscribed to its closure, and then it can do nothing else. */
  lemma EarlyExitExactly(run: seq<State>, actions: seq<Action>, i: nat)
    requires IsRun(run, actions) && i < |run| && run[i].closing.NotCalled?
    ensures LoopMayStop(run[i]) <==> run[i].loop.Registering? && IsDead(run[i].core, run[i].core.conn)
    ensures LoopMayStop(run[i]) ==>
              forall s', a :: LoopAction(a) && Next(run[i], s', a) ==> a.LoopStops? && s' == run[i].(loop := Exited)
  {
    hide IsRun;
    InvOverRun(run, actions, i);
  }

  /** An exited loop before Close means that nobody will replace the dead connection. */
  lemma EarlyExitMeansDead(run: seq<State>, actions: seq<Action>, i: nat)
    requires IsRun(run, actions) && i < |run|
    requires run[i].loop.Exited? && run[i].closing.NotCalled?
    ensures IsDead(run[i].core, run[i].core.conn)
    ensures forall s', a :: Next(run[i], s', a) ==> !LoopAction(a)
  {
    hide IsRun;
    InvOverRun(run, actions, i);
  }

  /** It can: a drop before the loop subscribes to the closure of the connection ends the loop, and
      nobody will reconnect. */
  lemma LoopCanExitEarly() returns (run: seq<State>, actions: seq<Action>)
    ensures IsRun(run, actions)
    ensures run[|run| - 1].loop.Exited? && run[|run| - 1].closing.NotCalled?
  {
    var dropped := INITIAL.(core := INITIAL.core.(links := [Dropped]));
    run, actions := [INITIAL, dropped, dropped.(loop := Exited)], [Drop(0), LoopStops];
    assert Next(run[0], run[1], actions[0]);
    assert Next(run[1], run[2], actions[1]);
  }

  // ---- What a consumer sees ----

  /** A token waits until the consumer that owns its channel takes it; no other step removes it. */
  lemma TokenWaits(run: seq<State>, actions: seq<Action>, i: nat, k: nat)
    requires IsRun(run, actions) && i < |actions| && k < |run[i].core.channels| && run[i].core.channels[k].token
    ensures k < |run[i + 1].core.channels|
    ensures run[i + 1].core.channels[k].token
            || (actions[i].Receive? && actions[i].q in run[i].consumers && run[i].consumers[actions[i].q].channel == k)
  {
    hide ClosedAll, OfferedAll, IsRun, WakeupDue, IsDead;
    StepOf(run, actions, i);
    InvOverRun(run, actions, i);
    if actions[i].Mark? {
      MarkKeepsChannels(run[i].core);
    } else if actions[i].NotifyAll? {
      NotifiedKeepsToken(run[i].core, k);
    }
  }

  lemma NotifiedKeepsToken(c: Core, k: nat)
    requires ChannelsInv(c) && k < |c.channels| && c.channels[k].token
    ensures |Notified(c).channels| == |c.channels| && Notified(c).channels[k].token
  {
    hide OfferedAll;
    if !c.closed {
      OfferedAllOnce(c.channels, c.subs, k);
    }
  }

  lemma StepOf(run: seq<State>, actions: seq<Action>, i: nat)
    requires IsRun(run, actions) && i < |actions|
    ensures |run| == |actions| + 1 && Next(run[i], run[i + 1], actions[i])
  {
    hide Next;
  }

  /** A receive takes the token and sends the consumer back to read the connection; on a closed channel
      without one it stops the consumer. Nothing else changes. */
  lemma ReceiveDecides(s: State, s': State, q: nat)
    requires Next(s, s', Receive(q))
    ensures s'.loop == s.loop && s'.closing == s.closing && s'.consumers.Keys == s.consumers.Keys
    ensures forall p :: p in s.consumers && p != q ==> s'.consumers[p] == s.consumers[p]
    ensures s'.consumers[q].channel == s.consumers[q].channel
    ensures
      var k := s.consumers[q].channel;
      if s.core.channels[k].token then
        && s'.consumers[q].pc == Reading(false)
        && |s'.core.channels| == |s.core.channels| && !s'.core.channels[k].token
        && (forall j :: 0 <= j < |s.core.channels| && j != k ==> s'.core.channels[j] == s.core.channels[j])
      else
        s.core.channels[k].closes > 0 && s'.core == s.core && s'.consumers[q].pc == Idle
  {
  }

  /** A consumer blocks only over a dead connection, and starts a session only over a live one. */
  lemma TestDecides(s: State, s': State, q: nat)
    requires Inv(s) && Next(s, s', Test(q))
    ensures
      var Seen(retrying, link) := s.consumers[q].pc;
      && link < |s.core.links|
      && s'.core == s.core
      && (s'.consumers[q].pc.Blocked? <==> !s.core.links[link].Live?)
      && (s'.consumers[q].pc == Session(link) <==> s.core.links[link].Live? && !retrying)
      && (s'.consumers[q].pc == Reading(false) <==> s.core.links[link].Live? && retrying)
  {
    assert ConsumerInv(s, s.consumers[q]);
  }
}
