/** The shared memory of the queue client and the operations that touch it: what each lock region
    reads and writes, and the client object built from them. */
module QueueClient {
  /** An AMQP connection: usable, dropped with an error, or closed without one. */
  datatype Link = Live | Dropped | Clean

  /** A subscriber channel with room for one token. Go panics on a second close and on a send after
      a close; both are counted. */
  datatype Mailbox = Mailbox(token: bool, closes: nat, lateSends: nat)

  const EMPTY_MAILBOX := Mailbox(false, 0, 0)

  /** conn and subs name entries of links and channels. */
  datatype Core = Core(
    conn: nat,
    closed: bool,
    subs: seq<nat>,
    channels: seq<Mailbox>,
    done: bool,
    links: seq<Link>)

  function CloseOne(m: Mailbox): Mailbox {
    m.(closes := m.closes + 1)
  }

  /** A send that does not block: dropped when the buffer is full. */
  function OfferOne(m: Mailbox): Mailbox {
    if m.closes > 0 then m.(lateSends := m.lateSends + 1) else m.(token := true)
  }

  predicate InRange(channels: seq<Mailbox>, subs: seq<nat>) {
    forall i :: 0 <= i < |subs| ==> subs[i] < |channels|
  }

  predicate WellFormed(c: Core) {
    c.conn < |c.links| && InRange(c.channels, c.subs)
  }

  /** The loop of Close over the first subscribers. */
  function ClosedAll(channels: seq<Mailbox>, subs: seq<nat>): (r: seq<Mailbox>)
    requires InRange(channels, subs)
    ensures |r| == |channels|
  {
    if subs == [] then channels
    else
      var last := |subs| - 1;
      assert InRange(channels, subs[..last]);
      var before := ClosedAll(channels, subs[..last]);
      before[subs[last] := CloseOne(before[subs[last]])]
  }

  /** The loop of notifyReconnect over the first subscribers. */
  function OfferedAll(channels: seq<Mailbox>, subs: seq<nat>): (r: seq<Mailbox>)
    requires InRange(channels, subs)
    ensures |r| == |channels|
  {
    if subs == [] then channels
    else
      var last := |subs| - 1;
      assert InRange(channels, subs[..last]);
      var before := OfferedAll(channels, subs[..last]);
      before[subs[last] := OfferOne(before[subs[last]])]
  }

  // ---- Lock regions ----

  /** Notify: the new channel is the last one. */
  function Subscribed(c: Core): Core {
    if c.closed then c.(channels := c.channels + [CloseOne(EMPTY_MAILBOX)])
    else c.(subs := c.subs + [|c.channels|], channels := c.channels + [EMPTY_MAILBOX])
  }

  /** The locked part of Close. */
  function MarkedClosed(c: Core): Core
    requires WellFormed(c)
  {
    c.(closed := true, channels := ClosedAll(c.channels, c.subs), subs := [])
  }

  /** Closing a connection that is not closed yet. */
  function Shut(links: seq<Link>, k: nat): seq<Link> {
    if k < |links| && links[k].Live? then links[k := Clean] else links
  }

  /** notifyReconnect. */
  function Notified(c: Core): Core
    requires WellFormed(c)
  {
    if c.closed then c else c.(channels := OfferedAll(c.channels, c.subs))
  }

  // ---- What a duplicate-free list of open subscribers gets ----

  predicate Distinct(subs: seq<nat>) {
    forall i, j :: 0 <= i < j < |subs| ==> subs[i] != subs[j]
  }

  lemma {:induction false} ClosedAllOnce(channels: seq<Mailbox>, subs: seq<nat>, k: nat)
    requires InRange(channels, subs) && Distinct(subs) && k < |channels|
    ensures ClosedAll(channels, subs)[k] == if k in subs then CloseOne(channels[k]) else channels[k]
  {
    if subs != [] {
      var last := |subs| - 1;
      assert InRange(channels, subs[..last]) && Distinct(subs[..last]);
      ClosedAllOnce(channels, subs[..last], k);
      assert subs == subs[..last] + [subs[last]];
    }
  }

  lemma {:induction false} OfferedAllOnce(channels: seq<Mailbox>, subs: seq<nat>, k: nat)
    requires InRange(channels, subs) && Distinct(subs) && k < |channels|
    ensures OfferedAll(channels, subs)[k] == if k in subs then OfferOne(channels[k]) else channels[k]
  {
    if subs != [] {
      var last := |subs| - 1;
      assert InRange(channels, subs[..last]) && Distinct(subs[..last]);
      OfferedAllOnce(channels, subs[..last], k);
      assert subs == subs[..last] + [subs[last]];
    }
  }

  // ---- The client ----

  /** How one round of redialWithBackoff goes: Close during the wait, a dial that succeeds, or one
      that fails, possibly because of Close. */
  datatype Attempt = StoppedWaiting | DialSucceeds | DialFails(stopped: bool)

  const INITIAL_DELAY := 1
  const MAX_DELAY := 30
  const FACTOR := 2

  function Doubled(k: nat): (r: nat)
    ensures r >= 1
  {
    if k == 0 then 1 else 2 * Doubled(k - 1)
  }

  /** The round is followed by another one. */
  predicate GoesOn(a: Attempt) {
    a == DialFails(false)
  }

  class Client {
    var conn: nat
    var closed: bool
    var notifySubs: seq<nat>
    var channels: seq<Mailbox>
    var done: bool
    var links: seq<Link>
    var closeCalled: bool

    ghost function Contents(): Core
      reads this
    {
      Core(conn, closed, notifySubs, channels, done, links)
    }

    /** Open, after a successful dial. */
    constructor ()
      ensures Contents() == Core(0, false, [], [], false, [Live]) && !closeCalled
    {
      conn, closed, notifySubs, channels, done := 0, false, [], [], false;
      links, closeCalled := [Live], false;
    }

    method Notify() returns (channel: nat)
      modifies this
      ensures Contents() == Subscribed(old(Contents())) && channel == |old(channels)| && channel < |channels|
      ensures closeCalled == old(closeCalled)
    {
      channel := |channels|;
      channels := channels + [EMPTY_MAILBOX];
      if closed {
        channels := channels[channel := CloseOne(channels[channel])];
        assert channels == old(channels) + [CloseOne(EMPTY_MAILBOX)];
        return;
      }
      notifySubs := notifySubs + [channel];
    }

    /** Only the first call works. */
    method Close()
      requires WellFormed(Contents())
      modifies this
      ensures closeCalled
      ensures old(closeCalled) ==> Contents() == old(Contents())
      ensures !old(closeCalled) ==>
                Contents() == MarkedClosed(old(Contents())).(done := true, links := Shut(old(links), old(conn)))
    {
      if closeCalled {
        return;
      }
      closeCalled := true;
      closed := true;
      var current := conn;
      var i := 0;
      while i < |notifySubs|
        invariant 0 <= i <= |notifySubs|
        invariant InRange(old(channels), notifySubs[..i])
        invariant channels == ClosedAll(old(channels), notifySubs[..i])
        invariant notifySubs == old(notifySubs) && conn == old(conn) && links == old(links) && closed && closeCalled
        invariant done == old(done)
      {
        assert notifySubs[..i + 1][..i] == notifySubs[..i];
        channels := channels[notifySubs[i] := CloseOne(channels[notifySubs[i]])];
        i := i + 1;
      }
      assert notifySubs[..i] == old(notifySubs);
      notifySubs := [];
      done := true;
      if links[current].Live? {
        links := links[current := Clean];
      }
    }

    /** The locked swap of reconnectLoop; false tells the loop to close the new connection and stop. */
    method Swap(newConn: nat) returns (swapped: bool)
      modifies this
      ensures swapped == !old(closed)
      ensures Contents() == if swapped then old(Contents()).(conn := newConn) else old(Contents())
      ensures closeCalled == old(closeCalled)
    {
      if closed {
        return false;
      }
      conn := newConn;
      return true;
    }

    method NotifyReconnect()
      requires WellFormed(Contents())
      modifies this
      ensures Contents() == Notified(old(Contents())) && closeCalled == old(closeCalled)
    {
      if closed {
        return;
      }
      var i := 0;
      while i < |notifySubs|
        invariant 0 <= i <= |notifySubs|
        invariant InRange(old(channels), notifySubs[..i])
        invariant channels == OfferedAll(old(channels), notifySubs[..i])
        invariant Contents() == old(Contents()).(channels := channels) && closeCalled == old(closeCalled)
      {
        assert notifySubs[..i + 1][..i] == notifySubs[..i];
        channels := channels[notifySubs[i] := OfferOne(channels[notifySubs[i]])];
        i := i + 1;
      }
      assert notifySubs[..i] == notifySubs;
    }
  }

  datatype Redial = Connected | Stopped | StillTrying

  /** redialWithBackoff over the rounds so far: the pauses double from one second up to thirty, and
      the first round that does not go on decides. */
  method RedialWithBackoff(attempts: seq<Attempt>) returns (outcome: Redial, delays: seq<nat>)
    ensures |delays| <= |attempts|
    ensures forall k :: 0 <= k < |delays| ==> delays[k] == if k < 5 then Doubled(k) else MAX_DELAY
    ensures forall i :: 0 <= i < |delays| - 1 ==> GoesOn(attempts[i])
    ensures outcome == StillTrying <==> forall i :: 0 <= i < |attempts| ==> GoesOn(attempts[i])
    ensures outcome == StillTrying ==> |delays| == |attempts|
    ensures outcome != StillTrying ==>
              && |delays| > 0 && !GoesOn(attempts[|delays| - 1])
              && (outcome == Connected <==> attempts[|delays| - 1] == DialSucceeds)
  {
    var delay := INITIAL_DELAY;
    delays := [];
    for i := 0 to |attempts|
      invariant |delays| == i
      invariant forall k :: 0 <= k < i ==> GoesOn(attempts[k])
      invariant delay == if i < 5 then Doubled(i) else MAX_DELAY
      invariant forall k :: 0 <= k < i ==> delays[k] == if k < 5 then Doubled(k) else MAX_DELAY
    {
      delays := delays + [delay];
      match attempts[i]
      case StoppedWaiting =>
        outcome := Stopped;
        return;
      case DialSucceeds =>
        outcome := Connected;
        return;
      case DialFails(stopped) =>
        if stopped {
          outcome := Stopped;
          return;
        }
        FirstPowers(i);
        delay := if delay * FACTOR < MAX_DELAY then delay * FACTOR else MAX_DELAY;
    }
    outcome := StillTrying;
  }

  lemma FirstPowers(i: nat)
    ensures i < 4 ==> Doubled(i + 1) <= 16
    ensures i == 4 ==> Doubled(i) == 16
  {
    assert Doubled(0) == 1 && Doubled(1) == 2 && Doubled(2) == 4 && Doubled(3) == 8 && Doubled(4) == 16;
  }
}
