/** The agent's connection loop: reconnecting with backoff, and forwarding its channel over each connection. */
module WsClient {
  import opened Wire

  const SUSTAINED: nat := 30

  const MAX_BACKOFF: nat := 60

  /** What happens around one connection, in order: a message is put on the agent's channel, the writer takes
      the next one and sends it with or without success, or the reader task ends. */
  datatype Event = Arrive(msg: AgentMessage) | Send(delivered: bool) | ReaderEnds

  /** One turn of the loop. `greeted` bootstrap frames get through; messages keep arriving either way. */
  datatype Attempt =
    | Refused(arrivals: seq<Event>)
    | Connected(seconds: nat, greeted: nat, events: seq<Event>)
  {
    predicate Sustained() {
      Connected? && seconds >= SUSTAINED
    }

    function Events(): seq<Event> {
      if Refused? then arrivals else events
    }
  }

  function Arrivals(events: seq<Event>): seq<AgentMessage> {
    if events == [] then []
    else
      var e := events[|events| - 1];
      Arrivals(events[..|events| - 1]) + (if e.Arrive? then [e.msg] else [])
  }

  function Flatten(parts: seq<seq<AgentMessage>>): seq<AgentMessage> {
    if parts == [] then [] else Flatten(parts[..|parts| - 1]) + parts[|parts| - 1]
  }

  function AllArrivals(attempts: seq<Attempt>): seq<AgentMessage> {
    if attempts == [] then []
    else AllArrivals(attempts[..|attempts| - 1]) + Arrivals(attempts[|attempts| - 1].Events())
  }

  function Pow2(k: nat): nat {
    if k == 0 then 1 else 2 * Pow2(k - 1)
  }

  /** Attempts made since the last sustained connection among the first `i + 1`. */
  function Since(attempts: seq<Attempt>, i: nat): nat
    requires i < |attempts|
  {
    if attempts[i].Sustained() || i == 0 then 0 else Since(attempts, i - 1) + 1
  }

  function Min(a: nat, b: nat): nat {
    if a <= b then a else b
  }

  lemma {:induction false} Pow2Grows(k: nat)
    ensures Pow2(k) >= k + 1
  {
    if k > 0 { Pow2Grows(k - 1); }
  }

  lemma {:induction false} Pow2AtLeast64(k: nat)
    requires k >= 6
    ensures Pow2(k) >= 64
  {
    if k == 6 {
      assert Pow2(6) == 2 * Pow2(5) == 4 * Pow2(4) == 8 * Pow2(3) == 16 * Pow2(2) == 32 * Pow2(1);
    } else {
      Pow2AtLeast64(k - 1);
    }
  }

  /** Six failures in a row reach the longest delay, and nothing exceeds it. */
  lemma DelayBounds(attempts: seq<Attempt>, i: nat)
    requires i < |attempts|
    ensures 1 <= Min(MAX_BACKOFF, Pow2(Since(attempts, i))) <= 60
    ensures Since(attempts, i) >= 6 ==> Min(MAX_BACKOFF, Pow2(Since(attempts, i))) == 60
  {
    Pow2Grows(Since(attempts, i));
    if Since(attempts, i) >= 6 { Pow2AtLeast64(Since(attempts, i)); }
  }

  // ---------------------------------------------------------------- how many messages a connection takes

  /** Sends among the events from `i` and before `j`. */
  function Sends(events: seq<Event>, i: nat, j: nat): nat
    requires j <= |events|
  {
    if j <= i then 0 else Sends(events, i, j - 1) + (if events[j - 1].Send? then 1 else 0)
  }

  /** All there has been on the channel when `i` events have happened. */
  function Offered(waiting: nat, events: seq<Event>, i: nat): nat
    requires i <= |events|
  {
    waiting + |Arrivals(events[..i])|
  }

  /** `n` is the least of all sends so far and, for each moment so far, all that was offered by then and the sends since:
      what a queue can have given to that many attempts to take from it. */
  ghost predicate Keeps(n: nat, waiting: nat, events: seq<Event>, i: nat)
    requires i <= |events|
  {
    && n <= Sends(events, 0, i)
    && (forall j {:trigger Offered(waiting, events, j)} :: 0 <= j <= i ==> n <= Offered(waiting, events, j) + Sends(events, j, i))
    && (n == Sends(events, 0, i)
        || exists j {:trigger Offered(waiting, events, j)} :: 0 <= j <= i && n == Offered(waiting, events, j) + Sends(events, j, i))
  }

  /** Among the first `i` events the reader does not end, and no send fails that finds something waiting. */
  ghost predicate Steady(waiting: nat, events: seq<Event>, i: nat)
    requires i <= |events|
  {
    forall j {:trigger events[j]} :: 0 <= j < i ==>
      !events[j].ReaderEnds? && (events[j] == Send(false) ==> Keeps(Offered(waiting, events, j), waiting, events, j))
  }

  /** The writer of a connection goes on up to event `i`, where the reader ends or a send fails or nothing is left. */
  ghost predicate StopsAt(waiting: nat, events: seq<Event>, sent: nat, failed: nat, i: nat)
    requires i <= |events|
  {
    && Steady(waiting, events, i) && Keeps(sent, waiting, events, i)
    && if i == |events| || events[i].ReaderEnds? then failed == 0
       else failed == 1 && events[i] == Send(false) && sent < Offered(waiting, events, i)
  }

  /** It takes a message at every send that finds one, until the reader ends or such a send fails. */
  ghost predicate Paced(waiting: nat, events: seq<Event>, sent: nat, failed: nat) {
    exists i :: 0 <= i <= |events| && StopsAt(waiting, events, sent, failed, i)
  }

  lemma OfferedNext(waiting: nat, events: seq<Event>, i: nat)
    requires i < |events|
    ensures Offered(waiting, events, i + 1) == Offered(waiting, events, i) + (if events[i].Arrive? then 1 else 0)
  {
    assert events[..i + 1][..i] == events[..i];
  }

  lemma {:induction false} OfferedGrows(waiting: nat, events: seq<Event>, j: nat, i: nat)
    requires j <= i <= |events|
    ensures Offered(waiting, events, j) <= Offered(waiting, events, i)
    decreases i
  {
    if j < i {
      OfferedGrows(waiting, events, j, i - 1);
      OfferedNext(waiting, events, i - 1);
    }
  }

  /** The next event that is no send, or one that finds nothing. */
  lemma KeepsIdle(n: nat, waiting: nat, events: seq<Event>, i: nat)
    requires i < |events| && Keeps(n, waiting, events, i) && (events[i].Send? ==> n == Offered(waiting, events, i))
    ensures Keeps(n, waiting, events, i + 1)
  {
    OfferedNext(waiting, events, i);
    if events[i].Send? {
      assert n == Offered(waiting, events, i + 1) + Sends(events, i + 1, i + 1);
    } else if n != Sends(events, 0, i) {
      var j :| 0 <= j <= i && n == Offered(waiting, events, j) + Sends(events, j, i);
      assert n == Offered(waiting, events, j) + Sends(events, j, i + 1);
    }
  }

  /** The next send, when it finds something. */
  lemma KeepsTakes(n: nat, waiting: nat, events: seq<Event>, i: nat)
    requires i < |events| && events[i].Send? && Keeps(n, waiting, events, i) && n < Offered(waiting, events, i)
    ensures Keeps(n + 1, waiting, events, i + 1)
  {
    OfferedNext(waiting, events, i);
    forall j {:trigger Offered(waiting, events, j)} | 0 <= j <= i + 1
      ensures n + 1 <= Offered(waiting, events, j) + Sends(events, j, i + 1)
    {
      if j <= i { assert n <= Offered(waiting, events, j) + Sends(events, j, i); }
    }
    if n != Sends(events, 0, i) {
      var j :| 0 <= j <= i && n == Offered(waiting, events, j) + Sends(events, j, i);
      assert n + 1 == Offered(waiting, events, j) + Sends(events, j, i + 1);
    }
  }

  /** There is one such number. */
  lemma KeepsOne(n: nat, m: nat, waiting: nat, events: seq<Event>, i: nat)
    requires i <= |events| && Keeps(n, waiting, events, i) && Keeps(m, waiting, events, i)
    ensures n == m
  {
  }

  lemma PacedEnds(waiting: nat, events: seq<Event>, sent: nat, i: nat, j: nat)
    requires i < j <= |events| && Steady(waiting, events, j) && Keeps(sent, waiting, events, i)
    ensures !events[i].ReaderEnds? && (events[i] == Send(false) ==> sent >= Offered(waiting, events, i))
  {
    if events[i] == Send(false) { KeepsOne(sent, Offered(waiting, events, i), waiting, events, i); }
  }

  /** How many messages a connection takes, and whether the last send failed, is settled by its events. */
  lemma PacedOne(waiting: nat, events: seq<Event>, sent: nat, failed: nat, sent': nat, failed': nat)
    requires Paced(waiting, events, sent, failed) && Paced(waiting, events, sent', failed')
    ensures sent == sent' && failed == failed'
  {
    var i :| 0 <= i <= |events| && StopsAt(waiting, events, sent, failed, i);
    var j :| 0 <= j <= |events| && StopsAt(waiting, events, sent', failed', j);
    if i < j { PacedEnds(waiting, events, sent, i, j); }
    if j < i { PacedEnds(waiting, events, sent', j, i); }
    KeepsOne(sent, sent', waiting, events, i);
  }

  lemma {:induction false} OnlySends(events: seq<Event>, j: nat, i: nat)
    requires j <= i <= |events| && forall k :: 0 <= k < |events| ==> events[k].Send?
    ensures Sends(events, j, i) == i - j && |Arrivals(events[..i])| == 0
    decreases i
  {
    if i > 0 {
      assert events[..i][..i - 1] == events[..i - 1];
      OnlySends(events, if j < i then j else i - 1, i - 1);
    }
  }

  /** Sends that all succeed empty the channel if there are as many as messages. */
  lemma AllAreSent(waiting: nat, events: seq<Event>, sent: nat, failed: nat)
    requires Paced(waiting, events, sent, failed) && forall k :: 0 <= k < |events| ==> events[k] == Send(true)
    ensures failed == 0 && sent == Min(waiting, |events|)
  {
    var i :| 0 <= i <= |events| && StopsAt(waiting, events, sent, failed, i);
    OnlySends(events, 0, i);
    forall j | 0 <= j <= i ensures Offered(waiting, events, j) == waiting && Sends(events, j, i) == i - j {
      OnlySends(events, j, i);
      OnlySends(events, 0, j);
    }
    assert sent <= Offered(waiting, events, i) + Sends(events, i, i);
  }

  /** Everything that was or came on the channel has been forwarded, lost or left waiting, in that order. */
  ghost predicate Conserved(before: seq<AgentMessage>, arrived: seq<AgentMessage>, forwarded: seq<AgentMessage>,
                            lost: seq<AgentMessage>, left: seq<AgentMessage>)
  {
    before + arrived == forwarded + lost + left
  }

  lemma ConservedArrive(before: seq<AgentMessage>, arrived: seq<AgentMessage>, forwarded: seq<AgentMessage>,
                        lost: seq<AgentMessage>, left: seq<AgentMessage>, m: AgentMessage)
    requires Conserved(before, arrived, forwarded, lost, left)
    ensures Conserved(before, arrived + [m], forwarded, lost, left + [m])
  {
    assert before + (arrived + [m]) == before + arrived + [m];
    assert forwarded + lost + (left + [m]) == forwarded + lost + left + [m];
  }

  lemma ConservedTake(before: seq<AgentMessage>, arrived: seq<AgentMessage>, forwarded: seq<AgentMessage>, left: seq<AgentMessage>)
    requires Conserved(before, arrived, forwarded, [], left) && left != []
    ensures Conserved(before, arrived, forwarded + [left[0]], [], left[1..])
    ensures Conserved(before, arrived, forwarded, [left[0]], left[1..])
  {
    assert left == [left[0]] + left[1..];
    assert forwarded + [] == forwarded;
  }

  ghost predicate DelaysRight(attempts: seq<Attempt>, delays: seq<nat>) {
    && |delays| <= |attempts|
    && forall i {:trigger delays[i]} :: 0 <= i < |delays| ==> delays[i] == Min(MAX_BACKOFF, Pow2(Since(attempts, i)))
  }

  /** What the loop waits after turn `i` unless that turn was a sustained connection. */
  ghost predicate BackoffRight(attempts: seq<Attempt>, i: nat, backoff: nat)
    requires i <= |attempts|
  {
    backoff == if i == 0 then 1 else Min(2 * Min(MAX_BACKOFF, Pow2(Since(attempts, i - 1))), MAX_BACKOFF)
  }

  lemma DelayNext(attempts: seq<Attempt>, i: nat, backoff: nat, delay: nat)
    requires i < |attempts| && BackoffRight(attempts, i, backoff)
    requires delay == if attempts[i].Sustained() then 1 else backoff
    ensures delay == Min(MAX_BACKOFF, Pow2(Since(attempts, i)))
    ensures BackoffRight(attempts, i + 1, Min(delay * 2, MAX_BACKOFF))
  {
  }

  lemma DelaysNext(attempts: seq<Attempt>, delays: seq<nat>, delay: nat)
    requires DelaysRight(attempts, delays) && |delays| < |attempts|
    requires delay == Min(MAX_BACKOFF, Pow2(Since(attempts, |delays|)))
    ensures DelaysRight(attempts, delays + [delay])
  {
  }

  /** There was a connection, and both bootstrap frames got through. */
  predicate Greeted(attempt: Attempt) {
    attempt.Connected? && attempt.greeted >= 2
  }

  /** At most one message is lost per connection, and none is taken where there was none or it did not get so far. */
  ghost predicate LossBounded(attempts: seq<Attempt>, forwarded: seq<seq<AgentMessage>>, lost: seq<seq<AgentMessage>>) {
    && |forwarded| == |lost| <= |attempts|
    && forall i {:trigger lost[i]} :: 0 <= i < |lost| ==>
         |lost[i]| <= 1 && (!Greeted(attempts[i]) ==> forwarded[i] == [] && lost[i] == [])
  }

  lemma LossNext(attempts: seq<Attempt>, forwarded: seq<seq<AgentMessage>>, lost: seq<seq<AgentMessage>>,
                 f: seq<AgentMessage>, x: seq<AgentMessage>)
    requires LossBounded(attempts, forwarded, lost) && |lost| < |attempts|
    requires |x| <= 1 && (!Greeted(attempts[|lost|]) ==> f == [] && x == [])
    ensures LossBounded(attempts, forwarded + [f], lost + [x])
  {
  }

  /** What each connection took off the channel. */
  function Taken(forwarded: seq<seq<AgentMessage>>, lost: seq<seq<AgentMessage>>): seq<seq<AgentMessage>>
    requires |forwarded| == |lost|
  {
    seq(|forwarded|, i requires 0 <= i < |forwarded| => forwarded[i] + lost[i])
  }

  ghost predicate ChannelKept(attempts: seq<Attempt>, forwarded: seq<seq<AgentMessage>>, lost: seq<seq<AgentMessage>>,
                              pending: seq<AgentMessage>)
    requires |forwarded| == |lost|
  {
    Flatten(Taken(forwarded, lost)) + pending == AllArrivals(attempts)
  }

  /** What is on the channel when turn `i` begins. */
  function Waiting(attempts: seq<Attempt>, forwarded: seq<seq<AgentMessage>>, lost: seq<seq<AgentMessage>>, i: nat): int
    requires |forwarded| == |lost| && i <= |attempts| && i <= |lost|
  {
    |AllArrivals(attempts[..i])| - |Flatten(Taken(forwarded[..i], lost[..i]))|
  }

  ghost predicate AllPaced(attempts: seq<Attempt>, forwarded: seq<seq<AgentMessage>>, lost: seq<seq<AgentMessage>>)
    requires |forwarded| == |lost| <= |attempts|
  {
    forall i {:trigger lost[i]} :: 0 <= i < |lost| && Greeted(attempts[i]) ==>
      && Waiting(attempts, forwarded, lost, i) >= 0
      && Paced(Waiting(attempts, forwarded, lost, i), attempts[i].events, |forwarded[i]|, |lost[i]|)
  }

  lemma PacedNext(attempts: seq<Attempt>, forwarded: seq<seq<AgentMessage>>, lost: seq<seq<AgentMessage>>,
                  before: seq<AgentMessage>, f: seq<AgentMessage>, x: seq<AgentMessage>)
    requires |forwarded| == |lost| < |attempts| && AllPaced(attempts, forwarded, lost)
    requires ChannelKept(attempts[..|lost|], forwarded, lost, before)
    requires Greeted(attempts[|lost|]) ==> Paced(|before|, attempts[|lost|].events, |f|, |x|)
    ensures AllPaced(attempts, forwarded + [f], lost + [x])
  {
    var i := |lost|;
    assert (forwarded + [f])[..i] == forwarded && (lost + [x])[..i] == lost;
    assert Waiting(attempts, forwarded + [f], lost + [x], i) == |before|;
    forall k | 0 <= k < i
      ensures Waiting(attempts, forwarded + [f], lost + [x], k) == Waiting(attempts, forwarded, lost, k) && lost[k] == (lost + [x])[k]
    {
      assert (forwarded + [f])[..k] == forwarded[..k] && (lost + [x])[..k] == lost[..k];
    }
    hide Waiting, Paced;
  }

  ghost predicate RunRight(attempts: seq<Attempt>, i: nat, delays: seq<nat>, forwarded: seq<seq<AgentMessage>>,
                           lost: seq<seq<AgentMessage>>, backoff: nat, pending: seq<AgentMessage>)
    requires i <= |attempts|
  {
    && |delays| == i && DelaysRight(attempts, delays) && BackoffRight(attempts, i, backoff)
    && |lost| == i && LossBounded(attempts, forwarded, lost) && AllPaced(attempts, forwarded, lost)
    && ChannelKept(attempts[..i], forwarded, lost, pending)
  }

  lemma TakenNext(attempts: seq<Attempt>, i: nat, forwarded: seq<seq<AgentMessage>>, lost: seq<seq<AgentMessage>>,
                  f: seq<AgentMessage>, x: seq<AgentMessage>, before: seq<AgentMessage>, after: seq<AgentMessage>)
    requires i < |attempts| && |forwarded| == |lost| == i
    requires ChannelKept(attempts[..i], forwarded, lost, before)
    requires Conserved(before, Arrivals(attempts[i].Events()), f, x, after)
    ensures ChannelKept(attempts[..i + 1], forwarded + [f], lost + [x], after)
  {
    var taken := Taken(forwarded, lost);
    var now := Taken(forwarded + [f], lost + [x]);
    assert now == taken + [f + x];
    assert now[..i] == taken && attempts[..i + 1][..i] == attempts[..i];
    assert Flatten(now) + after == Flatten(taken) + (f + x + after);
    assert Flatten(taken) + (before + Arrivals(attempts[i].Events())) == Flatten(taken) + before + Arrivals(attempts[i].Events());
  }

  lemma RunNext(attempts: seq<Attempt>, i: nat, delays: seq<nat>, forwarded: seq<seq<AgentMessage>>, lost: seq<seq<AgentMessage>>,
                backoff: nat, before: seq<AgentMessage>, delay: nat, f: seq<AgentMessage>, x: seq<AgentMessage>,
                after: seq<AgentMessage>)
    requires i < |attempts| && RunRight(attempts, i, delays, forwarded, lost, backoff, before)
    requires delay == if attempts[i].Sustained() then 1 else backoff
    requires Conserved(before, Arrivals(attempts[i].Events()), f, x, after)
    requires |x| <= 1 && (!Greeted(attempts[i]) ==> f == [] && x == [])
    requires Greeted(attempts[i]) ==> Paced(|before|, attempts[i].events, |f|, |x|)
    ensures RunRight(attempts, i + 1, delays + [delay], forwarded + [f], lost + [x], Min(delay * 2, MAX_BACKOFF), after)
  {
    TakenNext(attempts, i, forwarded, lost, f, x, before, after);
    DelayNext(attempts, i, backoff, delay);
    DelaysNext(attempts, delays, delay);
    LossNext(attempts, forwarded, lost, f, x);
    PacedNext(attempts, forwarded, lost, before, f, x);
  }

  class WsClient {
    var backoff: nat
    var pending: seq<AgentMessage>

    constructor ()
      ensures backoff == 1 && pending == []
    {
      backoff, pending := 1, [];
    }

    /** One connection. Nothing is taken off the channel before both bootstrap frames are sent. Then messages
        leave in channel order, one at every send that finds one; only the one whose sending failed is lost, and that
        ends the connection. */
    method RunSession(greeted: nat, events: seq<Event>) returns (forwarded: seq<AgentMessage>, lost: seq<AgentMessage>)
      modifies this`pending
      ensures Conserved(old(pending), Arrivals(events), forwarded, lost, pending)
      ensures greeted < 2 ==> forwarded == [] && lost == []
      ensures greeted >= 2 ==> Paced(|old(pending)|, events, |forwarded|, |lost|)
      ensures |lost| <= 1
    {
      forwarded, lost := [], [];
      var running := greeted >= 2;
      for i := 0 to |events|
        invariant Conserved(old(pending), Arrivals(events[..i]), forwarded, lost, pending)
        invariant |lost| <= 1 && (running ==> lost == [])
        invariant greeted < 2 ==> !running && forwarded == [] && lost == []
        invariant running ==> Steady(|old(pending)|, events, i) && Keeps(|forwarded|, |old(pending)|, events, i)
        invariant greeted >= 2 && !running ==> Paced(|old(pending)|, events, |forwarded|, |lost|)
      {
        assert events[..i + 1][..i] == events[..i];
        assert running ==> |forwarded| + |pending| == Offered(|old(pending)|, events, i);
        match events[i] {
          case Arrive(msg) =>
            ConservedArrive(old(pending), Arrivals(events[..i]), forwarded, lost, pending, msg);
            if running { KeepsIdle(|forwarded|, |old(pending)|, events, i); }
            pending := pending + [msg];
          case Send(delivered) =>
            if running && pending != [] {
              ConservedTake(old(pending), Arrivals(events[..i]), forwarded, pending);
              KeepsTakes(|forwarded|, |old(pending)|, events, i);
              var msg := pending[0];
              pending := pending[1..];
              assert !delivered ==> StopsAt(|old(pending)|, events, |forwarded|, 1, i);
              if delivered { forwarded := forwarded + [msg]; } else { lost, running := [msg], false; }
            } else if running {
              KeepsIdle(|forwarded|, |old(pending)|, events, i);
            }
          case ReaderEnds =>
            assert running ==> StopsAt(|old(pending)|, events, |forwarded|, 0, i);
            running := false;
        }
      }
      assert events[..|events|] == events;
      assert running ==> StopsAt(|old(pending)|, events, |forwarded|, 0, |events|);
    }

    /** One turn of the loop, with the delay it ends with. */
    method Turn(attempt: Attempt) returns (delay: nat, forwarded: seq<AgentMessage>, lost: seq<AgentMessage>)
      modifies this
      ensures delay == if attempt.Sustained() then 1 else old(backoff)
      ensures backoff == Min(delay * 2, MAX_BACKOFF)
      ensures Conserved(old(pending), Arrivals(attempt.Events()), forwarded, lost, pending)
      ensures |lost| <= 1 && (!Greeted(attempt) ==> forwarded == [] && lost == [])
      ensures Greeted(attempt) ==> Paced(|old(pending)|, attempt.events, |forwarded|, |lost|)
    {
      if attempt.Connected? {
        forwarded, lost := RunSession(attempt.greeted, attempt.events);
        if attempt.seconds >= SUSTAINED { backoff := 1; }
      } else {
        forwarded, lost := RunSession(0, attempt.arrivals);
      }
      delay := backoff;
      backoff := Min(backoff * 2, MAX_BACKOFF);
    }

    /** Finitely many turns of the endless loop. Each delay is the doubling since the last connection that
        lasted, capped at a minute. Across all reconnects the channel is a FIFO queue from which at most one
        message per connection goes missing, each time the last one that connection took; and each connection takes
        as many as its sends find. */
    method RunForever(attempts: seq<Attempt>)
      returns (delays: seq<nat>, forwarded: seq<seq<AgentMessage>>, lost: seq<seq<AgentMessage>>)
      requires backoff == 1 && pending == []
      modifies this
      ensures |delays| == |attempts| && DelaysRight(attempts, delays)
      ensures |lost| == |attempts| && LossBounded(attempts, forwarded, lost) && AllPaced(attempts, forwarded, lost)
      ensures ChannelKept(attempts, forwarded, lost, pending)
    {
      delays, forwarded, lost := [], [], [];
      for i := 0 to |attempts|
        invariant RunRight(attempts, i, delays, forwarded, lost, backoff, pending)
      {
        ghost var before, wait := pending, backoff;
        var delay, f, x := Turn(attempts[i]);
        RunNext(attempts, i, delays, forwarded, lost, wait, before, delay, f, x, pending);
        delays, forwarded, lost := delays + [delay], forwarded + [f], lost + [x];
      }
      assert attempts[..|attempts|] == attempts;
    }
  }
}
