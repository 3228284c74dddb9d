/** The terminal relay end to end: what a browser that follows a session holds after a snapshot. */
module TerminalTail {
  import opened Wire
  import opened ConnectRegistry
  import opened RegistryProperties
  import opened RelayLink
  import P = PtyAgent
  import I = PtyInvariant
  import Q = PtyProperties

  // ---------------------------------------------------------------- output on the channel

  /** The bytes of session `s` in the frames from position `from` up to `to`, whichever PTY they came from. */
  function Relayed(frames: seq<P.Frame>, from: nat, to: nat, s: SessionId): seq<Byte>
    requires to <= |frames|
  {
    if to <= from then [] else Relayed(frames, from, to - 1, s) + BytesIn(frames[to - 1].msg, s)
  }

  /** The bytes of PTY `g` in them. */
  function Labelled(frames: seq<P.Frame>, from: nat, to: nat, g: P.PtyId): seq<Byte>
    requires to <= |frames|
  {
    if to <= from then []
    else
      var f := frames[to - 1];
      Labelled(frames, from, to - 1, g) + (if f.pty == Some(g) && f.msg.SessionOutput? then f.msg.data else [])
  }

  predicate OutputOf(f: P.Frame, s: SessionId) {
    f.msg.SessionOutput? && f.msg.sessionId == s
  }

  /** Every output frame of `s` among them came from PTY `g`. */
  predicate AllFrom(frames: seq<P.Frame>, from: nat, to: nat, s: SessionId, g: P.PtyId)
    requires to <= |frames|
  {
    forall q {:trigger frames[q]} :: from <= q < to && OutputOf(frames[q], s) ==> frames[q].pty == Some(g)
  }

  lemma {:induction false} RelayedPrefix(frames: seq<P.Frame>, more: seq<P.Frame>, from: nat, to: nat, s: SessionId)
    requires frames <= more && to <= |frames|
    ensures Relayed(more, from, to, s) == Relayed(frames, from, to, s)
  {
    if to > from { RelayedPrefix(frames, more, from, to - 1, s); }
  }

  lemma {:induction false} SentThenLabelled(frames: seq<P.Frame>, from: nat, to: nat, g: P.PtyId)
    requires from <= to <= |frames|
    ensures P.Sent(frames[..to], g) == P.Sent(frames[..from], g) + Labelled(frames, from, to, g)
  {
    if from < to {
      SentThenLabelled(frames, from, to - 1, g);
      assert frames[..to][..to - 1] == frames[..to - 1];
    }
  }

  lemma LabelledNext(frames: seq<P.Frame>, owners: seq<SessionId>, verdicts: map<P.PtyId, bool>, capacity: nat, from: nat,
                     to: nat, s: SessionId, g: P.PtyId)
    requires from < to <= |frames| && g < |owners| && owners[g] == s
    requires I.FrameOk(frames[..to - 1], frames[to - 1], owners, verdicts, capacity)
    ensures var f := frames[to - 1];
            var mine := if f.pty == Some(g) && f.msg.SessionOutput? then f.msg.data else [];
            && |mine| <= |BytesIn(f.msg, s)|
            && (OutputOf(f, s) && f.pty != Some(g) ==> |mine| < |BytesIn(f.msg, s)|)
            && (OutputOf(f, s) ==> f.pty == Some(g)) == (mine == BytesIn(f.msg, s))
    ensures AllFrom(frames, from, to, s, g)
            <==> AllFrom(frames, from, to - 1, s, g) && (OutputOf(frames[to - 1], s) ==> frames[to - 1].pty == Some(g))
  {
  }

  /** The bytes of a session are those of one of its PTYs exactly when no other PTY put in a frame; otherwise
      there are more of them. */
  lemma {:induction false} LabelledExactly(frames: seq<P.Frame>, owners: seq<SessionId>, verdicts: map<P.PtyId, bool>,
                                           capacity: nat, from: nat, to: nat, s: SessionId, g: P.PtyId)
    requires I.HistoryOk(frames, owners, verdicts, capacity) && from <= to <= |frames| && g < |owners| && owners[g] == s
    ensures |Labelled(frames, from, to, g)| <= |Relayed(frames, from, to, s)|
    ensures AllFrom(frames, from, to, s, g) ==> Labelled(frames, from, to, g) == Relayed(frames, from, to, s)
    ensures !AllFrom(frames, from, to, s, g) ==> |Labelled(frames, from, to, g)| < |Relayed(frames, from, to, s)|
  {
    if from < to {
      LabelledExactly(frames, owners, verdicts, capacity, from, to - 1, s, g);
      Q.FrameAt(frames, owners, verdicts, capacity, to - 1);
      LabelledNext(frames, owners, verdicts, capacity, from, to, s, g);
    }
  }

  // ---------------------------------------------------------------- output in the browser's queue

  /** Since its first `mark` messages browser `b` was sent exactly the bytes of `s` that the server has handled
      since frame `p` of the channel. */
  ghost predicate Relays(l: Link, s: SessionId, b: BrowserId, p: nat, mark: nat) {
    && |l.boot| <= l.received && p < Handled(l) <= |l.agent.queued|
    && b in l.reg.browsers && mark <= |l.reg.browsers[b].outbox.sent|
    && OutputBytes(l.reg.browsers[b].outbox.sent[mark..], s) == Relayed(l.agent.queued, p + 1, Handled(l), s)
  }

  lemma MoreBytes(sent: seq<AgentMessage>, more: seq<AgentMessage>, mark: nat, s: SessionId)
    requires mark <= |sent|
    ensures OutputBytes((sent + more)[mark..], s) == OutputBytes(sent[mark..], s) + OutputBytes(more, s)
  {
    assert (sent + more)[mark..] == sent[mark..] + more;
    OutputBytesConcat(sent[mark..], more, s);
  }

  lemma GrownRelays(l: Link, agent: P.State, s: SessionId, b: BrowserId, p: nat, mark: nat)
    requires Relays(l, s, b, p, mark) && l.agent.queued <= agent.queued
    ensures Relays(l.(agent := agent), s, b, p, mark)
  {
    hide Relayed, OutputBytes;
    RelayedPrefix(l.agent.queued, agent.queued, p + 1, Handled(l), s);
    assert Handled(l.(agent := agent)) == Handled(l);
  }

  lemma OwnStepRelays(l: Link, action: P.Action, capacity: nat, s: SessionId, b: BrowserId, p: nat, mark: nat)
    requires P.Enabled(l.agent, action) && Relays(l, s, b, p, mark)
    ensures Relays(l.(agent := P.Next(l.agent, action, capacity)), s, b, p, mark)
  {
    hide P.Next, P.Enabled;
    QueueGrows(l.agent, action, capacity);
    GrownRelays(l, P.Next(l.agent, action, capacity), s, b, p, mark);
  }

  lemma ServerStepRelays(l: Link, reg: Registry, me: AgentId, s: SessionId, b: BrowserId, p: nat, mark: nat)
    requires Relays(l, s, b, p, mark) && Undisturbed(l.reg, reg, me, s, b)
    ensures Relays(l.(reg := reg), s, b, p, mark)
  {
    MoreBytes(l.reg.browsers[b].outbox.sent, Arriving(l.reg, reg, b), mark, s);
  }

  lemma DeliverStepRelays(l: Link, reg: Registry, s: SessionId, b: BrowserId, p: nat, mark: nat)
    requires Relays(l, s, b, p, mark) && Handled(l) < |l.agent.queued|
    requires b in reg.browsers && Extends(l.reg, reg, b, Arriving(l.reg, reg, b))
    requires OutputBytes(Arriving(l.reg, reg, b), s) == BytesIn(l.agent.queued[Handled(l)].msg, s)
    ensures Relays(l.(reg := reg, received := l.received + 1), s, b, p, mark)
  {
    hide OutputBytes, Arriving, BytesIn;
    assert Handled(l.(reg := reg, received := l.received + 1)) == Handled(l) + 1;
    MoreBytes(l.reg.browsers[b].outbox.sent, Arriving(l.reg, reg, b), mark, s);
  }

  lemma ForwardRelays(l: Link, s: SessionId, b: BrowserId, p: nat, mark: nat)
    requires Relays(l, s, b, p, mark)
    ensures Relays(l.(forwarded := l.forwarded + 1), s, b, p, mark)
  {
    assert Handled(l.(forwarded := l.forwarded + 1)) == Handled(l);
  }

  lemma NextFrameQueued(l: Link, s: SessionId, b: BrowserId, p: nat, mark: nat)
    requires Relays(l, s, b, p, mark) && Arrived(l)
    ensures Handled(l) < |l.agent.queued| && NextFrame(l) == l.agent.queued[Handled(l)].msg
  {
  }

  /** Every step, whoever takes it, keeps what a follower holds in line with the channel. */
  lemma StepRelays(l: Link, step: LinkStep, me: AgentId, capacity: nat, s: SessionId, b: BrowserId, p: nat, mark: nat)
    requires LinkInv(l, me, capacity) && LinkEnabled(l, step, me)
    requires Following(l.reg, me, s, b) && b in LinkNext(l, step, me, capacity).reg.browsers && Relays(l, s, b, p, mark)
    ensures Relays(LinkNext(l, step, me, capacity), s, b, p, mark)
  {
    hide P.Next, P.Enabled, I.Inv, Apply, AgentFrame, Allowed, Relays, OutputBytes, Relayed;
    match step
    case Agent(action) => OwnStepRelays(l, action, capacity, s, b, p, mark);
    case Forward => ForwardRelays(l, s, b, p, mark);
    case Deliver(listing) =>
      OwnFrameGives(l.reg, me, NextFrame(l), listing, s, b);
      NextFrameQueued(l, s, b, p, mark);
      DeliverStepRelays(l, AgentFrame(l.reg, me, NextFrame(l), listing), s, b, p, mark);
    case Server(t) =>
      ElsewhereUndisturbed(l.reg, t, me, s, b);
      ServerStepRelays(l, Apply(l.reg, t), me, s, b, p, mark);
  }

  // ---------------------------------------------------------------- runs of a follower

  /** How many messages browser `b` has been sent once it got the next one. */
  function Mark(l: Link, b: BrowserId): nat {
    if b in l.reg.browsers then |l.reg.browsers[b].outbox.sent| + 1 else 0
  }

  /** The server handles a snapshot of session `s`, and browser `b` follows `s`. */
  ghost predicate SnapshotReaches(l: Link, step: LinkStep, me: AgentId, s: SessionId, b: BrowserId) {
    && step.Deliver? && Arrived(l) && |l.boot| <= l.received
    && var f := l.agent.queued[Handled(l)];
       && f.msg.ScrollbackDump? && f.msg.sessionId == s && Following(l.reg, me, s, b)
  }

  /** A run of one connection in which that happens at step `k`. */
  ghost predicate ShownAt(links: seq<Link>, steps: seq<LinkStep>, me: AgentId, capacity: nat, k: nat, s: SessionId, b: BrowserId) {
    && IsLinkRun(links, steps, me, capacity)
    && k < |steps| && SnapshotReaches(links[k], steps[k], me, s, b)
  }

  lemma ShownInRun(links: seq<Link>, steps: seq<LinkStep>, me: AgentId, capacity: nat, k: nat, s: SessionId, b: BrowserId)
    requires ShownAt(links, steps, me, capacity, k, s, b)
    ensures |links| == |steps| + 1 && k < |steps| && IsLinkRun(links, steps, me, capacity)
  {
  }

  ghost predicate StaysFollowing(links: seq<Link>, me: AgentId, s: SessionId, b: BrowserId, from: nat, n: nat)
    requires n < |links|
  {
    forall i {:trigger links[i]} :: from <= i <= n ==> Following(links[i].reg, me, s, b)
  }

  /** The browser is sent the snapshot, goes on following, and so far has nothing after it. */
  lemma SnapshotArrives(l: Link, step: LinkStep, me: AgentId, capacity: nat, s: SessionId, b: BrowserId)
    requires LinkInv(l, me, capacity) && LinkEnabled(l, step, me) && SnapshotReaches(l, step, me, s, b)
    requires b in LinkNext(l, step, me, capacity).reg.browsers
    ensures var l' := LinkNext(l, step, me, capacity);
            var was := l.reg.browsers[b].outbox.sent;
            && l'.reg.browsers[b].outbox.sent == was + [l.agent.queued[Handled(l)].msg]
            && Following(l'.reg, me, s, b) && Relays(l', s, b, Handled(l), |was| + 1)
            && Handled(l') == Handled(l) + 1
  {
    OwnFrameReaches(l.reg, me, NextFrame(l), step.listing, s, b);
    OwnFrameGives(l.reg, me, NextFrame(l), step.listing, s, b);
    hide AgentFrame, I.Inv;
    var was := l.reg.browsers[b].outbox.sent;
    assert (was + [NextFrame(l)])[|was| + 1..] == [];
  }

  lemma RunStarts(links: seq<Link>, steps: seq<LinkStep>, me: AgentId, capacity: nat, k: nat, s: SessionId, b: BrowserId)
    requires ShownAt(links, steps, me, capacity, k, s, b) && k + 1 < |links| && b in links[k + 1].reg.browsers
    ensures Relays(links[k + 1], s, b, Handled(links[k]), Mark(links[k], b))
  {
    hide Relays, Handled;
    RunStep(links, steps, me, capacity, k);
    hide IsLinkRun, LinkInv, LinkEnabled, LinkNext, SnapshotReaches;
    SnapshotArrives(links[k], steps[k], me, capacity, s, b);
  }

  lemma RunGoesOn(links: seq<Link>, steps: seq<LinkStep>, me: AgentId, capacity: nat, i: nat, s: SessionId, b: BrowserId, p: nat, mark: nat)
    requires IsLinkRun(links, steps, me, capacity) && i + 1 < |links| && b in links[i + 1].reg.browsers
    requires Following(links[i].reg, me, s, b) && Relays(links[i], s, b, p, mark)
    ensures Relays(links[i + 1], s, b, p, mark)
  {
    hide Relays, Following;
    RunStep(links, steps, me, capacity, i);
    hide IsLinkRun, LinkInv, LinkEnabled, LinkNext;
    StepRelays(links[i], steps[i], me, capacity, s, b, p, mark);
  }

  lemma {:induction false} RunRelays(links: seq<Link>, steps: seq<LinkStep>, me: AgentId, capacity: nat, k: nat, n: nat,
                                     s: SessionId, b: BrowserId)
    requires ShownAt(links, steps, me, capacity, k, s, b) && k < n < |links|
    requires StaysFollowing(links, me, s, b, k + 1, n)
    ensures Relays(links[n], s, b, Handled(links[k]), Mark(links[k], b))
    decreases n
  {
    hide ShownAt, IsLinkRun, Relays, Handled, Mark;
    assert Following(links[n].reg, me, s, b);
    if n == k + 1 {
      RunStarts(links, steps, me, capacity, k, s, b);
    } else {
      RunRelays(links, steps, me, capacity, k, n - 1, s, b);
      assert Following(links[n - 1].reg, me, s, b);
      ShownInRun(links, steps, me, capacity, k, s, b);
      RunGoesOn(links, steps, me, capacity, n - 1, s, b, Handled(links[k]), Mark(links[k], b));
    }
  }

  // ---------------------------------------------------------------- when it is a tail

  /** Snapshot and later outputs are the end of what PTY `g` queued: the last `capacity` bytes at the snapshot in
      frame `p`, and all that the server has handled since. */
  ghost predicate IsTail(shown: seq<Byte>, frames: seq<P.Frame>, handled: nat, p: nat, g: P.PtyId, capacity: nat)
    requires p <= handled <= |frames|
  {
    var before := |P.Sent(frames[..p], g)|;
    && before <= |P.Sent(frames[..handled], g)|
    && shown == P.Sent(frames[..handled], g)[if before <= capacity then 0 else before - capacity..]
  }

  /** The snapshot in frame `p` is one of PTY `g`, or one of no PTY taken before `g` had queued any output. */
  predicate ShowsStartOf(frames: seq<P.Frame>, p: nat, g: P.PtyId)
    requires p < |frames|
  {
    frames[p].pty == Some(g) || (frames[p].pty.None? && P.Sent(frames[..p], g) == [])
  }

  lemma SnapshotShows(frames: seq<P.Frame>, owners: seq<SessionId>, verdicts: map<P.PtyId, bool>, capacity: nat, p: nat, g: P.PtyId)
    requires I.HistoryOk(frames, owners, verdicts, capacity) && p < |frames|
    requires frames[p].msg.ScrollbackDump? && ShowsStartOf(frames, p, g)
    ensures frames[p].msg.data == LastN(P.Sent(frames[..p], g), capacity)
  {
    Q.FrameAt(frames, owners, verdicts, capacity, p);
    hide P.Sent, I.HistoryOk;
  }

  lemma SuffixAcross<T>(before: seq<T>, since: seq<T>, n: nat)
    ensures LastN(before, n) + since == (before + since)[if |before| <= n then 0 else |before| - n..]
  {
  }

  /** Equal fronts can be taken off. */
  lemma TailEquation(shown: seq<Byte>, before: seq<Byte>, since: seq<Byte>, relayed: seq<Byte>, n: nat)
    requires shown == LastN(before, n)
    ensures shown + relayed == (before + since)[if |before| <= n then 0 else |before| - n..] <==> relayed == since
  {
    SuffixAcross(before, since, n);
    hide LastN;
    if shown + relayed == shown + since {
      assert relayed == (shown + relayed)[|shown|..] && since == (shown + since)[|shown|..];
    }
  }

  lemma SnapshotIsNoOutput(frames: seq<P.Frame>, p: nat, g: P.PtyId)
    requires p < |frames| && frames[p].msg.ScrollbackDump?
    ensures Labelled(frames, p, p + 1, g) == []
  {
    assert Labelled(frames, p, p, g) == [];
  }

  lemma SentAfterSnapshot(frames: seq<P.Frame>, p: nat, handled: nat, g: P.PtyId)
    requires p < handled <= |frames| && frames[p].msg.ScrollbackDump?
    ensures P.Sent(frames[..handled], g) == P.Sent(frames[..p], g) + Labelled(frames, p + 1, handled, g)
  {
    hide P.Sent;
    SentThenLabelled(frames, p, p + 1, g);
    SentThenLabelled(frames, p + 1, handled, g);
    SnapshotIsNoOutput(frames, p, g);
    hide Labelled;
  }

  lemma TailByLabel(frames: seq<P.Frame>, owners: seq<SessionId>, verdicts: map<P.PtyId, bool>, capacity: nat, handled: nat,
                    p: nat, s: SessionId, g: P.PtyId)
    requires I.HistoryOk(frames, owners, verdicts, capacity) && p < handled <= |frames| && g < |owners| && owners[g] == s
    requires frames[p].msg.ScrollbackDump? && ShowsStartOf(frames, p, g)
    ensures IsTail(frames[p].msg.data + Relayed(frames, p + 1, handled, s), frames, handled, p, g, capacity)
            <==> AllFrom(frames, p + 1, handled, s, g)
  {
    hide P.Sent, Labelled, Relayed, AllFrom, LastN, I.HistoryOk, ShowsStartOf;
    SnapshotShows(frames, owners, verdicts, capacity, p, g);
    SentAfterSnapshot(frames, p, handled, g);
    LabelledExactly(frames, owners, verdicts, capacity, p + 1, handled, s, g);
    TailEquation(frames[p].msg.data, P.Sent(frames[..p], g), Labelled(frames, p + 1, handled, g),
                 Relayed(frames, p + 1, handled, s), capacity);
  }

  /** In every interleaving within one agent connection, for as long as a browser follows a session it was sent a
      snapshot of: snapshot and later outputs in its queue are the tail of PTY `g` if and only if every output
      frame of the session handled since came from `g`. */
  lemma TailExactly(links: seq<Link>, steps: seq<LinkStep>, me: AgentId, capacity: nat, k: nat, n: nat, s: SessionId,
                    b: BrowserId, g: P.PtyId)
    requires ShownAt(links, steps, me, capacity, k, s, b) && k < n < |links|
    requires StaysFollowing(links, me, s, b, k + 1, n)
    requires g < |links[n].agent.owners| && links[n].agent.owners[g] == s
    requires ShowsStartOf(links[k].agent.queued, Handled(links[k]), g)
    ensures var p, l := Handled(links[k]), links[n];
            var mark := Mark(links[k], b);
            var sent := l.reg.browsers[b].outbox.sent;
            && mark <= |sent| && p < Handled(l) <= |l.agent.queued| && links[k].agent.queued <= l.agent.queued
            && (IsTail(l.agent.queued[p].msg.data + OutputBytes(sent[mark..], s), l.agent.queued, Handled(l), p, g, capacity)
                <==> AllFrom(l.agent.queued, p + 1, Handled(l), s, g))
  {
    var p, frames := Handled(links[k]), links[n].agent.queued;
    RunRelays(links, steps, me, capacity, k, n, s, b);
    RunKeepsLinkInv(links, steps, me, capacity, n);
    RunQueueGrows(links, steps, me, capacity, k, n);
    hide P.Sent, OutputBytes, Relayed, AllFrom, IsLinkRun;
    assert frames[..p] == links[k].agent.queued[..p] && frames[p] == links[k].agent.queued[p];
    TailByLabel(frames, links[n].agent.owners, links[n].agent.verdicts, capacity, Handled(links[n]), p, s, g);
  }

  // ---------------------------------------------------------------- while the PTY runs

  /** While PTY `g` of session `s` is alive, a frame either ends `s`, or carries bytes of `s` exactly when it
      carries bytes of `g`; a list among them names `s`. */
  lemma FrameWhileAlive(before: seq<P.Frame>, f: P.Frame, owners: seq<SessionId>, verdicts: map<P.PtyId, bool>,
                        capacity: nat, g: P.PtyId, s: SessionId)
    requires I.FrameOk(before, f, owners, verdicts, capacity)
    requires g < |owners| && owners[g] == s && P.LifeOf(before, g) == P.Alive && !IsTerminalFor(f.msg, s)
    ensures P.LifeOf(before + [f], g) == P.Alive
    ensures P.Sent(before + [f], g) == P.Sent(before, g) + BytesIn(f.msg, s)
    ensures OutputOf(f, s) ==> f.pty == Some(g)
    ensures f.msg.SessionList? ==> |f.msg.sessions| <= MAX_SESSIONS && s in SessionIds(f.msg.sessions)
  {
    I.Appended(before, f, g);
  }

  /** Browser `b` follows the session of PTY `g`, which as far as the server knows is running, has been sent all of
      the session's output since frame `p`, and all of that came from `g`. */
  ghost predicate Tailing(l: Link, me: AgentId, s: SessionId, b: BrowserId, g: P.PtyId, p: nat, mark: nat) {
    && Relays(l, s, b, p, mark) && Following(l.reg, me, s, b)
    && g < |l.agent.owners| && l.agent.owners[g] == s
    && P.LifeOf(l.agent.queued[..Handled(l)], g) == P.Alive
    && AllFrom(l.agent.queued, p + 1, Handled(l), s, g)
  }

  ghost predicate Told(l: Link, s: SessionId, b: BrowserId, mark: nat) {
    && b in l.reg.browsers && mark <= |l.reg.browsers[b].outbox.sent|
    && HasTerminal(l.reg.browsers[b].outbox.sent[mark..], s)
  }

  ghost predicate TailsOrTold(l: Link, me: AgentId, s: SessionId, b: BrowserId, g: P.PtyId, p: nat, mark: nat) {
    Tailing(l, me, s, b, g, p, mark) || Told(l, s, b, mark)
  }

  lemma AllFromPrefix(frames: seq<P.Frame>, more: seq<P.Frame>, from: nat, to: nat, s: SessionId, g: P.PtyId)
    requires frames <= more && to <= |frames| && AllFrom(frames, from, to, s, g)
    ensures AllFrom(more, from, to, s, g) && more[..to] == frames[..to]
  {
    assert forall q {:trigger more[q]} :: 0 <= q < to ==> more[q] == frames[q];
  }

  lemma RelaysInRange(l: Link, s: SessionId, b: BrowserId, p: nat, mark: nat)
    requires Relays(l, s, b, p, mark)
    ensures |l.boot| <= l.received && p < Handled(l) <= |l.agent.queued|
    ensures b in l.reg.browsers && mark <= |l.reg.browsers[b].outbox.sent|
  {
  }

  lemma OwnStepTails(l: Link, action: P.Action, me: AgentId, capacity: nat, s: SessionId, b: BrowserId, g: P.PtyId, p: nat, mark: nat)
    requires P.Enabled(l.agent, action) && Tailing(l, me, s, b, g, p, mark)
    ensures Tailing(l.(agent := P.Next(l.agent, action, capacity)), me, s, b, g, p, mark)
  {
    hide P.Next, P.Enabled, Relays, AllFrom, Following, P.LifeOf;
    OwnStepRelays(l, action, capacity, s, b, p, mark);
    QueueGrows(l.agent, action, capacity);
    RelaysInRange(l, s, b, p, mark);
    AllFromPrefix(l.agent.queued, P.Next(l.agent, action, capacity).queued, p + 1, Handled(l), s, g);
  }

  lemma AllFromNext(frames: seq<P.Frame>, from: nat, n: nat, s: SessionId, g: P.PtyId)
    requires n < |frames| && AllFrom(frames, from, n, s, g) && (OutputOf(frames[n], s) ==> frames[n].pty == Some(g))
    ensures AllFrom(frames, from, n + 1, s, g)
  {
  }

  lemma DeliverStepTails(l: Link, reg: Registry, me: AgentId, capacity: nat, s: SessionId, b: BrowserId, g: P.PtyId, p: nat, mark: nat)
    requires Tailing(l, me, s, b, g, p, mark) && Handled(l) < |l.agent.queued|
    requires var n, f := Handled(l), l.agent.queued[Handled(l)];
             && I.FrameOk(l.agent.queued[..n], f, l.agent.owners, l.agent.verdicts, capacity)
             && !IsTerminalFor(f.msg, s)
    requires Relays(l.(reg := reg, received := l.received + 1), s, b, p, mark) && Following(reg, me, s, b)
    ensures Tailing(l.(reg := reg, received := l.received + 1), me, s, b, g, p, mark)
  {
    hide Relays, AllFrom, Following, P.LifeOf, P.Sent, I.FrameOk, IsTerminalFor, OutputOf;
    var n, frames := Handled(l), l.agent.queued;
    RelaysInRange(l, s, b, p, mark);
    FrameWhileAlive(frames[..n], frames[n], l.agent.owners, l.agent.verdicts, capacity, g, s);
    assert frames[..n + 1] == frames[..n] + [frames[n]];
    AllFromNext(frames, p + 1, n, s, g);
    assert Handled(l.(reg := reg, received := l.received + 1)) == n + 1;
  }

  lemma DeliverTells(l: Link, listing: seq<SessionInfo>, me: AgentId, s: SessionId, b: BrowserId, mark: nat)
    requires Consistent(l.reg) && Following(l.reg, me, s, b) && Arrived(l) && IsTerminalFor(NextFrame(l), s)
    requires mark <= |l.reg.browsers[b].outbox.sent| && b in AgentFrame(l.reg, me, NextFrame(l), listing).browsers
    ensures Told(l.(reg := AgentFrame(l.reg, me, NextFrame(l), listing), received := l.received + 1), s, b, mark)
  {
    OwnFrameReaches(l.reg, me, NextFrame(l), listing, s, b);
    hide AgentFrame, NextFrame;
    var was := l.reg.browsers[b].outbox.sent;
    assert (was + [NextFrame(l)])[mark..][|was| - mark] == NextFrame(l);
  }

  lemma NextFrameOk(l: Link, me: AgentId, capacity: nat)
    requires LinkInv(l, me, capacity) && Handled(l) < |l.agent.queued|
    ensures I.FrameOk(l.agent.queued[..Handled(l)], l.agent.queued[Handled(l)], l.agent.owners, l.agent.verdicts, capacity)
  {
    Q.FrameAt(l.agent.queued, l.agent.owners, l.agent.verdicts, capacity, Handled(l));
  }

  lemma DeliverFollows(l: Link, listing: seq<SessionInfo>, me: AgentId, capacity: nat, s: SessionId, b: BrowserId, g: P.PtyId)
    requires Consistent(l.reg) && Following(l.reg, me, s, b) && Arrived(l) && Handled(l) < |l.agent.queued|
    requires NextFrame(l) == l.agent.queued[Handled(l)].msg && !IsTerminalFor(NextFrame(l), s)
    requires I.FrameOk(l.agent.queued[..Handled(l)], l.agent.queued[Handled(l)], l.agent.owners, l.agent.verdicts, capacity)
    requires g < |l.agent.owners| && l.agent.owners[g] == s && P.LifeOf(l.agent.queued[..Handled(l)], g) == P.Alive
    requires b in AgentFrame(l.reg, me, NextFrame(l), listing).browsers
    ensures Following(AgentFrame(l.reg, me, NextFrame(l), listing), me, s, b)
  {
    hide AgentFrame, I.FrameOk, P.LifeOf, P.Sent, Following, Consistent;
    var n, frames := Handled(l), l.agent.queued;
    FrameWhileAlive(frames[..n], frames[n], l.agent.owners, l.agent.verdicts, capacity, g, s);
    OwnFrameReaches(l.reg, me, NextFrame(l), listing, s, b);
  }

  lemma DeliverTailsOrTells(l: Link, listing: seq<SessionInfo>, me: AgentId, capacity: nat, s: SessionId, b: BrowserId,
                            g: P.PtyId, p: nat, mark: nat)
    requires LinkInv(l, me, capacity) && LinkEnabled(l, Deliver(listing), me) && Tailing(l, me, s, b, g, p, mark)
    requires b in LinkNext(l, Deliver(listing), me, capacity).reg.browsers
    ensures TailsOrTold(LinkNext(l, Deliver(listing), me, capacity), me, s, b, g, p, mark)
  {
    hide AgentFrame, Relays, I.Inv, AllFrom, I.FrameOk, P.LifeOf, Allowed, Told, Following, Consistent, IsTerminalFor;
    RelaysInRange(l, s, b, p, mark);
    NextFrameQueued(l, s, b, p, mark);
    NextFrameOk(l, me, capacity);
    StepRelays(l, Deliver(listing), me, capacity, s, b, p, mark);
    if IsTerminalFor(NextFrame(l), s) {
      DeliverTells(l, listing, me, s, b, mark);
    } else {
      DeliverFollows(l, listing, me, capacity, s, b, g);
      DeliverStepTails(l, AgentFrame(l.reg, me, NextFrame(l), listing), me, capacity, s, b, g, p, mark);
    }
  }

  /** Every step keeps the follower's tail exact, or tells the follower that the session ended. */
  lemma StepKeepsTail(l: Link, step: LinkStep, me: AgentId, capacity: nat, s: SessionId, b: BrowserId, g: P.PtyId, p: nat, mark: nat)
    requires LinkInv(l, me, capacity) && LinkEnabled(l, step, me) && Tailing(l, me, s, b, g, p, mark)
    requires b in LinkNext(l, step, me, capacity).reg.browsers
    ensures TailsOrTold(LinkNext(l, step, me, capacity), me, s, b, g, p, mark)
  {
    hide P.Next, P.Enabled, I.Inv, Apply, AgentFrame, Allowed, Relays, AllFrom, P.LifeOf;
    match step
    case Agent(action) => OwnStepTails(l, action, me, capacity, s, b, g, p, mark);
    case Forward =>
      ForwardRelays(l, s, b, p, mark);
      assert Handled(l.(forwarded := l.forwarded + 1)) == Handled(l);
    case Deliver(listing) => DeliverTailsOrTells(l, listing, me, capacity, s, b, g, p, mark);
    case Server(t) =>
      ElsewhereUndisturbed(l.reg, t, me, s, b);
      ServerStepRelays(l, Apply(l.reg, t), me, s, b, p, mark);
      assert Handled(l.(reg := Apply(l.reg, t))) == Handled(l);
  }

  lemma ToldStays(l: Link, l': Link, s: SessionId, b: BrowserId, mark: nat)
    requires Told(l, s, b, mark) && b in l'.reg.browsers
    requires l.reg.browsers[b].outbox.sent <= l'.reg.browsers[b].outbox.sent
    ensures Told(l', s, b, mark)
  {
    var was, now := l.reg.browsers[b].outbox.sent[mark..], l'.reg.browsers[b].outbox.sent[mark..];
    var i :| 0 <= i < |was| && IsTerminalFor(was[i], s);
    assert now[i] == was[i];
  }

  /** A snapshot of PTY `g` that was queued while `g` was running. */
  ghost predicate ShowsRunning(l: Link, g: P.PtyId) {
    && Handled(l) < |l.agent.queued| && l.agent.queued[Handled(l)].pty == Some(g)
    && P.LifeOf(l.agent.queued[..Handled(l)], g) == P.Alive
  }

  lemma TailStarts(l: Link, step: LinkStep, me: AgentId, capacity: nat, s: SessionId, b: BrowserId, g: P.PtyId)
    requires LinkInv(l, me, capacity) && LinkEnabled(l, step, me) && SnapshotReaches(l, step, me, s, b)
    requires ShowsRunning(l, g)
    requires b in LinkNext(l, step, me, capacity).reg.browsers
    ensures Tailing(LinkNext(l, step, me, capacity), me, s, b, g, Handled(l), Mark(l, b))
  {
    var p, frames := Handled(l), l.agent.queued;
    SnapshotArrives(l, step, me, capacity, s, b);
    Q.FrameAt(frames, l.agent.owners, l.agent.verdicts, capacity, p);
    hide AgentFrame, Relays, I.Inv;
    I.Appended(frames[..p], frames[p], g);
    assert frames[..p + 1] == frames[..p] + [frames[p]];
  }

  ghost predicate StaysRegistered(links: seq<Link>, b: BrowserId, from: nat, n: nat)
    requires n < |links|
  {
    forall i {:trigger links[i]} :: from <= i <= n ==> b in links[i].reg.browsers
  }

  lemma StepTailsOrTells(l: Link, step: LinkStep, me: AgentId, capacity: nat, s: SessionId, b: BrowserId, g: P.PtyId,
                         p: nat, mark: nat)
    requires LinkInv(l, me, capacity) && LinkEnabled(l, step, me) && TailsOrTold(l, me, s, b, g, p, mark)
    requires b in LinkNext(l, step, me, capacity).reg.browsers
    ensures TailsOrTold(LinkNext(l, step, me, capacity), me, s, b, g, p, mark)
    ensures Told(l, s, b, mark) ==> Told(LinkNext(l, step, me, capacity), s, b, mark)
  {
    if Told(l, s, b, mark) {
      LinkSentGrows(l, step, me, capacity, b);
      hide LinkInv, LinkNext;
      ToldStays(l, LinkNext(l, step, me, capacity), s, b, mark);
    } else {
      hide LinkInv, LinkNext, Tailing, Told;
      StepKeepsTail(l, step, me, capacity, s, b, g, p, mark);
    }
  }

  ghost predicate StaysTailing(links: seq<Link>, me: AgentId, s: SessionId, b: BrowserId, g: P.PtyId, p: nat, mark: nat,
                               from: nat, n: nat)
    requires n < |links|
  {
    forall i {:trigger links[i]} :: from <= i <= n ==> Tailing(links[i], me, s, b, g, p, mark)
  }

  lemma TailRunStarts(links: seq<Link>, steps: seq<LinkStep>, me: AgentId, capacity: nat, k: nat, s: SessionId, b: BrowserId, g: P.PtyId)
    requires ShownAt(links, steps, me, capacity, k, s, b) && k + 1 < |links| && b in links[k + 1].reg.browsers
    requires ShowsRunning(links[k], g)
    ensures Tailing(links[k + 1], me, s, b, g, Handled(links[k]), Mark(links[k], b))
  {
    hide ShowsRunning, Tailing, Handled;
    RunStep(links, steps, me, capacity, k);
    hide IsLinkRun, LinkInv, LinkEnabled, LinkNext, SnapshotReaches;
    TailStarts(links[k], steps[k], me, capacity, s, b, g);
  }

  lemma TailGoesOn(links: seq<Link>, steps: seq<LinkStep>, me: AgentId, capacity: nat, i: nat, s: SessionId, b: BrowserId, g: P.PtyId,
                   p: nat, mark: nat)
    requires IsLinkRun(links, steps, me, capacity) && i + 1 < |links| && b in links[i + 1].reg.browsers
    requires TailsOrTold(links[i], me, s, b, g, p, mark)
    ensures TailsOrTold(links[i + 1], me, s, b, g, p, mark)
    ensures Told(links[i], s, b, mark) ==> Told(links[i + 1], s, b, mark)
  {
    hide TailsOrTold, Told;
    RunStep(links, steps, me, capacity, i);
    hide IsLinkRun, LinkInv, LinkEnabled, LinkNext;
    StepTailsOrTells(links[i], steps[i], me, capacity, s, b, g, p, mark);
  }

  /** A registered browser has its tail all along, or has been told that the session ended. */
  lemma {:induction false} TailRun(links: seq<Link>, steps: seq<LinkStep>, me: AgentId, capacity: nat, k: nat, n: nat,
                                   s: SessionId, b: BrowserId, g: P.PtyId)
    requires ShownAt(links, steps, me, capacity, k, s, b) && k < n < |links| && ShowsRunning(links[k], g)
    requires StaysRegistered(links, b, k + 1, n)
    ensures Told(links[n], s, b, Mark(links[k], b))
            || StaysTailing(links, me, s, b, g, Handled(links[k]), Mark(links[k], b), k + 1, n)
    decreases n
  {
    hide ShownAt, IsLinkRun, ShowsRunning, Handled, Mark, Tailing, Told;
    assert b in links[n].reg.browsers;
    if n == k + 1 {
      TailRunStarts(links, steps, me, capacity, k, s, b, g);
    } else {
      TailRun(links, steps, me, capacity, k, n - 1, s, b, g);
      ShownInRun(links, steps, me, capacity, k, s, b);
      TailGoesOn(links, steps, me, capacity, n - 1, s, b, g, Handled(links[k]), Mark(links[k], b));
    }
  }

  lemma NotTold(links: seq<Link>, me: AgentId, s: SessionId, b: BrowserId, g: P.PtyId, p: nat, mark: nat, from: nat, n: nat)
    requires from <= n < |links|
    requires Told(links[n], s, b, mark) || StaysTailing(links, me, s, b, g, p, mark, from, n)
    requires b in links[n].reg.browsers
    requires mark <= |links[n].reg.browsers[b].outbox.sent| ==> !HasTerminal(links[n].reg.browsers[b].outbox.sent[mark..], s)
    ensures Tailing(links[n], me, s, b, g, p, mark) && StaysFollowing(links, me, s, b, from, n)
  {
    assert StaysTailing(links, me, s, b, g, p, mark, from, n);
    assert Tailing(links[n], me, s, b, g, p, mark);
    hide Relays, AllFrom, P.LifeOf;
  }

  lemma SentIsPrefix(st: P.State, capacity: nat, n: nat, g: P.PtyId)
    requires I.Inv(st, capacity) && n <= |st.queued| && g < |st.owners|
    ensures P.Sent(st.queued[..n], g) <= st.streams[g]
  {
    SentThenLabelled(st.queued, n, |st.queued|, g);
    assert st.queued[..|st.queued|] == st.queued;
    assert I.Settled(st, g);
    if st.owners[g] in st.sessions && st.sessions[st.owners[g]].pty == g {
      assert I.SessionOk(st, st.owners[g], capacity);
    }
  }

  /** The terminal tail. In every interleaving within one agent connection: once a browser has been sent a
      snapshot of a running session, then for as long as the browser stays registered and has not been told
      that the session ended, the snapshot followed by every later output frame of the session in the
      browser's queue is an exact suffix of what the PTY produced: the last `capacity` bytes at the snapshot,
      and everything after it that the server has handled. Nothing is missing, repeated or out of order. */
  lemma TerminalTail(
      links: seq<Link>, steps: seq<LinkStep>, me: AgentId, capacity: nat, k: nat, n: nat, s: SessionId, b: BrowserId, g: P.PtyId)
    requires ShownAt(links, steps, me, capacity, k, s, b) && k < n < |links| && ShowsRunning(links[k], g)
    requires StaysRegistered(links, b, k + 1, n)
    requires var mark := Mark(links[k], b);
             var sent := links[n].reg.browsers[b].outbox.sent;
             mark <= |sent| ==> !HasTerminal(sent[mark..], s)
    ensures var p, l := Handled(links[k]), links[n];
            var mark := Mark(links[k], b);
            var sent := l.reg.browsers[b].outbox.sent;
            && mark <= |sent| && p < Handled(l) <= |l.agent.queued| && links[k].agent.queued <= l.agent.queued
            && IsTail(l.agent.queued[p].msg.data + OutputBytes(sent[mark..], s), l.agent.queued, Handled(l), p, g, capacity)
            && g < |l.agent.streams| && P.Sent(l.agent.queued[..Handled(l)], g) <= l.agent.streams[g]
  {
    var p, mark := Handled(links[k]), Mark(links[k], b);
    TailRun(links, steps, me, capacity, k, n, s, b, g);
    NotTold(links, me, s, b, g, p, mark, k + 1, n);
    RunKeepsLinkInv(links, steps, me, capacity, n);
    hide IsTail, P.Sent, P.LifeOf, OutputBytes, AllFrom, IsLinkRun, Relays, I.Inv, Told, StaysTailing;
    TailExactly(links, steps, me, capacity, k, n, s, b, g);
    SentIsPrefix(links[n].agent, capacity, Handled(links[n]), g);
  }
}
