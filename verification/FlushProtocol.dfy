/**
  The flush protocol end to end: how many batches a reconnect flush takes on the relay
  (relay/internal/hub/hub.go) and how the agent's countdown follows it
  (skill/src/message-manager.ts).
 */
module FlushProtocol {
  import opened Common
  import opened QueueKeys
  import opened Wire
  import opened MessageQueues
  import opened Relay
  import opened Lanes

  // ---------- the agent's countdown ----------

  /** A call of waitForFlush: its promise is open, was resolved, or was rejected by its timer. */
  datatype Outcome = Open | Completed | Rejected

  /**
    `waiting` is the wait that the handler would resolve. Waits are numbered in `outcomes`, and each
    starts a timer of its number that nothing clears.
   */
  datatype Countdown = Countdown(remaining: int, statusReceived: bool, waiting: Option<nat>, outcomes: seq<Outcome>,
                                 timers: set<nat>)

  const FRESH := Countdown(-1, false, None, [], {})

  function Settle(outcomes: seq<Outcome>, i: nat, o: Outcome): seq<Outcome> {
    if i < |outcomes| && outcomes[i] == Open then outcomes[i := o] else outcomes
  }

  /** The count that a frame announces: the handler looks at the type alone, not at the sender. */
  function Announced(f: Frame): Option<int> {
    match f
    case QueueStatus(n) => Some(n)
    case Relayed(envelope) => if envelope.body.Status? then Some(envelope.body.pending) else None
    case _ => None
  }

  function OnFrame(c: Countdown, f: Frame): Countdown {
    var ticked :=
      if c.remaining <= 0 then c
      else if c.remaining == 1 && c.waiting.Some? then
        c.(remaining := 0, waiting := None, outcomes := Settle(c.outcomes, c.waiting.value, Completed))
      else c.(remaining := c.remaining - 1);
    if Announced(f).Some? then ticked.(remaining := Announced(f).value, statusReceived := true) else ticked
  }

  function OnFrames(c: Countdown, fs: seq<Frame>): Countdown {
    if fs == [] then c else OnFrame(OnFrames(c, fs[..|fs| - 1]), fs[|fs| - 1])
  }

  /** waitForFlush after its grace period: nothing outstanding, the open promise, or a new one with a timer. */
  function Waited(c: Countdown): Countdown {
    if c.remaining <= 0 || c.waiting.Some? then c
    else c.(waiting := Some(|c.outcomes|), outcomes := c.outcomes + [Open], timers := c.timers + {|c.outcomes|})
  }

  /** A timer drops whatever is being waited for and counted, and rejects its own promise. */
  function Fired(c: Countdown, i: nat): Countdown {
    if i !in c.timers then c
    else Countdown(0, c.statusReceived, None, Settle(c.outcomes, i, Rejected), c.timers - {i})
  }

  /** A new manager remembers whether a count was announced; until then nothing is outstanding. */
  lemma {:induction false} BeforeAnnouncement(fs: seq<Frame>)
    ensures var c := OnFrames(FRESH, fs);
            && (c.statusReceived <==> exists f :: f in fs && Announced(f).Some?)
            && (!c.statusReceived ==> c.remaining < 0 && c.outcomes == [] && Waited(c) == c)
  {
    if fs != [] {
      BeforeAnnouncement(fs[..|fs| - 1]);
      assert fs == fs[..|fs| - 1] + [fs[|fs| - 1]];
    }
  }

  class MessageManager {
    var flushRemaining: int
    var queueStatusReceived: bool
    var flushPromise: Option<nat>
    var outcomes: seq<Outcome>
    var timers: set<nat>

    ghost function View(): Countdown
      reads this
    {
      Countdown(flushRemaining, queueStatusReceived, flushPromise, outcomes, timers)
    }

    constructor ()
      ensures View() == FRESH
    {
      flushRemaining, queueStatusReceived, flushPromise, outcomes, timers := -1, false, None, [], {};
    }

    /** Returns the promise to wait for, or nothing when nothing is outstanding. */
    method WaitForFlush() returns (promise: Option<nat>)
      modifies this
      ensures View() == Waited(old(View()))
      ensures promise.None? <==> old(flushRemaining) <= 0
      ensures promise.Some? ==> promise == flushPromise
    {
      if flushRemaining <= 0 {
        return None;
      }
      if flushPromise.None? {
        flushPromise := Some(|outcomes|);
        timers := timers + {|outcomes|};
        outcomes := outcomes + [Open];
      }
      return flushPromise;
    }

    /** The timer callback of wait i. */
    method FlushTimeout(i: nat)
      requires i in timers
      modifies this
      ensures View() == Fired(old(View()), i)
    {
      timers := timers - {i};
      flushPromise := None;
      flushRemaining := 0;
      outcomes := Settle(outcomes, i, Rejected);
    }

    /** The envelope handler: every frame counts down, then an announcement resets. */
    method HandleEnvelope(f: Frame)
      modifies this
      ensures View() == OnFrame(old(View()), f)
    {
      if flushRemaining > 0 {
        flushRemaining := flushRemaining - 1;
        if flushRemaining <= 0 && flushPromise.Some? {
          outcomes := Settle(outcomes, flushPromise.value, Completed);
          flushPromise := None;
        }
      }
      var announced := Announced(f);
      if announced.Some? {
        flushRemaining := announced.value;
        queueStatusReceived := true;
      }
    }
  }

  ghost predicate NoStatus(fs: seq<Frame>) {
    forall i :: 0 <= i < |fs| ==> Announced(fs[i]).None?
  }

  /** A count of n after m more frames: what is not positive is never counted down. */
  function Residue(n: int, m: nat): int {
    if n <= 0 then n else Max(n - m, 0)
  }

  /** The countdown depends on the last announcement and the number of frames after it, and on nothing else. */
  lemma {:induction false} CountdownFollows(c: Countdown, f: Frame, fs: seq<Frame>)
    requires Announced(f).Some? && NoStatus(fs)
    ensures var after := OnFrames(OnFrame(c, f), fs);
            && after.remaining == Residue(Announced(f).value, |fs|)
            && after.statusReceived
  {
    if fs != [] {
      CountdownFollows(c, f, fs[..|fs| - 1]);
    }
  }

  lemma {:induction false} OnFramesConcat(c: Countdown, fs: seq<Frame>, gs: seq<Frame>)
    ensures OnFrames(c, fs + gs) == OnFrames(OnFrames(c, fs), gs)
  {
    if gs == [] {
      assert fs + gs == fs;
    } else {
      OnFramesConcat(c, fs, gs[..|gs| - 1]);
      assert (fs + gs)[..|fs + gs| - 1] == fs + gs[..|gs| - 1];
    }
  }

  // ---------- waits and their timers ----------

  datatype AgentStep = Receive(frame: Frame) | Wait | Fire(timer: nat)

  function AgentDoes(c: Countdown, e: AgentStep): Countdown {
    match e
    case Receive(f) => OnFrame(c, f)
    case Wait => Waited(c)
    case Fire(i) => Fired(c, i)
  }

  function AgentRun(c: Countdown, es: seq<AgentStep>): Countdown {
    if es == [] then c else AgentDoes(AgentRun(c, es[..|es| - 1]), es[|es| - 1])
  }

  /** Waits are numbered consistently, and only the current one can still be completed. */
  ghost predicate WaitsOk(c: Countdown) {
    && (c.waiting.Some? ==> c.waiting.value < |c.outcomes| && c.outcomes[c.waiting.value] == Open)
    && (forall i :: i in c.timers ==> i < |c.outcomes|)
  }

  lemma {:induction false} AgentKeepsWaits(c: Countdown, es: seq<AgentStep>)
    requires WaitsOk(c)
    ensures WaitsOk(AgentRun(c, es)) && |AgentRun(c, es).outcomes| >= |c.outcomes|
  {
    if es != [] {
      AgentKeepsWaits(c, es[..|es| - 1]);
    }
  }

  /** The steps before the first firing of a running timer. */
  function UntilFire(es: seq<AgentStep>, timers: set<nat>): seq<AgentStep> {
    if es == [] || (es[0].Fire? && es[0].timer in timers) then [] else [es[0]] + UntilFire(es[1..], timers)
  }

  function FrameCount(es: seq<AgentStep>): nat {
    if es == [] then 0 else FrameCount(es[..|es| - 1]) + (if es[|es| - 1].Receive? then 1 else 0)
  }

  ghost predicate Unannounced(es: seq<AgentStep>) {
    forall i :: 0 <= i < |es| && es[i].Receive? ==> Announced(es[i].frame).None?
  }

  ghost predicate NoFire(es: seq<AgentStep>, timers: set<nat>) {
    forall i :: 0 <= i < |es| && es[i].Fire? ==> es[i].timer !in timers
  }

  /** `c` has just started, or is still at, wait w for n more frames. */
  ghost predicate WaitingFor(c: Countdown, w: nat, n: int) {
    WaitsOk(c) && c.waiting == Some(w) && c.remaining == n && n > 0
  }

  /** Without a firing a wait of n completes exactly from the n-th frame on. */
  lemma {:induction false} UndisturbedWait(c: Countdown, w: nat, n: int, es: seq<AgentStep>)
    requires WaitingFor(c, w, n) && Unannounced(es) && NoFire(es, c.timers)
    ensures var after := AgentRun(c, es);
            && w < |after.outcomes| && after.timers == c.timers && |after.outcomes| == |c.outcomes|
            && after.remaining == Max(n - FrameCount(es), 0)
            && after.waiting == (if FrameCount(es) < n then Some(w) else None)
            && after.outcomes[w] == (if FrameCount(es) < n then Open else Completed)
  {
    if es != [] {
      UndisturbedWait(c, w, n, es[..|es| - 1]);
    }
  }

  /** A wait that is no longer the current one is never completed by anything. */
  lemma {:induction false} LostWait(c: Countdown, w: nat, es: seq<AgentStep>)
    requires WaitsOk(c) && w < |c.outcomes| && c.waiting != Some(w)
    ensures var after := AgentRun(c, es);
            && w < |after.outcomes| && after.waiting != Some(w)
            && (after.outcomes[w] == Completed <==> c.outcomes[w] == Completed)
  {
    AgentKeepsWaits(c, es);
    if es != [] {
      var before := es[..|es| - 1];
      LostWait(c, w, before);
      AgentKeepsWaits(c, before);
    }
  }

  lemma {:induction false} AgentRunConcat(c: Countdown, es: seq<AgentStep>, fs: seq<AgentStep>)
    ensures AgentRun(c, es + fs) == AgentRun(AgentRun(c, es), fs)
  {
    if fs == [] {
      assert es + fs == es;
    } else {
      AgentRunConcat(c, es, fs[..|fs| - 1]);
      assert (es + fs)[..|es + fs| - 1] == es + fs[..|fs| - 1];
    }
  }

  lemma {:induction false} UntilFireSplits(es: seq<AgentStep>, timers: set<nat>)
    ensures var u := UntilFire(es, timers);
            && |u| <= |es| && es[..|u|] == u && NoFire(u, timers)
            && (|u| < |es| ==> es[|u|].Fire? && es[|u|].timer in timers)
  {
    if es != [] && !(es[0].Fire? && es[0].timer in timers) {
      UntilFireSplits(es[1..], timers);
      var u := UntilFire(es[1..], timers);
      assert es[..|u| + 1] == [es[0]] + es[1..][..|u|];
    }
  }

  /**
    A wait of n completes exactly when n frames arrive before any timer that is running when it
    starts fires: its own, or that of an earlier wait, completed or not.
   */
  lemma {:induction false} WaitCompletes(c: Countdown, w: nat, n: int, es: seq<AgentStep>)
    requires WaitingFor(c, w, n) && Unannounced(es)
    ensures var after := AgentRun(c, es);
            w < |after.outcomes| && (after.outcomes[w] == Completed <==> FrameCount(UntilFire(es, c.timers)) >= n)
  {
    var u := UntilFire(es, c.timers);
    UntilFireSplits(es, c.timers);
    forall i | 0 <= i < |u| && u[i].Receive? ensures Announced(u[i].frame).None? {
      assert u[i] == es[i];
    }
    UndisturbedWait(c, w, n, u);
    AgentKeepsWaits(c, u);
    AgentRunConcat(c, u, es[|u|..]);
    assert es == u + es[|u|..];
    if |u| < |es| {
      FiredWait(AgentRun(c, u), w, es[|u|..]);
    }
  }

  /** The fate of a wait when its own timer is the first to fire: rejected exactly if too few frames had come. */
  lemma {:induction false} OwnTimerRejects(c: Countdown, w: nat, n: int, es: seq<AgentStep>)
    requires WaitingFor(c, w, n) && Unannounced(es) && NoFire(es, c.timers) && w in c.timers
    ensures var after := AgentRun(c, es + [Fire(w)]);
            && w < |after.outcomes| && after.timers == c.timers - {w} && after.remaining == 0 && after.waiting == None
            && after.outcomes[w] == (if FrameCount(es) < n then Rejected else Completed)
  {
    UndisturbedWait(c, w, n, es);
    assert (es + [Fire(w)])[..|es|] == es;
  }

  /** Starting a wait: one new open promise with its own timer, only if something is outstanding and none is open. */
  lemma {:induction false} WaitStarts(c: Countdown)
    ensures var c' := Waited(c);
            && c'.remaining == c.remaining && c'.statusReceived == c.statusReceived
            && (if c.remaining > 0 && c.waiting.None?
                then && c'.outcomes == c.outcomes + [Open] && c'.waiting == Some(|c.outcomes|)
                     && c'.timers == c.timers + {|c.outcomes|}
                else c' == c)
  {
  }

  /** Once a running timer fires, an open wait is lost and a completed one stays completed. */
  lemma {:induction false} FiredWait(c: Countdown, w: nat, es: seq<AgentStep>)
    requires WaitsOk(c) && w < |c.outcomes| && es != [] && es[0].Fire? && es[0].timer in c.timers
    ensures var after := AgentRun(c, es);
            w < |after.outcomes| && (after.outcomes[w] == Completed <==> c.outcomes[w] == Completed)
  {
    AgentRunConcat(c, [es[0]], es[1..]);
    assert es == [es[0]] + es[1..] && [es[0]][..0] == [];
    assert AgentRun(c, [es[0]]) == Fired(c, es[0].timer);
    LostWait(Fired(c, es[0].timer), w, es[1..]);
  }

  /** Two flushes of one agent: the first wait completes, and its timer then ends the second. */
  const STALE_TIMER: seq<AgentStep> :=
    [Receive(QueueStatus(1)), Wait, Receive(RateLimited)] + [Receive(QueueStatus(2)), Wait, Fire(0)]

  lemma {:induction false} RunTriple(c: Countdown, e1: AgentStep, e2: AgentStep, e3: AgentStep)
    ensures AgentRun(c, [e1, e2, e3]) == AgentDoes(AgentDoes(AgentDoes(c, e1), e2), e3)
  {
    assert [e1, e2, e3][..2] == [e1, e2] && [e1, e2][..1] == [e1] && [e1][..0] == [];
    assert AgentRun(c, [e1]) == AgentDoes(c, e1);
    assert AgentRun(c, [e1, e2]) == AgentDoes(AgentDoes(c, e1), e2);
  }

  lemma {:induction false} StaleTimerEndsNextWait(more: seq<AgentStep>)
    ensures var c := AgentRun(FRESH, STALE_TIMER);
            && c.outcomes == [Completed, Open] && c.remaining == 0 && c.timers == {1}
            && var after := AgentRun(FRESH, STALE_TIMER + more);
               |after.outcomes| >= 2 && after.outcomes[0] == Completed && after.outcomes[1] != Completed
  {
    var first := [Receive(QueueStatus(1)), Wait, Receive(RateLimited)];
    var second := [Receive(QueueStatus(2)), Wait, Fire(0)];
    RunTriple(FRESH, Receive(QueueStatus(1)), Wait, Receive(RateLimited));
    var mid := AgentRun(FRESH, first);
    assert mid == Countdown(0, true, None, [Completed], {0});
    RunTriple(mid, Receive(QueueStatus(2)), Wait, Fire(0));
    AgentRunConcat(FRESH, first, second);
    var c := AgentRun(FRESH, STALE_TIMER);
    assert c == Countdown(0, true, None, [Completed, Open], {1});
    AgentRunConcat(FRESH, STALE_TIMER, more);
    LostWait(c, 0, more);
    LostWait(c, 1, more);
  }

  // ---------- draining on the relay ----------

  /** Flush iterations of one client, the clock being set before each. */
  function Drain(cfg: Config, s: System, id: ClientId, times: seq<int64>): System
    decreases times
  {
    if times == [] then s
    else Drain(cfg, Step(cfg, Step(cfg, s, Tick(times[0])), FlushBatch(id)), id, times[1..])
  }

  predicate ClockFrom(now: int, times: seq<int64>)
    decreases times
  {
    times == [] || (now <= times[0] && ClockFrom(times[0], times[1..]))
  }

  function LiveOf(cfg: Config, s: System, a: string): seq<Entry> {
    LiveEntries(BucketOf(s, a).entries, s.hub.now, cfg.ttl)
  }

  function BatchesFor(n: nat): nat {
    (n + 49) / 50
  }

  ghost predicate Flushing(s: System, id: ClientId, a: string) {
    id in s.hub.clients && s.hub.clients[id].address == a && s.hub.clients[id].flushing && !s.hub.clients[id].cancelled
  }

  /** The effect of one iteration on the recipient. */
  lemma {:induction false} DrainOnce(cfg: Config, s: System, id: ClientId, a: string)
    requires Flushing(s, id, a) && Sorted(BucketOf(s, a).entries)
    ensures var live, s' := LiveOf(cfg, s, a), Step(cfg, s, FlushBatch(id));
            && s'.hub.now == s.hub.now
            && Sorted(BucketOf(s', a).entries)
            && LiveOf(cfg, s', a) == live[Min(FLUSH_BATCH_SIZE, |live|)..]
            && LaneOf(s', a).handed == LaneOf(s, a).handed + EnvelopesOf(Take(live, FLUSH_BATCH_SIZE))
            && id in s'.hub.clients && s'.hub.clients[id].address == a && !s'.hub.clients[id].cancelled
            && (s'.hub.clients[id].flushing <==> live != [])
  {
    var es := BucketOf(s, a).entries;
    BatchRemoved(es, s.hub.now, cfg.ttl, FLUSH_BATCH_SIZE);
    WithoutSorted(es, KeysOf(Batch(es, s.hub.now, cfg.ttl, FLUSH_BATCH_SIZE)));
  }

  lemma {:induction false} TickKeeps(cfg: Config, s: System, id: ClientId, a: string, t: int64)
    requires s.hub.now <= t
    ensures var s', live := Step(cfg, s, Tick(t)), LiveOf(cfg, s, a);
            && s'.hub.clients == s.hub.clients && s'.log == s.log && s'.hub.now == t
            && BucketOf(s', a) == BucketOf(s, a)
            && LiveOf(cfg, s', a) == LiveEntries(live, t, cfg.ttl)
            && |LiveOf(cfg, s', a)| <= |live|
  {
    LiveShrinks(BucketOf(s, a).entries, s.hub.now, t, cfg.ttl);
    LiveMembers(LiveOf(cfg, s, a), t, cfg.ttl);
  }

  /** A client that is not flushing is left alone by further iterations. */
  lemma {:induction false} DrainIdle(cfg: Config, s: System, id: ClientId, a: string, times: seq<int64>)
    requires id in s.hub.clients && !s.hub.clients[id].flushing && LiveOf(cfg, s, a) == []
    requires ClockFrom(s.hub.now, times)
    ensures var end := Drain(cfg, s, id, times);
            id in end.hub.clients && !end.hub.clients[id].flushing && LiveOf(cfg, end, a) == []
    decreases times
  {
    if times != [] {
      TickKeeps(cfg, s, id, a, times[0]);
      DrainIdle(cfg, Step(cfg, Step(cfg, s, Tick(times[0])), FlushBatch(id)), id, a, times[1..]);
    }
  }

  lemma {:induction false} BatchesShrink(n: nat, m: nat)
    requires 0 < m <= n
    ensures BatchesFor(m - Min(FLUSH_BATCH_SIZE, m)) + 1 <= BatchesFor(n)
  {
  }

  /**
    With nothing enqueued meanwhile, a flush of n deliverable entries has ended after at most
    ceil(n/50) non-empty batches and one empty one, however the clock advances in between.
   */
  lemma {:induction false} FlushTerminates(cfg: Config, s: System, id: ClientId, a: string, times: seq<int64>)
    requires Flushing(s, id, a) && Sorted(BucketOf(s, a).entries) && ClockFrom(s.hub.now, times)
    requires |times| > BatchesFor(|LiveOf(cfg, s, a)|)
    ensures var end := Drain(cfg, s, id, times);
            id in end.hub.clients && !end.hub.clients[id].flushing && LiveOf(cfg, end, a) == []
    decreases times
  {
    var ticked := Step(cfg, s, Tick(times[0]));
    var s' := Step(cfg, ticked, FlushBatch(id));
    var n, m := |LiveOf(cfg, s, a)|, |LiveOf(cfg, ticked, a)|;
    TickKeeps(cfg, s, id, a, times[0]);
    DrainOnce(cfg, ticked, id, a);
    if m == 0 {
      DrainIdle(cfg, s', id, a, times[1..]);
    } else {
      BatchesShrink(n, m);
      FlushTerminates(cfg, s', id, a, times[1..]);
    }
  }

  function Still(now: int64, k: nat): seq<int64> {
    seq(k, _ => now)
  }

  /**
    When nothing expires on the way, k iterations hand over exactly the first min(n, 50k)
    entries in order, and the flag is still set exactly while k <= ceil(n/50).
   */
  lemma {:induction false} FlushProgress(cfg: Config, s: System, id: ClientId, a: string, k: nat)
    requires Flushing(s, id, a) && Sorted(BucketOf(s, a).entries)
    ensures var live, end := LiveOf(cfg, s, a), Drain(cfg, s, id, Still(s.hub.now, k));
            && LaneOf(end, a).handed == LaneOf(s, a).handed + EnvelopesOf(Take(live, 50 * k))
            && id in end.hub.clients
            && (end.hub.clients[id].flushing <==> k <= BatchesFor(|live|))
  {
    HandedProgress(cfg, s, id, a, k);
    FlagProgress(cfg, s, id, a, k);
  }

  lemma {:induction false} FlagProgress(cfg: Config, s: System, id: ClientId, a: string, k: nat)
    requires Flushing(s, id, a) && Sorted(BucketOf(s, a).entries)
    ensures var live, end := LiveOf(cfg, s, a), Drain(cfg, s, id, Still(s.hub.now, k));
            id in end.hub.clients && (end.hub.clients[id].flushing <==> k <= BatchesFor(|live|))
    decreases k
  {
    if k > 0 {
      var live, s' := LiveOf(cfg, s, a), Step(cfg, s, FlushBatch(id));
      DrainOnce(cfg, s, id, a);
      DrainStill(cfg, s, id, k);
      if live == [] {
        DrainStays(cfg, s', id, a, k - 1);
      } else {
        FlagProgress(cfg, s', id, a, k - 1);
        BatchesStep(|live|);
      }
    }
  }

  lemma {:induction false} HandedProgress(cfg: Config, s: System, id: ClientId, a: string, k: nat)
    requires Flushing(s, id, a) && Sorted(BucketOf(s, a).entries)
    ensures var live, end := LiveOf(cfg, s, a), Drain(cfg, s, id, Still(s.hub.now, k));
            LaneOf(end, a).handed == LaneOf(s, a).handed + EnvelopesOf(Take(live, FLUSH_BATCH_SIZE * k))
    decreases k
  {
    var live := LiveOf(cfg, s, a);
    if k == 0 {
      assert LaneOf(s, a).handed + [] == LaneOf(s, a).handed;
    } else {
      var s' := Step(cfg, s, FlushBatch(id));
      DrainOnce(cfg, s, id, a);
      DrainStill(cfg, s, id, k);
      if live == [] {
        DrainStays(cfg, s', id, a, k - 1);
      } else {
        HandedProgress(cfg, s', id, a, k - 1);
      }
      HandedTwice(LaneOf(s, a).handed, live, k);
    }
  }

  lemma {:induction false} DrainStays(cfg: Config, s: System, id: ClientId, a: string, k: nat)
    requires id in s.hub.clients && !s.hub.clients[id].flushing
    ensures Drain(cfg, s, id, Still(s.hub.now, k)) == s
    decreases k
  {
    if k > 0 {
      DrainStill(cfg, s, id, k);
      assert Step(cfg, s, FlushBatch(id)) == s;
      DrainStays(cfg, s, id, a, k - 1);
    }
  }

  lemma {:induction false} DrainStill(cfg: Config, s: System, id: ClientId, k: nat)
    requires k > 0
    ensures Drain(cfg, s, id, Still(s.hub.now, k))
            == Drain(cfg, Step(cfg, s, FlushBatch(id)), id, Still(s.hub.now, k - 1))
  {
    assert Step(cfg, s, Tick(s.hub.now)) == s;
    assert Still(s.hub.now, k)[1..] == Still(s.hub.now, k - 1);
  }

  lemma {:induction false} HandedTwice(before: seq<Envelope>, live: seq<Entry>, k: nat)
    requires k > 0
    ensures before + EnvelopesOf(Take(live, FLUSH_BATCH_SIZE * k))
         == before + EnvelopesOf(Take(live, FLUSH_BATCH_SIZE))
            + EnvelopesOf(Take(live[Min(FLUSH_BATCH_SIZE, |live|)..], FLUSH_BATCH_SIZE * (k - 1)))
  {
    var rest := live[Min(FLUSH_BATCH_SIZE, |live|)..];
    TakeTwice(live, FLUSH_BATCH_SIZE, FLUSH_BATCH_SIZE * (k - 1));
    EnvelopesConcat(Take(live, FLUSH_BATCH_SIZE), Take(rest, FLUSH_BATCH_SIZE * (k - 1)));
  }

  lemma {:induction false} BatchesStep(n: nat)
    requires n > 0
    ensures BatchesFor(n) == BatchesFor(n - Min(FLUSH_BATCH_SIZE, n)) + 1
  {
  }

  lemma {:induction false} TakeTwice<T>(xs: seq<T>, m: nat, n: nat)
    ensures Take(xs, m + n) == Take(xs, m) + Take(xs[Min(m, |xs|)..], n)
  {
  }

  // ---------- flushing among clock ticks and socket writes ----------

  /** While a flush runs undisturbed: time passes, batches go out, frames are written to sockets. */
  ghost predicate Undisturbed(e: Event, id: ClientId) {
    e.Tick? || e == FlushBatch(id) || e.WriteFrame?
  }

  ghost predicate Attended(cfg: Config, s: System, id: ClientId, a: string) {
    && id in s.hub.clients && s.hub.clients[id].address == a && !s.hub.clients[id].cancelled
    && Sorted(BucketOf(s, a).entries)
    && (s.hub.clients[id].flushing || LiveOf(cfg, s, a) == [])
  }

  /** Every announced entry is queued, in the client's buffer, or was dropped by a full one. */
  ghost function Accounted(s: System, a: string): nat {
    |LaneOf(s, a).placed| + |LaneOf(s, a).dropped| + |BucketOf(s, a).entries|
  }

  lemma {:induction false} BatchCount(es: seq<Entry>, now: int, ttl: int, n: int)
    requires Sorted(es)
    ensures |Without(es, KeysOf(Batch(es, now, ttl, n)))| + |Batch(es, now, ttl, n)| == |es|
  {
    if n <= 0 {
      WithoutNothing(es);
      assert KeysOf(Batch(es, now, ttl, n)) == {};
    } else if es != [] {
      SortedTail(es);
      if Live(es[0], now, ttl) {
        BatchCount(es[1..], now, ttl, n - 1);
        BatchLiveHead(es, now, ttl, n);
      } else {
        BatchCount(es[1..], now, ttl, n);
        BatchDeadHead(es, now, ttl, n);
      }
    }
  }

  /** Progress of a flush: nothing is unaccounted for, and buffers and drops only grow. */
  ghost predicate Progress(s: System, s': System, a: string) {
    && Accounted(s', a) == Accounted(s, a)
    && LaneOf(s, a).placed <= LaneOf(s', a).placed
    && |LaneOf(s, a).dropped| <= |LaneOf(s', a).dropped|
  }

  lemma {:induction false} BatchEffect(cfg: Config, s: System, id: ClientId, a: string)
    requires Flushing(s, id, a)
    ensures var es, s' := BucketOf(s, a).entries, Step(cfg, s, FlushBatch(id));
            var batch := Batch(es, s.hub.now, cfg.ttl, FLUSH_BATCH_SIZE);
            var handed := Hand(LaneOf(s, a), EnvelopesOf(batch), |s.hub.clients[id].buffer|);
            && LaneOf(s', a) == handed.(flushedKeys := LaneOf(s', a).flushedKeys)
            && BucketOf(s', a).entries == Without(es, KeysOf(batch))
  {
    WithoutNothing(BucketOf(s, a).entries);
    assert KeysOf([]) == {};
  }

  lemma {:induction false} BatchMessages(es: seq<Entry>, now: int, ttl: int, n: int)
    requires Sorted(es)
    ensures |EnvelopesOf(Batch(es, now, ttl, n))| == |Batch(es, now, ttl, n)|
  {
    BatchFacts(es, now, ttl, n);
    AllMessages(Batch(es, now, ttl, n));
  }

  lemma {:induction false} HandCount(lane: Lane, envelopes: seq<Envelope>, buffered: nat)
    ensures var l := Hand(lane, envelopes, buffered);
            && |l.placed| + |l.dropped| == |lane.placed| + |lane.dropped| + |envelopes|
            && lane.placed <= l.placed && |lane.dropped| <= |l.dropped|
  {
    TakeSplits(envelopes, SEND_BUFFER_SIZE - buffered);
  }

  lemma {:induction false} FlushProgresses(cfg: Config, s: System, id: ClientId, a: string)
    requires Flushing(s, id, a) && Sorted(BucketOf(s, a).entries)
    ensures Progress(s, Step(cfg, s, FlushBatch(id)), a)
  {
    var es := BucketOf(s, a).entries;
    var batch := Batch(es, s.hub.now, cfg.ttl, FLUSH_BATCH_SIZE);
    BatchEffect(cfg, s, id, a);
    BatchCount(es, s.hub.now, cfg.ttl, FLUSH_BATCH_SIZE);
    BatchMessages(es, s.hub.now, cfg.ttl, FLUSH_BATCH_SIZE);
    HandCount(LaneOf(s, a), EnvelopesOf(batch), |s.hub.clients[id].buffer|);
  }

  lemma {:induction false} UndisturbedStep(cfg: Config, s: System, e: Event, id: ClientId, a: string)
    requires Attended(cfg, s, id, a) && EventOk(s, e) && Undisturbed(e, id)
    ensures Attended(cfg, Step(cfg, s, e), id, a) && Progress(s, Step(cfg, s, e), a)
  {
    if e.Tick? {
      TickKeeps(cfg, s, id, a, e.time);
    } else if e.FlushBatch? && s.hub.clients[id].flushing {
      DrainOnce(cfg, s, id, a);
      FlushProgresses(cfg, s, id, a);
    }
  }

  lemma {:induction false} AllMessages(es: seq<Entry>)
    requires forall e :: e in es ==> e.value.Message?
    ensures |EnvelopesOf(es)| == |es|
  {
    if es != [] {
      assert es[0] in es;
      AllMessages(es[1..]);
    }
  }

  lemma {:induction false} AllLive(es: seq<Entry>, now: int, ttl: int)
    ensures |LiveEntries(es, now, ttl)| == |es| <==> forall e :: e in es ==> Live(e, now, ttl)
    ensures |LiveEntries(es, now, ttl)| <= |es|
  {
    if es != [] {
      AllLive(es[1..], now, ttl);
      assert es == [es[0]] + es[1..];
    }
  }
}
