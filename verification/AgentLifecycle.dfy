/** The agent's `ResourceMonitor`: start, stop, automatic start and the recovery loop, as steps serialised by
    the transition lock. */
module AgentLifecycle {
  import opened Options

  datatype Mode = Stopped | Degraded | Running

  // How an attempt to announce the cluster to the control plane ended.
  datatype Outcome = Connected | ServerUnknown | Unreachable

  // `live` are the watcher and heartbeat tasks that run, `watcher` and `beat` those the monitor knows of;
  // `recovery` is the delay of the pending recovery loop, and `file` the persisted URL.
  datatype Agent = Agent(
    mode: Mode, client: Option<string>, watcher: Option<nat>, beat: Option<nat>, live: set<nat>, next: nat,
    recovery: Option<nat>, file: Option<string>)

  const FIRST_DELAY: nat := 5
  const MAX_DELAY: nat := 300

  function ToSet(o: Option<nat>): set<nat> {
    if o.Some? then {o.value} else {}
  }

  // ---- The critical sections ----

  function StopTasks(a: Agent): Agent {
    a.(mode := Stopped, watcher := None, beat := None, live := a.live - ToSet(a.watcher) - ToSet(a.beat))
  }

  function TryConnect(a: Agent, url: string, outcome: Outcome): Agent {
    if a.mode.Running? then a
    else
      var b := a.(client := Some(url));
      match outcome
      case Connected =>
        b.(mode := Running, beat := Some(b.next), watcher := Some(b.next + 1), live := b.live + {b.next, b.next + 1},
           next := b.next + 2)
      case ServerUnknown => StopTasks(b).(file := None)
      case Unreachable => b.(mode := Degraded)
  }

  // Whether there is nothing left to retry.
  predicate Settled(a: Agent, outcome: Outcome) {
    a.mode.Running? || !outcome.Unreachable?
  }

  function EnsureRecovery(a: Agent): Agent {
    if a.recovery.Some? then a else a.(recovery := Some(FIRST_DELAY))
  }

  function Connect(a: Agent, url: string, outcome: Outcome): Agent {
    var b := TryConnect(a, url, outcome);
    if Settled(a, outcome) then b else EnsureRecovery(b)
  }

  function Load(a: Agent, usable: string -> bool): Option<string> {
    if a.file.Some? && usable(a.file.value) then a.file else None
  }

  function Stop(a: Agent, removed: bool): Agent {
    var b := StopTasks(a).(recovery := None);
    if b.client.Some? && removed then b.(file := None) else b
  }

  // One turn of the recovery loop, once its sleep is over.
  function Retry(a: Agent, outcome: Outcome, usable: string -> bool): Agent {
    if a.recovery.None? then a
    else if !a.mode.Degraded? then a.(recovery := None)
    else
      var url := Load(a, usable);
      if url.None? then StopTasks(a).(file := None, recovery := None)
      else
        var b := TryConnect(a, url.value, outcome);
        if Settled(a, outcome) then b.(recovery := None)
        else b.(recovery := Some(if 2 * a.recovery.value < MAX_DELAY then 2 * a.recovery.value else MAX_DELAY))
  }

  // Nothing comes between the reading of the URL and the free lock, so an automatic start is one step.
  datatype Event =
    | StartRequest(url: string, outcome: Outcome)
    | StopRequest(removed: bool)
    | RecoveryTurn(outcome: Outcome)
    | AutoStart(outcome: Outcome)
    | Reboot

  function Next(a: Agent, e: Event, usable: string -> bool): Agent {
    match e
    case StartRequest(url, outcome) => Connect(a.(file := Some(url)), url, outcome)
    case StopRequest(removed) => Stop(a, removed)
    case RecoveryTurn(outcome) => Retry(a, outcome, usable)
    case AutoStart(outcome) =>
      var url := Load(a, usable);
      if url.None? then a else Connect(a, url.value, outcome)
    case Reboot => Agent(Stopped, None, None, None, {}, a.next, None, a.file)
  }

  function Run(a: Agent, es: seq<Event>, usable: string -> bool): Agent {
    if es == [] then a else Next(Run(a, es[..|es| - 1], usable), es[|es| - 1], usable)
  }

  /** The monitor, changing its fields in place. */
  class Monitor {
    var mode: Mode
    var client: Option<string>
    var watcher: Option<nat>
    var beat: Option<nat>
    var live: set<nat>
    var next: nat
    var recovery: Option<nat>
    var file: Option<string>
    const usable: string -> bool

    constructor (usable: string -> bool, file: Option<string>)
      ensures Contents() == Agent(Stopped, None, None, None, {}, 0, None, file)
      ensures this.usable == usable
    {
      this.usable := usable;
      this.file := file;
      mode, client, watcher, beat, live, next, recovery := Stopped, None, None, None, {}, 0, None;
    }

    function Contents(): Agent
      reads this
    {
      Agent(mode, client, watcher, beat, live, next, recovery, file)
    }

    method StopMonitoringTasks()
      modifies this
      ensures Contents() == StopTasks(old(Contents()))
    {
      if watcher.Some? {
        live := live - {watcher.value};
      }
      if beat.Some? {
        live := live - {beat.value};
      }
      watcher, beat, mode := None, None, Stopped;
    }

    method StartMonitoringTasks()
      modifies this
      ensures Contents() == old(Contents()).(mode := Running, beat := Some(old(next)), watcher := Some(old(next) + 1),
                                             live := old(live) + {old(next), old(next) + 1}, next := old(next) + 2)
    {
      beat := Some(next);
      live := live + {next};
      watcher := Some(next + 1);
      live := live + {next + 1};
      next := next + 2;
      mode := Running;
    }

    method AttemptConnection(url: string, outcome: Outcome) returns (settled: bool)
      modifies this
      ensures Contents() == TryConnect(old(Contents()), url, outcome)
      ensures settled == Settled(old(Contents()), outcome)
    {
      settled := true;
      if !mode.Running? {
        client := Some(url);
        match outcome {
          case Connected =>
            StartMonitoringTasks();
          case ServerUnknown =>
            StopMonitoringTasks();
            file := None;
          case Unreachable =>
            mode := Degraded;
            settled := false;
        }
      }
    }

    // False stands for the raised error: not connected yet.
    method Start(url: string, outcome: Outcome) returns (ok: bool)
      modifies this
      ensures Contents() == Next(old(Contents()), StartRequest(url, outcome), usable)
      ensures ok <==> !mode.Degraded?
    {
      file := Some(url);
      ok := AttemptConnection(url, outcome);
      if !ok && recovery.None? {
        recovery := Some(FIRST_DELAY);
      }
    }

    method StopAgent(removed: bool) returns (ok: bool)
      modifies this
      ensures Contents() == Next(old(Contents()), StopRequest(removed), usable)
      ensures ok <==> old(client).Some? && removed
    {
      recovery := None;
      StopMonitoringTasks();
      if client.None? {
        return false;
      }
      if !removed {
        return false;
      }
      file := None;
      return true;
    }

    method AutomaticStart(outcome: Outcome)
      modifies this
      ensures Contents() == Next(old(Contents()), AutoStart(outcome), usable)
    {
      var url := Load(Contents(), usable);
      if url.None? {
        return;
      }
      var connected := AttemptConnection(url.value, outcome);
      if !connected && recovery.None? {
        recovery := Some(FIRST_DELAY);
      }
    }

    method RecoveryAttempt(outcome: Outcome)
      modifies this
      ensures Contents() == Next(old(Contents()), RecoveryTurn(outcome), usable)
    {
      if recovery.None? {
        return;
      }
      var delay := recovery.value;
      if !mode.Degraded? {
        recovery := None;
        return;
      }
      var url := Load(Contents(), usable);
      if url.None? {
        StopMonitoringTasks();
        file := None;
        recovery := None;
        return;
      }
      var settled := AttemptConnection(url.value, outcome);
      if settled {
        recovery := None;
      } else {
        recovery := Some(if delay * 2 < MAX_DELAY then delay * 2 else MAX_DELAY);
      }
    }
  }

  // ---- What each event does ----

  // The agent after an attempt at the URL: one that runs already is left alone; otherwise it runs with a new heartbeat
  // and watcher, stops and forgets the URL when the control plane does not know the cluster, or degrades with a
  // recovery loop pending, after five seconds unless one was pending before.
  ghost predicate Tried(a: Agent, b: Agent, url: string, outcome: Outcome) {
    if a.mode == Running then b == a
    else
      match outcome
      case Connected =>
        b == a.(mode := Running, client := Some(url), beat := Some(a.next), watcher := Some(a.next + 1),
                live := a.live + {a.next, a.next + 1}, next := a.next + 2)
      case ServerUnknown =>
        b == a.(mode := Stopped, client := Some(url), beat := None, watcher := None, live := b.live, file := None)
        && b.live == set t | t in a.live && a.watcher != Some(t) && a.beat != Some(t)
      case Unreachable =>
        b == a.(mode := Degraded, client := Some(url), recovery := b.recovery)
        && b.recovery == if a.recovery == None then Some(5) else a.recovery
  }

  /** A start request persists its URL and tries it; an automatic start tries the persisted one if it is usable, and
      does nothing otherwise. */
  lemma StartsFacts(a: Agent, url: string, outcome: Outcome, usable: string -> bool)
    ensures Tried(a.(file := Some(url)), Next(a, StartRequest(url, outcome), usable), url, outcome)
    ensures var b := Next(a, AutoStart(outcome), usable);
            if a.file.Some? && usable(a.file.value) then Tried(a, b, a.file.value, outcome) else b == a
  {
  }

  /** A stop ends tasks and recovery, keeps the client, and forgets the URL when the control plane dropped the cluster;
      a reboot keeps nothing but the URL. */
  lemma StopsFacts(a: Agent, removed: bool, usable: string -> bool)
    requires Inv(a)
    ensures
      Next(a, StopRequest(removed), usable)
      == Agent(Stopped, a.client, None, None, {}, a.next, None, if a.client.Some? && removed then None else a.file)
    ensures Next(a, Reboot, usable) == Agent(Stopped, None, None, None, {}, a.next, None, a.file)
  {
  }

  /** A turn of the recovery loop ends the loop unless the agent is degraded and cannot reach the control plane; it
      tries the persisted URL, and gives up when that is not usable. */
  lemma RecoveryFacts(a: Agent, outcome: Outcome, usable: string -> bool)
    requires Inv(a) && a.recovery.Some?
    ensures
      var b := Next(a, RecoveryTurn(outcome), usable);
      if a.mode != Degraded then b == a.(recovery := None)
      else if a.file.None? || !usable(a.file.value) then
        b == a.(mode := Stopped, file := None, recovery := None)
      else
        match outcome
        case Unreachable =>
          b == a.(client := a.file, recovery := b.recovery)
          && b.recovery == Some(if 2 * a.recovery.value < 300 then 2 * a.recovery.value else 300)
        case Connected => Tried(a, b.(recovery := a.recovery), a.file.value, Connected) && b.recovery == None
        case ServerUnknown => Tried(a, b.(recovery := a.recovery), a.file.value, ServerUnknown) && b.recovery == None
  {
  }

  // ---- What every run keeps ----

  ghost predicate TasksMatchMode(a: Agent) {
    if a.mode.Running? then
      a.watcher.Some? && a.beat.Some? && a.watcher != a.beat && a.live == {a.watcher.value, a.beat.value}
      && a.watcher.value < a.next && a.beat.value < a.next && a.client.Some?
    else a.live == {} && a.watcher.None? && a.beat.None?
  }

  ghost predicate Inv(a: Agent) {
    && TasksMatchMode(a)
    && (a.mode.Degraded? ==> a.recovery.Some?)
    && (!a.mode.Stopped? ==> a.file.Some?)
  }

  lemma StepKeeps(a: Agent, e: Event, usable: string -> bool)
    requires Inv(a)
    ensures Inv(Next(a, e, usable))
  {
  }

  /** In every run from a fresh agent: watcher and heartbeat tasks live exactly while running and in one set,
      a degraded agent has a recovery loop pending, and a running or degraded one has a persisted URL. */
  lemma {:induction false} RunKeeps(file: Option<string>, es: seq<Event>, usable: string -> bool)
    ensures Inv(Run(Agent(Stopped, None, None, None, {}, 0, None, file), es, usable))
  {
    if es != [] {
      var a := Agent(Stopped, None, None, None, {}, 0, None, file);
      RunKeeps(file, es[..|es| - 1], usable);
      StepKeeps(Run(a, es[..|es| - 1], usable), es[|es| - 1], usable);
    }
  }

  // ---- What a stop ends ----

  // Nothing runs and nothing is retried.
  predicate Idle(a: Agent) {
    a.mode.Stopped? && a.live == {} && a.watcher.None? && a.beat.None? && a.recovery.None?
  }

  // The URL survives the events: none is an automatic start, and none a stop that removes the cluster, which it can do
  // as long as the agent that was stopped has a client and has not been restarted.
  ghost predicate KeepsUrl(client: bool, es: seq<Event>) {
    forall j :: 0 <= j < |es| ==>
      !es[j].AutoStart? && !(es[j] == StopRequest(true) && client && Reboot !in es[..j])
  }

  // The event at `k` is an automatic start that the control plane does not turn away, the first to find the URL.
  ghost predicate Revives(client: bool, es: seq<Event>, k: nat)
    requires k < |es|
  {
    es[k].AutoStart? && !es[k].outcome.ServerUnknown? && KeepsUrl(client, es[..k])
  }

  lemma KeepsUrlStep(client: bool, es: seq<Event>, e: Event)
    ensures KeepsUrl(client, es + [e]) <==>
              KeepsUrl(client, es) && !e.AutoStart? && !(e == StopRequest(true) && client && Reboot !in es)
  {
    var longer := es + [e];
    assert longer[..|es|] == es;
    forall j | 0 <= j < |es| ensures longer[j] == es[j] && longer[..j] == es[..j] {
    }
    assert longer[|es|] == e;
  }

  // An idle agent that no event revives stays idle, with its URL exactly as long as the events keep it.
  lemma {:induction false} StaysIdle(a: Agent, es: seq<Event>, usable: string -> bool)
    requires Idle(a)
    requires forall e :: e in es ==> !e.StartRequest?
    requires Load(a, usable).None? || forall k :: 0 <= k < |es| ==> !Revives(a.client.Some?, es, k)
    ensures
      var b := Run(a, es, usable);
      && Idle(b)
      && (Load(a, usable).None? ==> Load(b, usable).None?)
      && (KeepsUrl(a.client.Some?, es) ==> b.file == a.file && b.client == if Reboot in es then None else a.client)
      && (Load(a, usable).Some? && !KeepsUrl(a.client.Some?, es) ==> b.file.None?)
  {
    if es != [] {
      var init, e := es[..|es| - 1], es[|es| - 1];
      assert es == init + [e];
      forall k | 0 <= k < |init| && Load(a, usable).Some? ensures !Revives(a.client.Some?, init, k) {
        assert init[..k] == es[..k];
        assert !Revives(a.client.Some?, es, k);
      }
      StaysIdle(a, init, usable);
      KeepsUrlStep(a.client.Some?, init, e);
      assert Load(a, usable).Some? ==> !Revives(a.client.Some?, es, |es| - 1);
    }
  }

  /** After a stop, and until the next start request, the agent leaves STOPPED exactly when an automatic start that is
      not turned away finds the URL: one that is usable, that the stop left in place because it could not remove the
      cluster, and that neither an earlier automatic start nor a later stop has cleared. Recovery turns never do it. */
  lemma StopIsFinalIff(a: Agent, removed: bool, es: seq<Event>, usable: string -> bool)
    requires Inv(a)
    requires forall e :: e in es ==> !e.StartRequest?
    ensures (exists n :: 0 <= n <= |es| && !Run(Stop(a, removed), es[..n], usable).mode.Stopped?) <==>
              && !(a.client.Some? && removed) && a.file.Some? && usable(a.file.value)
              && exists k :: 0 <= k < |es| && Revives(a.client.Some?, es, k)
    ensures (forall n :: 0 <= n <= |es| ==> Run(Stop(a, removed), es[..n], usable).mode.Stopped?) ==>
              forall n :: 0 <= n <= |es| ==> Idle(Run(Stop(a, removed), es[..n], usable))
  {
    var s, client := Stop(a, removed), a.client.Some?;
    if Load(s, usable).Some? && exists k :: 0 <= k < |es| && Revives(client, es, k) {
      var k :| 0 <= k < |es| && Revives(client, es, k);
      Awakens(s, es, k, usable);
    } else {
      forall n | 0 <= n <= |es| ensures Idle(Run(s, es[..n], usable)) {
        forall k | 0 <= k < n && Load(s, usable).Some? ensures !Revives(client, es[..n], k) {
          assert es[..n][..k] == es[..k] && es[..n][k] == es[k];
          assert !Revives(client, es, k);
        }
        StaysIdle(s, es[..n], usable);
      }
    }
  }

  lemma Awakens(s: Agent, es: seq<Event>, k: nat, usable: string -> bool)
    requires Idle(s) && Load(s, usable).Some? && k < |es| && Revives(s.client.Some?, es, k)
    requires forall e :: e in es ==> !e.StartRequest?
    ensures !Run(s, es[..k + 1], usable).mode.Stopped?
  {
    var init := es[..k];
    forall j | 0 <= j < k ensures !Revives(s.client.Some?, init, j) {
      assert !init[j].AutoStart?;
    }
    StaysIdle(s, init, usable);
    assert es[..k + 1][..k] == init && es[..k + 1][k] == es[k];
  }

  /** A stop that removed the cluster is also final over a pod restart: the automatic start finds nothing. A stop
      that could not is undone by it, whenever the persisted URL is usable. */
  lemma RestartAfterStop(a: Agent, removed: bool, outcome: Outcome, usable: string -> bool)
    requires Inv(a)
    ensures var b := Run(Stop(a, removed), [Reboot, AutoStart(outcome)], usable);
            !b.mode.Stopped? <==>
              !(a.client.Some? && removed) && a.file.Some? && usable(a.file.value) && !outcome.ServerUnknown?
  {
    var s := Stop(a, removed);
    var es := [Reboot, AutoStart(outcome)];
    assert es[..1] == [Reboot] && es[..1][..0] == [];
    assert Run(s, [], usable) == s;
    assert Run(s, [Reboot], usable) == Next(s, Reboot, usable);
  }

  /** A start that gets the lock when another one, or a retry, has already connected answers success and persists its
      URL, but the agent stays connected to the control plane it had: the two agree exactly when the URL is the same. */
  lemma StartWhileRunning(a: Agent, url: string, outcome: Outcome, usable: string -> bool)
    requires Inv(a) && a.mode.Running?
    ensures var b := Next(a, StartRequest(url, outcome), usable);
            b.mode.Running? && b.file == Some(url) && b.client == a.client && b.live == a.live
            && (b.client == b.file <==> a.client == Some(url))
  {
  }

  /** So two starts that were both let in before either connected leave the agent connected to the first URL, with the
      second one persisted for the next restart. */
  lemma RacingStarts(a: Agent, first: string, second: string, outcome: Outcome, usable: string -> bool)
    requires Inv(a) && !a.mode.Running?
    ensures
      var b := Next(Next(a, StartRequest(first, Connected), usable), StartRequest(second, outcome), usable);
      b.mode.Running? && b.client == Some(first) && b.file == Some(second)
  {
    StepKeeps(a, StartRequest(first, Connected), usable);
    StartWhileRunning(Next(a, StartRequest(first, Connected), usable), second, outcome, usable);
  }

  // ---- Backoff ----

  function Pow2(k: nat): nat {
    if k == 0 then 1 else 2 * Pow2(k - 1)
  }

  function Failures(k: nat): seq<Event> {
    seq(k, i => RecoveryTurn(Unreachable))
  }

  function Backoff(k: nat): nat {
    if 5 * Pow2(k) < 300 then 5 * Pow2(k) else 300
  }

  /** After `k` failed retries in a row the loop waits min(5 * 2^k, 300) seconds before the next. */
  lemma {:induction false} DelayAfterFailures(a: Agent, k: nat, usable: string -> bool)
    requires Inv(a) && a.mode.Degraded? && a.recovery == Some(5) && a.file.Some? && usable(a.file.value)
    ensures var b := Run(a, Failures(k), usable);
            b.mode.Degraded? && b.file == a.file && b.recovery == Some(Backoff(k))
  {
    if k > 0 {
      DelayAfterFailures(a, k - 1, usable);
      assert Failures(k)[..k - 1] == Failures(k - 1);
    }
  }
}
