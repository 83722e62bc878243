/** Leadership as a session lock: who believes to be the leader, and who owns the sentinel lock. */
module LeaderElection {
  import opened Basics
  import opened Jobs
  import opened RowLedger
  import opened Cluster

  predicate Holds(s: State, n: nat)
    requires n < |s.nodes|
  {
    s.nodes[n].session.Some?
  }

  /** The server grants the sentinel lock to the node's pinned session. */
  predicate Owns(s: State, n: nat)
    requires n < |s.nodes|
  {
    s.nodes[n].session.Some? && s.lock == s.nodes[n].session
  }

  ghost predicate SessionsInv(s: State) {
    && (s.lock.Some? ==> s.lock.value < s.nextSession)
    && (forall n :: 0 <= n < |s.nodes| && Holds(s, n) ==> s.nodes[n].session.value < s.nextSession)
    && (forall m, n :: 0 <= m < n < |s.nodes| && Holds(s, m) && Holds(s, n) ==> s.nodes[m].session != s.nodes[n].session)
    && (forall n :: 0 <= n < |s.nodes| && Holds(s, n) ==> (Owns(s, n) <==> !s.nodes[n].lost))
  }

  /** Steps that touch no session and no lock. */
  predicate Quiet(step: Step) {
    (Background(step) && !step.SessionEnds? && !step.GrantLost?) || step.Fetch? || step.Dispatch? || step.ReplayNext? || step.ReplayDone?
    || step.FallbackDone?
  }

  ghost predicate SameSessions(s: State, s': State) {
    && |s'.nodes| == |s.nodes| && s'.lock == s.lock && s'.nextSession == s.nextSession
    && forall n :: 0 <= n < |s.nodes| ==>
         s'.nodes[n].session == s.nodes[n].session && s'.nodes[n].lost == s.nodes[n].lost
  }

  lemma QuietStepKeepsSessions(cfg: Config, s: State, step: Step)
    requires Enabled(cfg, s, step) && Quiet(step)
    ensures SameSessions(s, Apply(cfg, s, step))
  {
    if Background(step) {
      BackgroundKeepsNodes(cfg, s, step);
    } else if step.Dispatch? {
      DispatchHasEffect(cfg, s, step.node, step.call);
      DispatchSameSessions(cfg, s, Apply(cfg, s, step), step.node);
    }
  }

  lemma DispatchSameSessions(cfg: Config, s: State, s': State, n: nat)
    requires n < |s.nodes| && s.nodes[n].mode.Fetched? && |s'.nodes| == |s.nodes| && DispatchEffect(cfg, s, s', n)
    ensures SameSessions(s, s')
  {
  }

  lemma SameSessionsKeepInv(s: State, s': State)
    requires SessionsInv(s) && SameSessions(s, s')
    ensures SessionsInv(s')
  {
    forall n | 0 <= n < |s'.nodes| && Holds(s', n)
      ensures s'.nodes[n].session.value < s'.nextSession && (Owns(s', n) <==> !s'.nodes[n].lost)
    {
      assert Holds(s, n);
    }
    forall m, n | 0 <= m < n < |s'.nodes| && Holds(s', m) && Holds(s', n)
      ensures s'.nodes[m].session != s'.nodes[n].session
    {
      assert Holds(s, m) && Holds(s, n);
    }
  }

  lemma RenewKeepsSessions(s: State, n: nat)
    requires SessionsInv(s) && n < |s.nodes|
    ensures SessionsInv(Renewed(s, n))
  {
  }

  /** A node without a session and a lock that no live session owns. */
  lemma DropKeepsSessions(s: State, s': State, n: nat)
    requires SessionsInv(s) && n < |s.nodes| && s'.nextSession == s.nextSession
    requires |s'.nodes| == |s.nodes| && s'.nodes == s.nodes[n := s'.nodes[n]] && s'.nodes[n].session.None?
    requires s'.lock == s.lock || (s'.lock.None? && Owns(s, n))
    ensures SessionsInv(s')
  {
  }

  lemma LossKeepsSessions(cfg: Config, s: State, n: nat)
    requires SessionsInv(s) && Enabled(cfg, s, ConnectionLost(n))
    ensures SessionsInv(Apply(cfg, s, ConnectionLost(n)))
  {
  }

  /** The server gives the lock to, or takes it from, a session no node has. */
  lemma LockKeepsSessions(cfg: Config, s: State, step: Step)
    requires SessionsInv(s) && Enabled(cfg, s, step) && (step.SessionEnds? || step.GrantLost?)
    ensures SessionsInv(Apply(cfg, s, step))
  {
  }

  lemma StepKeepsSessions(cfg: Config, s: State, step: Step)
    requires SessionsInv(s) && Enabled(cfg, s, step)
    ensures SessionsInv(Apply(cfg, s, step))
  {
    match step {
      case Renew(n) => RenewKeepsSessions(s, n);
      case Release(n, ok) => DropKeepsSessions(s, Released(s, n, ok), n);
      case Crash(n) => DropKeepsSessions(s, Crashed(s, n), n);
      case ConnectionLost(n) => LossKeepsSessions(cfg, s, n);
      case SessionEnds(_) => LockKeepsSessions(cfg, s, step);
      case GrantLost(_) => LockKeepsSessions(cfg, s, step);
      case _ =>
        QuietStepKeepsSessions(cfg, s, step);
        SameSessionsKeepInv(s, Apply(cfg, s, step));
    }
  }

  lemma {:induction false} RunKeepsSessions(cfg: Config, s: State, steps: seq<Step>, rule: Rule)
    requires Initial(s) && Legal(cfg, s, steps, rule)
    ensures SessionsInv(Reach(cfg, s, steps))
  {
    if steps != [] {
      var before, last := steps[..|steps| - 1], steps[|steps| - 1];
      RunKeepsSessions(cfg, s, before, rule);
      StepKeepsSessions(cfg, Reach(cfg, s, before), last);
    }
  }

  /** What the lock steps do to a node's belief and to the lock. A renewal is granted exactly if the lock is free; a
      release ends the belief, and frees the lock exactly if the node owns it and the call arrives; a crash and a lost
      answer leave the lock taken. */
  lemma LockSteps(cfg: Config, s: State, step: Step, n: nat)
    requires SessionsInv(s) && Enabled(cfg, s, step) && n < |s.nodes|
    ensures var s' := Apply(cfg, s, step);
            && (step == Renew(n) ==>
                  && (Holds(s', n) <==> Holds(s, n) || s.lock.None?)
                  && (!Holds(s, n) && Holds(s', n) ==> Owns(s', n)))
            && (step == Release(n, true) ==> !Holds(s', n) && s'.lock == if Owns(s, n) then None else s.lock)
            && (step == Release(n, false) || step == Crash(n) ==> !Holds(s', n) && s'.lock == s.lock)
            && (step == GrantLost(n) ==> !Holds(s', n) && s'.lock.Some? && !SomeoneOwns(s'))
            && (step == ConnectionLost(n) ==> Holds(s', n) && !Owns(s', n) && (Owns(s, n) ==> s'.lock.None?))
  {
  }

  predicate SomeoneOwns(s: State) { exists n :: 0 <= n < |s.nodes| && Owns(s, n) }

  /** In every run a node that believes to be the leader owns the sentinel lock exactly when the server
      has not dropped its pinned connection, and of two believing nodes at least one was dropped. */
  lemma LeaderExclusive(cfg: Config, s: State, steps: seq<Step>, rule: Rule, m: nat, n: nat)
    requires Initial(s) && Legal(cfg, s, steps, rule)
    requires m < |Reach(cfg, s, steps).nodes| && n < |Reach(cfg, s, steps).nodes|
    ensures var e := Reach(cfg, s, steps);
            && (Holds(e, n) ==> (Owns(e, n) <==> !e.nodes[n].lost))
            && (Holds(e, m) && Holds(e, n) && m != n ==> e.nodes[m].lost || e.nodes[n].lost)
  {
    RunKeepsSessions(cfg, s, steps, rule);
    TwoHoldersLost(Reach(cfg, s, steps), m, n);
  }

  lemma TwoHoldersLost(s: State, m: nat, n: nat)
    requires SessionsInv(s) && m < |s.nodes| && n < |s.nodes|
    ensures Holds(s, n) ==> (Owns(s, n) <==> !s.nodes[n].lost)
    ensures Holds(s, m) && Holds(s, n) && m != n ==> s.nodes[m].lost || s.nodes[n].lost
  {
  }

  /** No live node loses its pinned connection. */
  predicate NoLoss(cfg: Config, s: State, step: Step) { !step.ConnectionLost? }

  ghost predicate NoneLost(s: State) { forall n :: 0 <= n < |s.nodes| ==> !s.nodes[n].lost }

  lemma StepKeepsNoneLost(cfg: Config, s: State, step: Step)
    requires NoneLost(s) && Enabled(cfg, s, step) && !step.ConnectionLost?
    ensures NoneLost(Apply(cfg, s, step))
  {
    if Quiet(step) { QuietStepKeepsSessions(cfg, s, step); }
  }

  lemma {:induction false} RunKeepsNoneLost(cfg: Config, s: State, steps: seq<Step>)
    requires Initial(s) && Legal(cfg, s, steps, NoLoss)
    ensures NoneLost(Reach(cfg, s, steps))
  {
    if steps != [] {
      var before, last := steps[..|steps| - 1], steps[|steps| - 1];
      RunKeepsNoneLost(cfg, s, before);
      StepKeepsNoneLost(cfg, Reach(cfg, s, before), last);
    }
  }

  /** As long as no live node loses its connection there is at most one leader, and a node is the
      leader exactly when its session owns the lock. */
  lemma OneLeader(cfg: Config, s: State, steps: seq<Step>, m: nat, n: nat)
    requires Initial(s) && Legal(cfg, s, steps, NoLoss)
    requires m < |Reach(cfg, s, steps).nodes| && n < |Reach(cfg, s, steps).nodes|
    ensures var e := Reach(cfg, s, steps);
            (Holds(e, n) <==> Owns(e, n)) && (Holds(e, m) && Holds(e, n) ==> m == n)
  {
    RunKeepsSessions(cfg, s, steps, NoLoss);
    RunKeepsNoneLost(cfg, s, steps);
    TwoHoldersLost(Reach(cfg, s, steps), m, n);
  }

  /** Inside a tick (from fetch to the end of the last replay) a node neither gains nor loses
      leadership, whatever any node does, unless it crashes. */
  lemma TickKeepsLeadership(cfg: Config, s: State, step: Step, n: nat)
    requires Enabled(cfg, s, step) && n < |s.nodes|
    requires !s.nodes[n].mode.Idle? && !s.nodes[n].mode.Stopped? && step != Crash(n)
    ensures Apply(cfg, s, step).nodes[n].session == s.nodes[n].session
  {
    if Quiet(step) { QuietStepKeepsSessions(cfg, s, step); }
  }

  /** A lost connection is what it takes: the server drops the leader's session, the node does not notice,
      and the next node to ask becomes a second leader. */
  lemma TwoLeadersAfterLoss(cfg: Config, s: State)
    requires Initial(s) && cfg.hasLeader && |s.nodes| == 2
    ensures exists steps :: Legal(cfg, s, steps, AnyStep)
              && var e := Reach(cfg, s, steps); |e.nodes| == 2 && Holds(e, 0) && Holds(e, 1)
  {
    RunSnoc(cfg, s, [], Renew(0), AnyStep);
    var a := [] + [Renew(0)];
    RunSnoc(cfg, s, a, ConnectionLost(0), AnyStep);
    var b := a + [ConnectionLost(0)];
    RunSnoc(cfg, s, b, Renew(1), AnyStep);
  }
}
