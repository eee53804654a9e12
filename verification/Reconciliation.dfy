/**
 Reconciliation settles (pkg/rtc/subscriptionmanager.go): with a stable resolver, permission and enough capacity,
 reconciling and closing end with exactly the desired tracks held, after a bounded number of steps that do anything.
 */
module Reconciliation {
  import opened Common
  import opened Subscriptions

  /** How much is left to do for one track, in steps. */
  function Rank(s: Subscription): nat {
    if s.desired then
      if s.held.Some? then (if s.removing then 4 else 0)
      else if s.kind.Some? then 2
      else 3
    else if s.held.Some? then (if s.removing then 2 else 3)
    else 1
  }

  ghost function AtLeast(m: Manager, rank: nat): set<TrackID> {
    set id | id in m.subscriptions && Rank(m.subscriptions[id]) >= rank
  }

  /** What is left to do: the sum of the ranks, counted by level. */
  ghost function Remaining(m: Manager): nat {
    |AtLeast(m, 1)| + |AtLeast(m, 2)| + |AtLeast(m, 3)| + |AtLeast(m, 4)|
  }

  function RankOf(m: Manager, id: TrackID): nat {
    if id in m.subscriptions then Rank(m.subscriptions[id]) else 0
  }

  lemma LessRemains(m: Manager, n: Manager, id: TrackID)
    requires n.subscriptions - {id} == m.subscriptions - {id}
    requires RankOf(n, id) < RankOf(m, id)
    ensures Remaining(n) < Remaining(m)
  {
    forall rank | 1 <= rank <= 4
      ensures AtLeast(n, rank) <= AtLeast(m, rank) && |AtLeast(n, rank)| <= |AtLeast(m, rank)|
    {
      forall k | k in AtLeast(n, rank) && k != id ensures k in AtLeast(m, rank) {
        assert k in (n.subscriptions - {id}) && (n.subscriptions - {id})[k] == n.subscriptions[k];
        assert k in (m.subscriptions - {id}) && (m.subscriptions - {id})[k] == m.subscriptions[k];
      }
      SubsetSize(AtLeast(n, rank), AtLeast(m, rank));
    }
    var rank := RankOf(m, id);
    assert id in AtLeast(m, rank) && id !in AtLeast(n, rank);
    SubsetSize(AtLeast(n, rank), AtLeast(m, rank));
  }

  ghost function DesiredOf(m: Manager): set<TrackID> {
    set id | id in m.subscriptions && m.subscriptions[id].desired
  }

  /** Reconciling gets as far as resolving the track, which is not found, and has not been for too long. */
  predicate GivesUpOn(m: Manager, limits: Limits, id: TrackID, env: Env) {
    && env.canReconcile && id in m.subscriptions && m.subscriptions[id].NeedsSubscribe() && !env.waitForUnsubscribes
    && env.canSubscribe && (m.subscriptions[id].kind.Some? ==> HasCapacity(m, limits, m.subscriptions[id].kind.value))
    && env.resolved.None? && env.notFoundTimedOut
  }

  /** Only then is what was desired changed without being asked, and only for that track. */
  lemma DesireChangesIff(m: Manager, limits: Limits, id: TrackID, env: Env)
    ensures DesiredOf(Reconcile(m, limits, id, env)) ==
            DesiredOf(m) - (if GivesUpOn(m, limits, id, env) then {id} else {})
    ensures GivesUpOn(m, limits, id, env) ==> id in DesiredOf(m)
  {
    if env.canReconcile && id in m.subscriptions && m.subscriptions[id].NeedsSubscribe() {
      SubscribeKeepsDesired(m, limits, id, env);
    }
  }

  lemma SubscribeKeepsDesired(m: Manager, limits: Limits, id: TrackID, env: Env)
    requires id in m.subscriptions
    ensures DesiredOf(Subscribe(m, limits, id, env).0) == DesiredOf(m)
    ensures Subscribe(m, limits, id, env).1 ==> Subscribe(m, limits, id, env).0 == m
  {
    if env.resolved.Some? {
      var r := env.resolved.value;
      var m1 := WithKind(m, id, r.kind);
      var m2 := WithPublisher(m1, id, r.publisher);
      assert DesiredOf(m1) == DesiredOf(m) && DesiredOf(m2) == DesiredOf(m);
      assert DesiredOf(WithHeld(m2, id, r.kind)) == DesiredOf(m);
    }
  }

  /** What was last asked for a track, unless the manager has given up on it since. */
  predicate Asked(limits: Limits, es: seq<Event>, id: TrackID) {
    es != [] &&
    var init := es[..|es| - 1];
    match es[|es| - 1]
    case Wanted(k) => k == id || Asked(limits, init, id)
    case Unwanted(k) => k != id && Asked(limits, init, id)
    case Reconciled(k, env) => !(k == id && GivesUpOn(Exec(limits, init), limits, id, env)) && Asked(limits, init, id)
    case _ => Asked(limits, init, id)
  }

  lemma OtherEventsKeepDesired(limits: Limits, m: Manager, e: Event)
    requires !e.Reconciled?
    ensures DesiredOf(Step(limits, m, e)) ==
            if e.Wanted? then DesiredOf(m) + {e.id} else if e.Unwanted? then DesiredOf(m) - {e.id} else DesiredOf(m)
  {
    match e
    case Wanted(_) =>
    case Unwanted(_) =>
    case SettingsUpdated(_) =>
    case Closed(_) =>
  }

  /** Over all runs a track is desired exactly if that was asked last, whatever was subscribed and closed in between. */
  lemma {:induction false} DesiredIsAsked(limits: Limits, es: seq<Event>, id: TrackID)
    ensures id in DesiredOf(Exec(limits, es)) <==> Asked(limits, es, id)
    decreases |es|
  {
    if es != [] {
      var init, e := es[..|es| - 1], es[|es| - 1];
      DesiredIsAsked(limits, init, id);
      if e.Reconciled? {
        DesireChangesIff(Exec(limits, init), limits, e.id, e.env);
      } else {
        OtherEventsKeepDesired(limits, Exec(limits, init), e);
      }
    }
  }

  /** The kind of a track, once seen, stays for as long as it is known, whatever the resolver says later. */
  lemma KindIsFirstSeen(limits: Limits, m: Manager, e: Event, id: TrackID)
    requires id in m.subscriptions && m.subscriptions[id].kind.Some? && id in Step(limits, m, e).subscriptions
    ensures Step(limits, m, e).subscriptions[id].kind == m.subscriptions[id].kind
  {
    match e
    case Wanted(_) =>
    case Unwanted(_) =>
    case SettingsUpdated(_) =>
    case Reconciled(k, env) =>
      if k in m.subscriptions { SubscribeKeepsKind(limits, m, k, env, id); }
    case Closed(_) =>
  }

  lemma SubscribeKeepsKind(limits: Limits, m: Manager, k: TrackID, env: Env, id: TrackID)
    requires k in m.subscriptions && id in m.subscriptions && m.subscriptions[id].kind.Some?
    ensures var m' := Subscribe(m, limits, k, env).0;
            && k in m'.subscriptions && id in m'.subscriptions
            && m'.subscriptions[id].kind == m.subscriptions[id].kind
  {
    if env.resolved.Some? {
      var r := env.resolved.value;
      var m1 := WithKind(m, k, r.kind);
      var m2 := WithPublisher(m1, k, r.publisher);
      assert m1.subscriptions[id].kind == m.subscriptions[id].kind;
      assert m2.subscriptions[id].kind == m.subscriptions[id].kind;
      assert WithHeld(m2, k, r.kind).subscriptions[id].kind == m.subscriptions[id].kind;
    }
  }

  // ---------- a settled world ----------

  type World = map<TrackID, Resolved>

  /** Every track still wanted is there, with permission, and of the kind it always was. */
  ghost predicate Stable(world: World, m: Manager) {
    forall id <- m.subscriptions | m.subscriptions[id].desired ::
      && id in world && world[id].permission
      && (m.subscriptions[id].kind.Some? ==> m.subscriptions[id].kind == Some(world[id].kind))
      && (m.subscriptions[id].held.Some? ==> m.subscriptions[id].held == Some(world[id].kind))
  }

  /**
   In a stable world: tracks are reconciled, in any order and any number of times, and tracks asked to close do. Only
   waiting for pending unsubscribes is left open.
   */
  predicate Settling(world: World, m: Manager, e: Event) {
    match e
    case Reconciled(id, env) =>
      && env.canReconcile && env.canSubscribe && env.added == Added
      && (id in world ==> env.resolved == Some(world[id]))
    case Closed(id) => id in m.subscriptions && m.subscriptions[id].removing
    case _ => false
  }

  ghost function DesiredOfKind(world: World, m: Manager, kind: Kind): set<TrackID> {
    set id | id in m.subscriptions && m.subscriptions[id].desired && id in world && world[id].kind == kind
  }

  /** No limit is below the number of tracks wanted. */
  ghost predicate EnoughCapacity(world: World, limits: Limits, m: Manager) {
    forall kind: Kind :: Limit(limits, kind) > 0 ==> |DesiredOfKind(world, m, kind)| <= Limit(limits, kind)
  }

  /** Exactly the desired tracks are held, and nothing else is left. */
  ghost predicate Settled(m: Manager) {
    forall id <- m.subscriptions ::
      m.subscriptions[id].desired && m.subscriptions[id].held.Some? && !m.subscriptions[id].removing
  }

  /** One settling step changes one subscription, for the better, or nothing; what is desired stays. */
  ghost predicate Improves(world: World, m: Manager, n: Manager) {
    && (n == m || Remaining(n) < Remaining(m))
    && DesiredOf(n) == DesiredOf(m) && Stable(world, n)
  }

  lemma OneTrackImproves(world: World, m: Manager, n: Manager, id: TrackID, s: Subscription)
    requires Stable(world, m) && id in m.subscriptions
    requires n.subscriptions == m.subscriptions[id := s] && s.desired == m.subscriptions[id].desired
    requires Rank(s) < Rank(m.subscriptions[id])
    requires s.desired && s.kind.Some? ==> s.kind == Some(world[id].kind)
    requires s.desired && s.held.Some? ==> s.held == Some(world[id].kind)
    ensures Improves(world, m, n)
  {
    assert n.subscriptions - {id} == m.subscriptions - {id};
    LessRemains(m, n, id);
  }

  /** What an attempt to subscribe to a resolved track changes: nothing, the kind, or all of the subscription. */
  lemma SubscribeOutcome(m: Manager, limits: Limits, id: TrackID, env: Env, r: Resolved) returns (s: Subscription)
    requires id in m.subscriptions && m.subscriptions[id].NeedsSubscribe()
    requires env.canSubscribe && env.added == Added && env.resolved == Some(r) && r.permission
    requires m.subscriptions[id].kind.Some? ==> m.subscriptions[id].kind == Some(r.kind)
    ensures !Subscribe(m, limits, id, env).1
    ensures var n := Subscribe(m, limits, id, env).0;
            n == m || (n.subscriptions == m.subscriptions[id := s] && s.desired && s.kind == Some(r.kind)
                       && Rank(s) < Rank(m.subscriptions[id]) && (s.held.Some? ==> s.held == Some(r.kind)))
  {
    s := m.subscriptions[id].(kind := Some(r.kind));
    var m1 := WithKind(m, id, r.kind);
    assert m1.subscriptions == m.subscriptions[id := s];
    if HasCapacity(m1, limits, r.kind) {
      SubscribedAs(m1, id, r);
      s := Subscription(true, Some(r.publisher), Some(r.kind), Some(r.kind), false);
    }
  }

  lemma SubscribedAs(m: Manager, id: TrackID, r: Resolved)
    requires id in m.subscriptions && m.subscriptions[id].desired && m.subscriptions[id].kind == Some(r.kind)
    ensures Indexed(WithHeld(WithPublisher(m, id, r.publisher), id, r.kind), r.publisher, id).subscriptions ==
            m.subscriptions[id := Subscription(true, Some(r.publisher), Some(r.kind), Some(r.kind), false)]
  {
  }

  lemma SubscribeImproves(world: World, limits: Limits, m: Manager, id: TrackID, env: Env)
    requires Stable(world, m) && Settling(world, m, Reconciled(id, env))
    requires id in m.subscriptions && m.subscriptions[id].NeedsSubscribe()
    ensures Improves(world, m, Subscribe(m, limits, id, env).0) && !Subscribe(m, limits, id, env).1
  {
    var s := SubscribeOutcome(m, limits, id, env, world[id]);
    var n := Subscribe(m, limits, id, env).0;
    if n != m { OneTrackImproves(world, m, n, id, s); }
  }

  lemma CloseImproves(world: World, m: Manager, id: TrackID)
    requires Stable(world, m) && Settling(world, m, Closed(id))
    ensures Improves(world, m, HandleClose(m, id))
  {
    var s := m.subscriptions[id];
    if s.held.Some? {
      OneTrackImproves(world, m, HandleClose(m, id), id, s.(held := None, removing := false));
    }
  }

  lemma ReconcileImproves(world: World, limits: Limits, m: Manager, id: TrackID, env: Env)
    requires Stable(world, m) && Settling(world, m, Reconciled(id, env))
    ensures Improves(world, m, Reconcile(m, limits, id, env))
  {
    var n := Reconcile(m, limits, id, env);
    if n != m {
      var s := m.subscriptions[id];
      if s.NeedsSubscribe() {
        SubscribeImproves(world, limits, m, id, env);
      } else if s.NeedsUnsubscribe() {
        assert s.removing ==> m.subscriptions[id := s] == m.subscriptions;
        OneTrackImproves(world, m, n, id, s.(removing := true));
      } else {
        assert n.subscriptions - {id} == m.subscriptions - {id};
        LessRemains(m, n, id);
      }
    }
  }

  lemma SettlingImproves(world: World, limits: Limits, m: Manager, e: Event)
    requires Stable(world, m) && Settling(world, m, e)
    ensures Improves(world, m, Step(limits, m, e))
  {
    match e
    case Reconciled(id, env) => ReconcileImproves(world, limits, m, id, env);
    case Closed(id) => CloseImproves(world, m, id);
  }

  /** As long as the desired tracks are not exactly the held ones, there is a settling step that gets closer. */
  lemma SomeStepHelps(world: World, limits: Limits, m: Manager) returns (e: Event)
    requires Inv(limits, m) && Stable(world, m) && EnoughCapacity(world, limits, m) && !Settled(m)
    ensures Settling(world, m, e) && Remaining(Step(limits, m, e)) < Remaining(m)
  {
    if id :| id in m.subscriptions && m.subscriptions[id].removing && m.subscriptions[id].held.Some? {
      e := Closed(id);
      assert Step(limits, m, e).subscriptions[id] != m.subscriptions[id];
    } else if id :| id in m.subscriptions && !m.subscriptions[id].desired {
      var resolved := if id in world then Some(world[id]) else None;
      e := Reconciled(id, Env(true, false, true, resolved, Added, false));
      if m.subscriptions[id].held.Some? {
        assert Step(limits, m, e).subscriptions[id] != m.subscriptions[id];
      } else {
        assert id !in Step(limits, m, e).subscriptions;
      }
    } else {
      var id :| id in m.subscriptions && m.subscriptions[id].held.None?;
      e := Reconciled(id, Env(true, false, true, Some(world[id]), Added, false));
      RoomForOneMore(world, limits, m, id);
      assert id in Step(limits, m, e).subscriptions && Step(limits, m, e).subscriptions[id].held.Some?;
    }
    SettlingImproves(world, limits, m, e);
  }

  /** When all that is held is desired, a desired track that is not held fits. */
  lemma RoomForOneMore(world: World, limits: Limits, m: Manager, id: TrackID)
    requires Inv(limits, m) && Stable(world, m) && EnoughCapacity(world, limits, m)
    requires forall k <- m.subscriptions :: m.subscriptions[k].desired
    requires id in m.subscriptions && m.subscriptions[id].held.None?
    ensures HasCapacity(m, limits, world[id].kind)
  {
    var kind := world[id].kind;
    assert id in DesiredOfKind(world, m, kind) && id !in HeldOf(m, kind);
    assert HeldOf(m, kind) <= DesiredOfKind(world, m, kind);
    SubsetSize(HeldOf(m, kind), DesiredOfKind(world, m, kind));
    if kind != Data { assert Count(m, kind) == |HeldOf(m, kind)|; }
  }

  lemma SameDesiredKeepsCapacity(world: World, limits: Limits, m: Manager, n: Manager)
    requires DesiredOf(n) == DesiredOf(m) && EnoughCapacity(world, limits, m)
    ensures EnoughCapacity(world, limits, n)
  {
    forall kind: Kind ensures DesiredOfKind(world, n, kind) == DesiredOfKind(world, m, kind) {
      forall id ensures id in DesiredOfKind(world, n, kind) <==> id in DesiredOfKind(world, m, kind) {
        assert id in DesiredOf(n) <==> id in DesiredOf(m);
      }
    }
  }

  // ---------- whole settling runs ----------

  function Run(limits: Limits, m: Manager, es: seq<Event>): Manager {
    if es == [] then m else Step(limits, Run(limits, m, es[..|es| - 1]), es[|es| - 1])
  }

  predicate AllSettling(world: World, limits: Limits, m: Manager, es: seq<Event>) {
    es == [] ||
    var init := es[..|es| - 1];
    AllSettling(world, limits, m, init) && Settling(world, Run(limits, m, init), es[|es| - 1])
  }

  /** How many steps of a run changed anything. */
  function Changes(limits: Limits, m: Manager, es: seq<Event>): nat {
    if es == [] then 0
    else
      var init := es[..|es| - 1];
      Changes(limits, m, init) + if Run(limits, m, es) == Run(limits, m, init) then 0 else 1
  }

  /** However reconciles and closes are ordered and repeated, only so many of them change anything. */
  lemma {:induction false} ReconciliationTerminates(world: World, limits: Limits, m: Manager, es: seq<Event>)
    requires Inv(limits, m) && Stable(world, m) && AllSettling(world, limits, m, es)
    ensures Changes(limits, m, es) + Remaining(Run(limits, m, es)) <= Remaining(m)
    ensures Inv(limits, Run(limits, m, es)) && Stable(world, Run(limits, m, es))
    ensures DesiredOf(Run(limits, m, es)) == DesiredOf(m)
    decreases |es|
  {
    if es != [] {
      var init := es[..|es| - 1];
      ReconciliationTerminates(world, limits, m, init);
      SettlingImproves(world, limits, Run(limits, m, init), es[|es| - 1]);
      StepKeepsInv(limits, Run(limits, m, init), es[|es| - 1]);
    }
  }

  /** A settling run that can do nothing more has ended with exactly the desired tracks held. */
  lemma ReconciliationEndsSettled(world: World, limits: Limits, m: Manager, es: seq<Event>)
    requires Inv(limits, m) && Stable(world, m) && EnoughCapacity(world, limits, m)
    requires AllSettling(world, limits, m, es)
    requires var n := Run(limits, m, es); forall e | Settling(world, n, e) :: Step(limits, n, e) == n
    ensures Settled(Run(limits, m, es)) && Run(limits, m, es).subscriptions.Keys == DesiredOf(m)
  {
    ReconciliationTerminates(world, limits, m, es);
    var n := Run(limits, m, es);
    SameDesiredKeepsCapacity(world, limits, m, n);
    if !Settled(n) { var e := SomeStepHelps(world, limits, n); }
    assert n.subscriptions.Keys == DesiredOf(n);
  }

  /** And there is such a run from every state. */
  lemma {:induction false} ReconciliationCanSettle(world: World, limits: Limits, m: Manager) returns (es: seq<Event>)
    requires Inv(limits, m) && Stable(world, m) && EnoughCapacity(world, limits, m)
    ensures AllSettling(world, limits, m, es) && |es| <= Remaining(m)
    ensures Settled(Run(limits, m, es)) && Run(limits, m, es).subscriptions.Keys == DesiredOf(m)
  {
    es := [];
    while !Settled(Run(limits, m, es))
      invariant AllSettling(world, limits, m, es) && |es| + Remaining(Run(limits, m, es)) <= Remaining(m)
      decreases Remaining(Run(limits, m, es))
    {
      var n := Run(limits, m, es);
      ReconciliationTerminates(world, limits, m, es);
      SameDesiredKeepsCapacity(world, limits, m, n);
      var e := SomeStepHelps(world, limits, n);
      assert (es + [e])[..|es|] == es;
      es := es + [e];
    }
    ReconciliationTerminates(world, limits, m, es);
    assert Run(limits, m, es).subscriptions.Keys == DesiredOf(Run(limits, m, es));
  }
}
