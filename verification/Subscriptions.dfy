/**
 The subscription manager of a participant (pkg/rtc/subscriptionmanager.go), asynchronous path: desired and held
 tracks are reconciled one at a time, held tracks close asynchronously. Reconciling one track and handling one close
 are atomic steps here; what the resolver, the participant and the media track answer is an oracle.
 */
module Subscriptions {
  import opened Common

  datatype TrackID = TrackID(sid: string)
  datatype PublisherID = PublisherID(sid: string)

  datatype Kind = Audio | Video | Data

  /** `held` is the kind of the subscribed track, if there is one; `removing`: it has been asked to close. */
  datatype Subscription = Subscription(
    desired: bool,
    publisher: Option<PublisherID>,
    kind: Option<Kind>,
    held: Option<Kind>,
    removing: bool)
  {
    predicate NeedsSubscribe() { desired && held.None? }
    predicate NeedsUnsubscribe() { !desired && held.Some? }
    predicate NeedsCleanup() { !desired && held.None? }
  }

  const NEW_SUBSCRIPTION := Subscription(false, None, None, None, false)

  datatype Callback = Callback(publisher: PublisherID, subscribed: bool)

  datatype Manager = Manager(
    subscriptions: map<TrackID, Subscription>,
    videoCount: int,
    audioCount: int,
    subscribedTo: map<PublisherID, set<TrackID>>,
    callbacks: seq<Callback>)

  datatype Limits = Limits(video: int, audio: int)

  datatype Resolved = Resolved(kind: Kind, publisher: PublisherID, permission: bool)

  datatype AddResult = Added | AlreadySubscribed | AddFailed

  /** The world while one track is reconciled. */
  datatype Env = Env(
    canReconcile: bool,
    waitForUnsubscribes: bool,
    canSubscribe: bool,
    resolved: Option<Resolved>,
    added: AddResult,
    notFoundTimedOut: bool)

  function Count(m: Manager, kind: Kind): int {
    match kind case Video => m.videoCount case Audio => m.audioCount case Data => 0
  }

  function Limit(limits: Limits, kind: Kind): int {
    match kind case Video => limits.video case Audio => limits.audio case Data => 0
  }

  predicate HasCapacity(m: Manager, limits: Limits, kind: Kind) {
    !(Limit(limits, kind) > 0 && Count(m, kind) >= Limit(limits, kind))
  }

  function WithCount(m: Manager, kind: Kind, delta: int): Manager {
    match kind
    case Video => m.(videoCount := m.videoCount + delta)
    case Audio => m.(audioCount := m.audioCount + delta)
    case Data => m
  }

  function WithSub(m: Manager, id: TrackID, s: Subscription): Manager {
    m.(subscriptions := m.subscriptions[id := s])
  }

  function Indexed(m: Manager, p: PublisherID, id: TrackID): Manager {
    if p in m.subscribedTo then m.(subscribedTo := m.subscribedTo[p := m.subscribedTo[p] + {id}])
    else m.(subscribedTo := m.subscribedTo[p := {id}], callbacks := m.callbacks + [Callback(p, true)])
  }

  function Unindexed(m: Manager, p: PublisherID, id: TrackID): Manager {
    if p !in m.subscribedTo then m
    else if m.subscribedTo[p] - {id} == {} then
      m.(subscribedTo := m.subscribedTo - {p}, callbacks := m.callbacks + [Callback(p, false)])
    else m.(subscribedTo := m.subscribedTo[p := m.subscribedTo[p] - {id}])
  }

  /** The kind of a subscription is the first one seen. */
  function WithKind(m: Manager, id: TrackID, kind: Kind): Manager
    requires id in m.subscriptions
  {
    var s := m.subscriptions[id];
    WithSub(m, id, s.(kind := if s.kind.None? then Some(kind) else s.kind))
  }

  function WithPublisher(m: Manager, id: TrackID, publisher: PublisherID): Manager
    requires id in m.subscriptions
  {
    WithSub(m, id, m.subscriptions[id].(publisher := Some(publisher)))
  }

  function WithHeld(m: Manager, id: TrackID, kind: Kind): Manager
    requires id in m.subscriptions
  {
    WithCount(WithSub(m, id, m.subscriptions[id].(held := Some(kind), removing := false)), kind, 1)
  }

  /** One attempt to subscribe: how far it got, and whether the track was not found. */
  function Subscribe(m: Manager, limits: Limits, id: TrackID, env: Env): (Manager, bool)
    requires id in m.subscriptions
  {
    var known := m.subscriptions[id].kind;
    if !env.canSubscribe then (m, false)
    else if known.Some? && !HasCapacity(m, limits, known.value) then (m, false)
    else if env.resolved.None? then (m, true)
    else
      var r := env.resolved.value;
      var m1 := WithKind(m, id, r.kind);
      if !HasCapacity(m1, limits, r.kind) then (m1, false)
      else
        var m2 := WithPublisher(m1, id, r.publisher);
        if !r.permission || env.added == AddFailed then (m2, false)
        else (Indexed(if env.added == Added then WithHeld(m2, id, r.kind) else m2, r.publisher, id), false)
  }

  function Reconcile(m: Manager, limits: Limits, id: TrackID, env: Env): Manager {
    if !env.canReconcile || id !in m.subscriptions then m
    else
      var s := m.subscriptions[id];
      if s.NeedsSubscribe() then
        if env.waitForUnsubscribes then m
        else
          var (m1, notFound) := Subscribe(m, limits, id, env);
          if notFound && env.notFoundTimedOut then WithSub(m1, id, m1.subscriptions[id].(desired := false)) else m1
      else if s.NeedsUnsubscribe() then WithSub(m, id, s.(removing := true))
      else if s.NeedsCleanup() then m.(subscriptions := m.subscriptions - {id})
      else m
  }

  /** A held track has closed: because it was asked to, or because its publisher or source went away. */
  function CloseBegun(m: Manager, id: TrackID): Manager {
    if id !in m.subscriptions || m.subscriptions[id].held.None? then m
    else
      var s := m.subscriptions[id];
      WithCount(WithSub(m, id, s.(held := None, removing := false)), s.held.value, -1)
  }

  function HandleClose(m: Manager, id: TrackID): Manager {
    if id !in m.subscriptions || m.subscriptions[id].held.None? then m
    else
      var publisher := m.subscriptions[id].publisher;
      if publisher.Some? then Unindexed(CloseBegun(m, id), publisher.value, id) else CloseBegun(m, id)
  }

  function SetDesired(m: Manager, id: TrackID, desired: bool): Manager {
    if id in m.subscriptions then WithSub(m, id, m.subscriptions[id].(desired := desired)) else m
  }

  function AfterSubscribeToTrack(m: Manager, id: TrackID): Manager {
    SetDesired(if id in m.subscriptions then m else WithSub(m, id, NEW_SUBSCRIPTION), id, true)
  }

  function UpdateSettings(m: Manager, id: TrackID): Manager {
    if id in m.subscriptions then m else WithSub(m, id, NEW_SUBSCRIPTION)
  }

  class SubscriptionManager {
    const limits: Limits
    var subscriptions: map<TrackID, Subscription>
    var subscribedVideoCount: int
    var subscribedAudioCount: int
    var subscribedTo: map<PublisherID, set<TrackID>>
    var callbacks: seq<Callback>

    function View(): Manager
      reads this
    {
      Manager(subscriptions, subscribedVideoCount, subscribedAudioCount, subscribedTo, callbacks)
    }

    constructor (limits: Limits)
      ensures View() == Init() && this.limits == limits
    {
      this.limits := limits;
      subscriptions, subscribedVideoCount, subscribedAudioCount, subscribedTo, callbacks := map[], 0, 0, map[], [];
    }

    method SubscribeToTrack(id: TrackID)
      modifies this
      ensures View() == AfterSubscribeToTrack(old(View()), id)
    {
      if id !in subscriptions {
        subscriptions := subscriptions[id := NEW_SUBSCRIPTION];
      }
      subscriptions := subscriptions[id := subscriptions[id].(desired := true)];
    }

    method UnsubscribeFromTrack(id: TrackID)
      modifies this
      ensures View() == SetDesired(old(View()), id, false)
    {
      if id in subscriptions {
        subscriptions := subscriptions[id := subscriptions[id].(desired := false)];
      }
    }

    method HasCapacityForSubscription(kind: Kind) returns (ok: bool)
      ensures ok == HasCapacity(View(), limits, kind)
    {
      match kind {
        case Video =>
          if limits.video > 0 && subscribedVideoCount >= limits.video {
            return false;
          }
        case Audio =>
          if limits.audio > 0 && subscribedAudioCount >= limits.audio {
            return false;
          }
        case Data =>
      }
      return true;
    }

    /** The new subscribed track is kept, and counted by its kind. */
    method SetSubscribedTrack(id: TrackID, kind: Kind)
      requires id in subscriptions
      modifies this
      ensures View() == WithHeld(old(View()), id, kind)
    {
      subscriptions := subscriptions[id := subscriptions[id].(held := Some(kind), removing := false)];
      match kind {
        case Video => subscribedVideoCount := subscribedVideoCount + 1;
        case Audio => subscribedAudioCount := subscribedAudioCount + 1;
        case Data =>
      }
    }

    /** The publisher is marked as someone this participant is subscribed to. */
    method AddToSubscribedTo(publisher: PublisherID, id: TrackID)
      modifies this
      ensures View() == Indexed(old(View()), publisher, id)
    {
      var firstSubscribe := publisher !in subscribedTo;
      if firstSubscribe {
        subscribedTo := subscribedTo[publisher := {id}];
        callbacks := callbacks + [Callback(publisher, true)];
      } else {
        subscribedTo := subscribedTo[publisher := subscribedTo[publisher] + {id}];
      }
    }

    method SubscribeNow(id: TrackID, env: Env) returns (notFound: bool)
      requires id in subscriptions
      modifies this
      ensures (View(), notFound) == Subscribe(old(View()), limits, id, env)
    {
      if !env.canSubscribe {
        return false;
      }
      if subscriptions[id].kind.Some? {
        var ok := HasCapacityForSubscription(subscriptions[id].kind.value);
        if !ok {
          return false;
        }
      }
      if env.resolved.None? {
        return true;
      }
      var r := env.resolved.value;
      if subscriptions[id].kind.None? {
        subscriptions := subscriptions[id := subscriptions[id].(kind := Some(r.kind))];
      }
      assert View() == WithKind(old(View()), id, r.kind);
      var ok := HasCapacityForSubscription(r.kind);
      if !ok {
        return false;
      }
      subscriptions := subscriptions[id := subscriptions[id].(publisher := Some(r.publisher))];
      if !r.permission || env.added == AddFailed {
        return false;
      }
      if env.added == Added {
        SetSubscribedTrack(id, r.kind);
      }
      AddToSubscribedTo(r.publisher, id);
      return false;
    }

    method ReconcileSubscription(id: TrackID, env: Env)
      modifies this
      ensures View() == Reconcile(old(View()), limits, id, env)
    {
      if !env.canReconcile || id !in subscriptions {
        return;
      }
      if subscriptions[id].NeedsSubscribe() {
        if env.waitForUnsubscribes {
          return;
        }
        var notFound := SubscribeNow(id, env);
        if notFound && env.notFoundTimedOut {
          subscriptions := subscriptions[id := subscriptions[id].(desired := false)];
        }
        return;
      }
      if subscriptions[id].NeedsUnsubscribe() {
        subscriptions := subscriptions[id := subscriptions[id].(removing := true)];
        return;
      }
      if subscriptions[id].NeedsCleanup() {
        subscriptions := subscriptions - {id};
      }
    }

    /** The first section of a close: the track is no longer held, nor counted. */
    method DropSubscribedTrack(id: TrackID) returns (dropped: bool)
      modifies this
      ensures View() == CloseBegun(old(View()), id)
      ensures dropped == (id in old(subscriptions) && old(subscriptions)[id].held.Some?)
    {
      if id !in subscriptions || subscriptions[id].held.None? {
        return false;
      }
      var s := subscriptions[id];
      subscriptions := subscriptions[id := s.(held := None, removing := false)];
      match s.held.value {
        case Video => subscribedVideoCount := subscribedVideoCount - 1;
        case Audio => subscribedAudioCount := subscribedAudioCount - 1;
        case Data =>
      }
      return true;
    }

    /** The second, locked section: the track is no longer indexed. */
    method RemoveFromSubscribedTo(publisher: PublisherID, id: TrackID)
      modifies this
      ensures View() == Unindexed(old(View()), publisher, id)
    {
      if publisher in subscribedTo {
        var left := subscribedTo[publisher] - {id};
        if left == {} {
          subscribedTo := subscribedTo - {publisher};
          callbacks := callbacks + [Callback(publisher, false)];
        } else {
          subscribedTo := subscribedTo[publisher := left];
        }
      }
    }

    method HandleSubscribedTrackClose(id: TrackID)
      modifies this
      ensures View() == HandleClose(old(View()), id)
    {
      var dropped := DropSubscribedTrack(id);
      if !dropped {
        return;
      }
      var publisher := subscriptions[id].publisher;
      if publisher.Some? {
        RemoveFromSubscribedTo(publisher.value, id);
      }
    }
  }

  // ---------- whole runs ----------

  datatype Event =
    | Wanted(id: TrackID)
    | Unwanted(id: TrackID)      // unsubscribed by the user, or the source track was removed
    | SettingsUpdated(id: TrackID)
    | Reconciled(id: TrackID, env: Env)
    | Closed(id: TrackID)

  function Init(): Manager {
    Manager(map[], 0, 0, map[], [])
  }

  function Step(limits: Limits, m: Manager, e: Event): Manager {
    match e
    case Wanted(id) => AfterSubscribeToTrack(m, id)
    case Unwanted(id) => SetDesired(m, id, false)
    case SettingsUpdated(id) => UpdateSettings(m, id)
    case Reconciled(id, env) => Reconcile(m, limits, id, env)
    case Closed(id) => HandleClose(m, id)
  }

  function Exec(limits: Limits, es: seq<Event>): Manager {
    if es == [] then Init() else Step(limits, Exec(limits, es[..|es| - 1]), es[|es| - 1])
  }

  ghost function HeldOf(m: Manager, kind: Kind): set<TrackID> {
    set id | id in m.subscriptions && m.subscriptions[id].held == Some(kind)
  }

  /** What the last callback told about a publisher. */
  function LastTold(cbs: seq<Callback>, p: PublisherID): bool {
    if cbs == [] then false
    else if cbs[|cbs| - 1].publisher == p then cbs[|cbs| - 1].subscribed
    else LastTold(cbs[..|cbs| - 1], p)
  }

  /** Per publisher, callbacks strictly alternate, starting with true. */
  predicate Alternating(cbs: seq<Callback>) {
    cbs == [] || var init, c := cbs[..|cbs| - 1], cbs[|cbs| - 1];
    Alternating(init) && LastTold(init, c.publisher) != c.subscribed
  }

  ghost predicate CountsOk(limits: Limits, m: Manager) {
    forall kind: Kind :: kind != Data ==>
      && Count(m, kind) == |HeldOf(m, kind)|
      && (Limit(limits, kind) > 0 ==> Count(m, kind) <= Limit(limits, kind))
  }

  predicate IsIndexed(m: Manager, p: PublisherID, id: TrackID) {
    p in m.subscribedTo && id in m.subscribedTo[p]
  }

  /** A held track is indexed under its publisher, unless it is lost. */
  ghost predicate HeldIsIndexed(m: Manager, lost: set<TrackID>, id: TrackID)
    requires id in m.subscriptions
  {
    var s := m.subscriptions[id];
    s.held.Some? ==> s.publisher.Some? && (IsIndexed(m, s.publisher.value, id) <==> id !in lost)
  }

  /** The index has every held track, except exactly the lost ones, and no empty set. */
  ghost predicate IndexOk(m: Manager, lost: set<TrackID>) {
    && (forall id <- m.subscriptions :: HeldIsIndexed(m, lost, id))
    && (forall id <- lost :: id in m.subscriptions && m.subscriptions[id].held.Some?)
    && (forall p <- m.subscribedTo :: m.subscribedTo[p] != {})
  }

  ghost predicate CallbacksOk(m: Manager) {
    Alternating(m.callbacks) && forall p :: LastTold(m.callbacks, p) <==> p in m.subscribedTo
  }

  ghost predicate InvExcept(limits: Limits, m: Manager, lost: set<TrackID>) {
    CountsOk(limits, m) && IndexOk(m, lost) && CallbacksOk(m)
  }

  ghost predicate Inv(limits: Limits, m: Manager) {
    InvExcept(limits, m, {})
  }

  lemma CallbackOneMore(cbs: seq<Callback>, c: Callback)
    requires Alternating(cbs) && LastTold(cbs, c.publisher) != c.subscribed
    ensures Alternating(cbs + [c])
    ensures forall p :: LastTold(cbs + [c], p) == if p == c.publisher then c.subscribed else LastTold(cbs, p)
  {
    assert (cbs + [c])[..|cbs|] == cbs;
  }

  lemma IndexedKeepsCallbacks(m: Manager, p: PublisherID, id: TrackID)
    requires CallbacksOk(m)
    ensures CallbacksOk(Indexed(m, p, id))
  {
    if p !in m.subscribedTo { CallbackOneMore(m.callbacks, Callback(p, true)); }
  }

  lemma UnindexedKeepsCallbacks(m: Manager, p: PublisherID, id: TrackID)
    requires CallbacksOk(m)
    ensures CallbacksOk(Unindexed(m, p, id))
  {
    if p in m.subscribedTo { CallbackOneMore(m.callbacks, Callback(p, false)); }
  }

  /** Changing one subscription changes each set of held tracks by at most that track. */
  lemma HeldAfterWithSub(m: Manager, id: TrackID, s: Subscription, kind: Kind)
    ensures HeldOf(WithSub(m, id, s), kind) ==
            if s.held == Some(kind) then HeldOf(m, kind) + {id} else HeldOf(m, kind) - {id}
  {
  }

  /** A step that changes neither what is held nor, for a held track, its publisher. */
  lemma SameHeldKeepsInv(limits: Limits, m: Manager, lost: set<TrackID>, id: TrackID, s: Subscription)
    requires InvExcept(limits, m, lost)
    requires s.held == if id in m.subscriptions then m.subscriptions[id].held else None
    requires s.held.Some? ==> s.publisher == m.subscriptions[id].publisher
    ensures InvExcept(limits, WithSub(m, id, s), lost)
  {
    var m' := WithSub(m, id, s);
    forall kind: Kind ensures HeldOf(m', kind) == HeldOf(m, kind) && Count(m', kind) == Count(m, kind) {
      HeldAfterWithSub(m, id, s, kind);
    }
    forall k <- m'.subscriptions ensures HeldIsIndexed(m', lost, k) {
      if k in m.subscriptions { assert HeldIsIndexed(m, lost, k); }
    }
  }

  /** A track that starts or stops being held moves the count of its kind, and no other, by one. */
  lemma HeldCountsMove(m: Manager, id: TrackID, s: Subscription, kind: Kind)
    requires id in m.subscriptions
    ensures |HeldOf(WithSub(m, id, s), kind)| == |HeldOf(m, kind)|
      + (if s.held == Some(kind) then 1 else 0) - (if m.subscriptions[id].held == Some(kind) then 1 else 0)
  {
    HeldAfterWithSub(m, id, s, kind);
    if s.held == Some(kind) && m.subscriptions[id].held == Some(kind) {
      assert HeldOf(WithSub(m, id, s), kind) == HeldOf(m, kind);
    } else if m.subscriptions[id].held == Some(kind) {
      assert HeldOf(m, kind) == (HeldOf(m, kind) - {id}) + {id};
    } else {
      assert id !in HeldOf(m, kind);
      assert s.held != Some(kind) ==> HeldOf(m, kind) - {id} == HeldOf(m, kind);
    }
  }

  lemma CountedKeepsCounts(limits: Limits, m: Manager, id: TrackID, kind: Kind)
    requires CountsOk(limits, m) && id in m.subscriptions
    requires m.subscriptions[id].held.None? && HasCapacity(m, limits, kind)
    ensures CountsOk(limits, WithHeld(m, id, kind))
  {
    var s := m.subscriptions[id].(held := Some(kind), removing := false);
    var m' := WithHeld(m, id, kind);
    forall k: Kind | k != Data
      ensures Count(m', k) == |HeldOf(m', k)| && (Limit(limits, k) > 0 ==> Count(m', k) <= Limit(limits, k))
    {
      HeldCountsMove(m, id, s, k);
      assert HeldOf(m', k) == HeldOf(WithSub(m, id, s), k);
    }
  }

  lemma UncountedKeepsCounts(limits: Limits, m: Manager, id: TrackID, s: Subscription, kind: Kind)
    requires CountsOk(limits, m) && id in m.subscriptions
    requires m.subscriptions[id].held == Some(kind) && s.held.None?
    ensures CountsOk(limits, WithCount(WithSub(m, id, s), kind, -1))
  {
    var m' := WithCount(WithSub(m, id, s), kind, -1);
    forall k: Kind | k != Data
      ensures Count(m', k) == |HeldOf(m', k)| && (Limit(limits, k) > 0 ==> Count(m', k) <= Limit(limits, k))
    {
      HeldCountsMove(m, id, s, k);
      assert HeldOf(m', k) == HeldOf(WithSub(m, id, s), k);
    }
  }

  /** The counts look at the subscriptions and the counters only. */
  lemma CountsIgnoreIndex(limits: Limits, m: Manager, n: Manager)
    requires CountsOk(limits, m)
    requires n.subscriptions == m.subscriptions && n.videoCount == m.videoCount && n.audioCount == m.audioCount
    ensures CountsOk(limits, n)
  {
    forall kind: Kind ensures HeldOf(n, kind) == HeldOf(m, kind) && Count(n, kind) == Count(m, kind) {}
  }

  /** A track that starts to be held is lost, unless its publisher still has it in its set. */
  lemma HoldKeepsInv(limits: Limits, m: Manager, lost: set<TrackID>, id: TrackID, p: PublisherID, kind: Kind)
    requires InvExcept(limits, m, lost) && id in m.subscriptions && m.subscriptions[id].held.None?
    requires m.subscriptions[id].publisher == Some(p) && HasCapacity(m, limits, kind)
    ensures InvExcept(limits, WithHeld(m, id, kind), if IsIndexed(m, p, id) then lost else lost + {id})
  {
    CountedKeepsCounts(limits, m, id, kind);
    var n, lost' := WithHeld(m, id, kind), if IsIndexed(m, p, id) then lost else lost + {id};
    forall k <- n.subscriptions ensures HeldIsIndexed(n, lost', k) {
      if k != id { assert HeldIsIndexed(m, lost, k); }
    }
  }

  lemma IndexedIff(m: Manager, p: PublisherID, id: TrackID, q: PublisherID, k: TrackID)
    ensures IsIndexed(Indexed(m, p, id), q, k) <==> IsIndexed(m, q, k) || (q == p && k == id)
  {
  }

  /** A track that is indexed under its own publisher is not lost any more. */
  lemma IndexingFinds(m: Manager, lost: set<TrackID>, id: TrackID, p: PublisherID)
    requires IndexOk(m, lost) && id in m.subscriptions && m.subscriptions[id].publisher == Some(p)
    ensures IndexOk(Indexed(m, p, id), lost - {id})
  {
    var n := Indexed(m, p, id);
    forall k <- n.subscriptions ensures HeldIsIndexed(n, lost - {id}, k) {
      var s := m.subscriptions[k];
      assert HeldIsIndexed(m, lost, k);
      if s.held.Some? { IndexedIff(m, p, id, s.publisher.value, k); }
    }
  }

  lemma IndexKeepsInv(limits: Limits, m: Manager, lost: set<TrackID>, id: TrackID, p: PublisherID)
    requires InvExcept(limits, m, lost) && id in m.subscriptions && m.subscriptions[id].publisher == Some(p)
    ensures InvExcept(limits, Indexed(m, p, id), lost - {id})
  {
    IndexingFinds(m, lost, id, p);
    IndexedKeepsCallbacks(m, p, id);
    CountsIgnoreIndex(limits, m, Indexed(m, p, id));
  }

  lemma AddingKeepsInv(limits: Limits, m: Manager, lost: set<TrackID>, id: TrackID, r: Resolved, added: bool)
    requires InvExcept(limits, m, lost) && id in m.subscriptions && m.subscriptions[id].held.None?
    requires m.subscriptions[id].publisher == Some(r.publisher) && HasCapacity(m, limits, r.kind)
    ensures InvExcept(limits, Indexed(if added then WithHeld(m, id, r.kind) else m, r.publisher, id), lost)
  {
    assert id !in lost;
    if added {
      HoldKeepsInv(limits, m, lost, id, r.publisher, r.kind);
      var lost' := if IsIndexed(m, r.publisher, id) then lost else lost + {id};
      IndexKeepsInv(limits, WithHeld(m, id, r.kind), lost', id, r.publisher);
      assert lost' - {id} == lost;
    } else {
      IndexKeepsInv(limits, m, lost, id, r.publisher);
      assert lost - {id} == lost;
    }
  }

  lemma SubscribeKeepsInv(limits: Limits, m: Manager, lost: set<TrackID>, id: TrackID, env: Env)
    requires InvExcept(limits, m, lost) && id in m.subscriptions && m.subscriptions[id].held.None?
    ensures InvExcept(limits, Subscribe(m, limits, id, env).0, lost)
    ensures Subscribe(m, limits, id, env).1 ==> Subscribe(m, limits, id, env).0 == m
  {
    if env.resolved.Some? {
      var r := env.resolved.value;
      var m1 := WithKind(m, id, r.kind);
      SameHeldKeepsInv(limits, m, lost, id, m1.subscriptions[id]);
      var m2 := WithPublisher(m1, id, r.publisher);
      SameHeldKeepsInv(limits, m1, lost, id, m2.subscriptions[id]);
      if HasCapacity(m1, limits, r.kind) { AddingKeepsInv(limits, m2, lost, id, r, env.added == Added); }
    }
  }

  /** A track that closes is not lost any more. */
  lemma CloseBegunKeepsInv(limits: Limits, m: Manager, lost: set<TrackID>, id: TrackID)
    requires InvExcept(limits, m, lost)
    ensures InvExcept(limits, CloseBegun(m, id), lost - {id})
  {
    var n := CloseBegun(m, id);
    if n != m {
      UncountedKeepsCounts(limits, m, id, n.subscriptions[id], m.subscriptions[id].held.value);
    }
    forall k <- n.subscriptions ensures HeldIsIndexed(n, lost - {id}, k) { assert HeldIsIndexed(m, lost, k); }
  }

  /** A track that is taken out of the index of a publisher it is held under is lost. */
  lemma UnindexingLoses(m: Manager, lost: set<TrackID>, p: PublisherID, id: TrackID)
    requires IndexOk(m, lost)
    ensures IndexOk(Unindexed(m, p, id), if HeldUnder(m, p, id) then lost + {id} else lost)
  {
    var n, lost' := Unindexed(m, p, id), if HeldUnder(m, p, id) then lost + {id} else lost;
    forall k <- n.subscriptions ensures HeldIsIndexed(n, lost', k) {
      assert HeldIsIndexed(m, lost, k);
      assert k != id && IsIndexed(m, p, k) ==> k in m.subscribedTo[p] - {id};
    }
  }

  lemma UnindexingKeepsInv(limits: Limits, m: Manager, lost: set<TrackID>, p: PublisherID, id: TrackID)
    requires InvExcept(limits, m, lost)
    ensures InvExcept(limits, Unindexed(m, p, id), if HeldUnder(m, p, id) then lost + {id} else lost)
  {
    UnindexingLoses(m, lost, p, id);
    UnindexedKeepsCallbacks(m, p, id);
    CountsIgnoreIndex(limits, m, Unindexed(m, p, id));
  }

  lemma CloseEndsKeepsInv(limits: Limits, m: Manager, lost: set<TrackID>, p: PublisherID, id: TrackID)
    requires InvExcept(limits, m, lost) && id in m.subscriptions && m.subscriptions[id].held.None?
    ensures InvExcept(limits, Unindexed(m, p, id), lost)
  {
    UnindexingKeepsInv(limits, m, lost, p, id);
    assert !HeldUnder(m, p, id);
  }

  lemma CloseKeepsInv(limits: Limits, m: Manager, lost: set<TrackID>, id: TrackID)
    requires InvExcept(limits, m, lost)
    ensures InvExcept(limits, HandleClose(m, id), lost - {id})
  {
    var begun := CloseBegun(m, id);
    CloseBegunKeepsInv(limits, m, lost, id);
    if id !in m.subscriptions || m.subscriptions[id].held.None? || m.subscriptions[id].publisher.None? {
      assert HandleClose(m, id) == begun;
    } else {
      var p := m.subscriptions[id].publisher.value;
      CloseEndsKeepsInv(limits, begun, lost - {id}, p, id);
      assert HandleClose(m, id) == Unindexed(begun, p, id);
    }
  }

  /** Any event but a close leaves the same tracks lost. */
  lemma StepKeepsInvExcept(limits: Limits, m: Manager, lost: set<TrackID>, e: Event)
    requires InvExcept(limits, m, lost)
    ensures InvExcept(limits, Step(limits, m, e), if e.Closed? then lost - {e.id} else lost)
  {
    match e
    case Wanted(id) =>
      var s := if id in m.subscriptions then m.subscriptions[id] else NEW_SUBSCRIPTION;
      SameHeldKeepsInv(limits, m, lost, id, s.(desired := true));
      assert AfterSubscribeToTrack(m, id) == WithSub(m, id, s.(desired := true));
    case Unwanted(id) =>
      if id in m.subscriptions { SameHeldKeepsInv(limits, m, lost, id, m.subscriptions[id].(desired := false)); }
    case SettingsUpdated(id) =>
      if id !in m.subscriptions { SameHeldKeepsInv(limits, m, lost, id, NEW_SUBSCRIPTION); }
    case Reconciled(id, env) => ReconcileKeepsInv(limits, m, lost, id, env);
    case Closed(id) => CloseKeepsInv(limits, m, lost, id);
  }

  lemma StepKeepsInv(limits: Limits, m: Manager, e: Event)
    requires Inv(limits, m)
    ensures Inv(limits, Step(limits, m, e))
  {
    StepKeepsInvExcept(limits, m, {}, e);
    if e.Closed? { assert {} - {e.id} == {}; }
  }

  lemma ReconcileKeepsInv(limits: Limits, m: Manager, lost: set<TrackID>, id: TrackID, env: Env)
    requires InvExcept(limits, m, lost)
    ensures InvExcept(limits, Reconcile(m, limits, id, env), lost)
  {
    if env.canReconcile && id in m.subscriptions {
      var s := m.subscriptions[id];
      if s.NeedsSubscribe() {
        SubscribeKeepsInv(limits, m, lost, id, env);
        SameHeldKeepsInv(limits, m, lost, id, s.(desired := false));
      } else if s.NeedsUnsubscribe() {
        SameHeldKeepsInv(limits, m, lost, id, s.(removing := true));
      } else if s.NeedsCleanup() {
        var m' := m.(subscriptions := m.subscriptions - {id});
        forall kind: Kind ensures HeldOf(m', kind) == HeldOf(m, kind) {}
        forall k <- m'.subscriptions ensures HeldIsIndexed(m', lost, k) { assert HeldIsIndexed(m, lost, k); }
      }
    }
  }

  /** Counts, limits, publisher index and status callbacks agree with the held tracks, whatever happens in any order. */
  lemma {:induction false} AccountingHolds(limits: Limits, es: seq<Event>)
    ensures Inv(limits, Exec(limits, es))
    decreases |es|
  {
    if es == [] {
      forall kind: Kind ensures HeldOf(Init(), kind) == {} {}
    } else {
      AccountingHolds(limits, es[..|es| - 1]);
      StepKeepsInv(limits, Exec(limits, es[..|es| - 1]), es[|es| - 1]);
    }
  }

  // ---------- the publisher index, exactly ----------

  predicate HeldUnder(m: Manager, p: PublisherID, id: TrackID) {
    id in m.subscriptions && m.subscriptions[id].held.Some? && m.subscriptions[id].publisher == Some(p)
  }

  /** Nothing but held tracks is indexed, each under its own publisher. */
  ghost predicate IndexExact(m: Manager) {
    forall p, id :: p in m.subscribedTo && id in m.subscribedTo[p] ==> HeldUnder(m, p, id)
  }

  /** Reconciling gets as far as marking the publisher as someone subscribed to. */
  predicate ReachesIndex(m: Manager, limits: Limits, id: TrackID, env: Env) {
    && env.canReconcile && id in m.subscriptions && m.subscriptions[id].NeedsSubscribe() && !env.waitForUnsubscribes
    && env.canSubscribe && env.resolved.Some? && env.resolved.value.permission && env.added != AddFailed
    && (m.subscriptions[id].kind.Some? ==> HasCapacity(m, limits, m.subscriptions[id].kind.value))
    && HasCapacity(m, limits, env.resolved.value.kind)
  }

  /** It gets that far, and the media track says that it is subscribed already. */
  predicate FindsItself(m: Manager, limits: Limits, id: TrackID, env: Env) {
    ReachesIndex(m, limits, id, env) && env.added == AlreadySubscribed
  }

  /** Changing a track that is not held, and so not indexed. */
  lemma UnheldKeepsIndexExact(m: Manager, n: Manager, id: TrackID)
    requires IndexExact(m) && n.subscribedTo == m.subscribedTo
    requires id in m.subscriptions ==> m.subscriptions[id].held.None?
    requires n.subscriptions - {id} == m.subscriptions - {id}
    ensures IndexExact(n)
  {
    forall p, k | p in n.subscribedTo && k in n.subscribedTo[p] ensures HeldUnder(n, p, k) {
      assert HeldUnder(m, p, k);
      assert k in (m.subscriptions - {id}) && (m.subscriptions - {id})[k] == m.subscriptions[k];
    }
  }

  lemma SubscribeKeepsIndexExactIff(limits: Limits, m: Manager, id: TrackID, env: Env)
    requires IndexExact(m) && id in m.subscriptions && m.subscriptions[id].NeedsSubscribe()
    requires env.canReconcile && !env.waitForUnsubscribes
    ensures IndexExact(Subscribe(m, limits, id, env).0) <==> !FindsItself(m, limits, id, env)
  {
    if env.resolved.Some? {
      var r := env.resolved.value;
      var m1 := WithKind(m, id, r.kind);
      UnheldKeepsIndexExact(m, m1, id);
      var m2 := WithPublisher(m1, id, r.publisher);
      UnheldKeepsIndexExact(m1, m2, id);
      var m3 := WithHeld(m2, id, r.kind);
      UnheldKeepsIndexExact(m2, m3, id);
      IndexedExactIff(m2, r.publisher, id);
      IndexedExactIff(m3, r.publisher, id);
    }
  }

  lemma IndexedExactIff(m: Manager, p: PublisherID, id: TrackID)
    requires IndexExact(m)
    ensures IndexExact(Indexed(m, p, id)) <==> HeldUnder(m, p, id)
  {
    var n := Indexed(m, p, id);
    assert p in n.subscribedTo && id in n.subscribedTo[p];
    forall k, q ensures HeldUnder(n, q, k) == HeldUnder(m, q, k) {}
  }

  /** That answer, and nothing else, makes a reconcile index a track that is not held. */
  lemma ReconcileKeepsIndexExactIff(limits: Limits, m: Manager, id: TrackID, env: Env)
    requires IndexExact(m)
    ensures IndexExact(Reconcile(m, limits, id, env)) <==> !FindsItself(m, limits, id, env)
  {
    if env.canReconcile && id in m.subscriptions {
      var s := m.subscriptions[id];
      if s.NeedsSubscribe() && !env.waitForUnsubscribes {
        SubscribeKeepsIndexExactIff(limits, m, id, env);
        UnheldKeepsIndexExact(m, WithSub(m, id, s.(desired := false)), id);
      } else if s.NeedsUnsubscribe() {
        SameHeldKeepsIndexExact(m, id, s.(removing := true));
      } else if s.NeedsCleanup() {
        UnheldKeepsIndexExact(m, m.(subscriptions := m.subscriptions - {id}), id);
      }
    }
  }

  lemma SameHeldKeepsIndexExact(m: Manager, id: TrackID, s: Subscription)
    requires IndexExact(m)
    requires id in m.subscriptions ==>
               s.held == m.subscriptions[id].held && s.publisher == m.subscriptions[id].publisher
    ensures IndexExact(WithSub(m, id, s))
  {
    forall k, q | HeldUnder(m, q, k) ensures HeldUnder(WithSub(m, id, s), q, k) {}
  }

  lemma CloseKeepsIndexExact(m: Manager, id: TrackID)
    requires IndexExact(m)
    ensures IndexExact(HandleClose(m, id))
  {
    var n := HandleClose(m, id);
    forall p, k | p in n.subscribedTo && k in n.subscribedTo[p] ensures HeldUnder(n, p, k) {
      assert p in m.subscribedTo && k in m.subscribedTo[p];
      assert HeldUnder(m, p, k);
    }
  }

  lemma StepKeepsIndexExactIff(limits: Limits, m: Manager, e: Event)
    requires IndexExact(m)
    ensures IndexExact(Step(limits, m, e)) <==> !(e.Reconciled? && FindsItself(m, limits, e.id, e.env))
  {
    match e
    case Wanted(id) =>
      var s := if id in m.subscriptions then m.subscriptions[id] else NEW_SUBSCRIPTION;
      SameHeldKeepsIndexExact(m, id, s.(desired := true));
      assert AfterSubscribeToTrack(m, id) == WithSub(m, id, s.(desired := true));
    case Unwanted(id) =>
      if id in m.subscriptions { SameHeldKeepsIndexExact(m, id, m.subscriptions[id].(desired := false)); }
    case SettingsUpdated(id) =>
      if id !in m.subscriptions { SameHeldKeepsIndexExact(m, id, NEW_SUBSCRIPTION); }
    case Reconciled(id, env) => ReconcileKeepsIndexExactIff(limits, m, id, env);
    case Closed(id) => CloseKeepsIndexExact(m, id);
  }

  predicate NeverFindsItself(limits: Limits, es: seq<Event>) {
    es == [] ||
    var init, e := es[..|es| - 1], es[|es| - 1];
    NeverFindsItself(limits, init) && !(e.Reconciled? && FindsItself(Exec(limits, init), limits, e.id, e.env))
  }

  /** The index is exact after every event of the run. */
  ghost predicate AlwaysExact(limits: Limits, es: seq<Event>) {
    IndexExact(Exec(limits, es)) && (es == [] || AlwaysExact(limits, es[..|es| - 1]))
  }

  /** Nothing but held tracks is indexed all along a run if and only if no reconcile in it gets that answer. */
  lemma {:induction false} AlwaysExactIff(limits: Limits, es: seq<Event>)
    ensures AlwaysExact(limits, es) <==> NeverFindsItself(limits, es)
    decreases |es|
  {
    if es != [] {
      var init, e := es[..|es| - 1], es[|es| - 1];
      AlwaysExactIff(limits, init);
      if AlwaysExact(limits, init) { StepKeepsIndexExactIff(limits, Exec(limits, init), e); }
    }
  }

  /** As long as no reconcile gets that answer, a publisher is told subscribed exactly while a track of it is held. */
  lemma {:induction false} ToldWhileHeld(limits: Limits, es: seq<Event>, p: PublisherID)
    requires NeverFindsItself(limits, es)
    ensures LastTold(Exec(limits, es).callbacks, p) <==> exists id :: HeldUnder(Exec(limits, es), p, id)
  {
    AlwaysExactIff(limits, es);
    AccountingHolds(limits, es);
    var m := Exec(limits, es);
    if p in m.subscribedTo {
      var id :| id in m.subscribedTo[p];
      assert HeldUnder(m, p, id);
    }
    forall id | HeldUnder(m, p, id) ensures p in m.subscribedTo { assert HeldIsIndexed(m, {}, id); }
  }

  lemma ExecOneMore(limits: Limits, es: seq<Event>, e: Event)
    ensures Exec(limits, es + [e]) == Step(limits, Exec(limits, es), e)
  {
    assert (es + [e])[..|es|] == es;
  }

  /** Such a run: the media track takes the participant for subscribed already, though no subscribed track is held. */
  lemma IndexesUnheldTrack(limits: Limits, id: TrackID, p: PublisherID) returns (es: seq<Event>)
    ensures !IndexExact(Exec(limits, es)) && !NeverFindsItself(limits, es)
    ensures LastTold(Exec(limits, es).callbacks, p) && forall k :: !HeldUnder(Exec(limits, es), p, k)
  {
    var env := Env(true, false, true, Some(Resolved(Data, p, true)), AlreadySubscribed, false);
    var wanted, found := Wanted(id), Reconciled(id, env);
    ExecOneMore(limits, [], wanted);
    ExecOneMore(limits, [wanted], found);
    assert [] + [wanted] == [wanted] && [wanted] + [found] == [wanted, found] && [wanted, found][..1] == [wanted];
    var s := NEW_SUBSCRIPTION.(desired := true);
    var m := Exec(limits, [wanted]);
    assert m.subscriptions == map[id := s];
    assert m == Manager(map[id := s], 0, 0, map[], []);
    es := [wanted, found];
    assert FindsItself(m, limits, id, env);
    ReconcileKeepsIndexExactIff(limits, m, id, env);
    var held := s.(kind := Some(Data), publisher := Some(p));
    assert Exec(limits, es) == Manager(map[id := held], 0, 0, map[p := {id}], [Callback(p, true)]);
  }
}
