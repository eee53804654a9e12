/**
 Subscribing to a track and closing one in their sections (pkg/rtc/subscriptionmanager.go). A subscribe keeps and counts
 the track, and adds it to the publisher index later, under the lock; a close drops and uncounts the track, and takes it
 out of the index later, under the lock. One worker reconciles; anything else may happen in between.
 */
module SubscriptionSections {
  import opened Common
  import opened Subscriptions

  datatype Adding = Adding(id: TrackID, publisher: PublisherID)

  /**
   `closing` are the closes between their sections, `adding` the subscribe between its own. `lost` are the held tracks
   that are not in the index.
   */
  datatype Split = Split(m: Manager, closing: multiset<TrackID>, adding: Option<Adding>, lost: set<TrackID>)
  {
    predicate IsAdding(id: TrackID) { adding.Some? && adding.value.id == id }
  }

  type Request = e: Event | e.Wanted? || e.Unwanted? || e.SettingsUpdated? witness Wanted(TrackID(""))

  datatype SplitEvent =
    | Requested(request: Request)
    | Reconciles(id: TrackID, env: Env)                   // up to the index, if it gets that far
    | AddsToIndex
    | CloseBegins(id: TrackID)
    | CloseFinishes(id: TrackID, publisher: PublisherID)  // the publisher is read in between, too

  function SplitInit(): Split {
    Split(Init(), multiset{}, None, {})
  }

  predicate Holds(m: Manager, id: TrackID) {
    id in m.subscriptions && m.subscriptions[id].held.Some?
  }

  /** A subscribe before its locked section: the track is known and, unless the answer is already subscribed, held. */
  function BeforeIndex(m: Manager, id: TrackID, r: Resolved, added: bool): Manager
    requires id in m.subscriptions
  {
    var m2 := WithPublisher(WithKind(m, id, r.kind), id, r.publisher);
    if added then WithHeld(m2, id, r.kind) else m2
  }

  function SplitStep(limits: Limits, s: Split, e: SplitEvent): Split {
    match e
    case Requested(request) => s.(m := Step(limits, s.m, request))
    case Reconciles(id, env) =>
      if s.adding.Some? then s
      else if !ReachesIndex(s.m, limits, id, env) then s.(m := Reconcile(s.m, limits, id, env))
      else
        var r, added := env.resolved.value, env.added == Added;
        Split(BeforeIndex(s.m, id, r, added), s.closing, Some(Adding(id, r.publisher)),
              if added && !IsIndexed(s.m, r.publisher, id) then s.lost + {id} else s.lost)
    case AddsToIndex =>
      if s.adding.None? then s
      else
        var a := s.adding.value;
        Split(Indexed(s.m, a.publisher, a.id), s.closing, None, s.lost - {a.id})
    case CloseBegins(id) =>
      if Holds(s.m, id) then s.(m := CloseBegun(s.m, id), closing := s.closing + multiset{id}, lost := s.lost - {id})
      else s
    case CloseFinishes(id, publisher) =>
      if id !in s.closing then s
      else
        s.(m := Unindexed(s.m, publisher, id), closing := s.closing - multiset{id},
           lost := if HeldUnder(s.m, publisher, id) then s.lost + {id} else s.lost)
  }

  function SplitExec(limits: Limits, es: seq<SplitEvent>): Split {
    if es == [] then SplitInit() else SplitStep(limits, SplitExec(limits, es[..|es| - 1]), es[|es| - 1])
  }

  lemma SplitExecOneMore(limits: Limits, es: seq<SplitEvent>, e: SplitEvent)
    ensures SplitExec(limits, es + [e]) == SplitStep(limits, SplitExec(limits, es), e)
  {
    assert (es + [e])[..|es|] == es;
  }

  // ---------- what the sections keep ----------

  /** The track being added is known, under the publisher it is to be added to. */
  ghost predicate SplitInv(limits: Limits, s: Split) {
    && InvExcept(limits, s.m, s.lost)
    && (s.adding.Some? ==>
          var a := s.adding.value;
          a.id in s.m.subscriptions && s.m.subscriptions[a.id].publisher == Some(a.publisher))
  }

  lemma BeforeIndexKeepsInv(limits: Limits, m: Manager, lost: set<TrackID>, id: TrackID, r: Resolved, added: bool)
    requires InvExcept(limits, m, lost) && id in m.subscriptions && m.subscriptions[id].held.None?
    requires HasCapacity(m, limits, r.kind)
    ensures InvExcept(limits, BeforeIndex(m, id, r, added),
                      if added && !IsIndexed(m, r.publisher, id) then lost + {id} else lost)
  {
    var m1 := WithKind(m, id, r.kind);
    SameHeldKeepsInv(limits, m, lost, id, m1.subscriptions[id]);
    var m2 := WithPublisher(m1, id, r.publisher);
    SameHeldKeepsInv(limits, m1, lost, id, m2.subscriptions[id]);
    if added { HoldKeepsInv(limits, m2, lost, id, r.publisher, r.kind); }
  }

  lemma RequestKeepsPublisher(limits: Limits, m: Manager, request: Request, id: TrackID)
    requires id in m.subscriptions
    ensures var m' := Step(limits, m, request);
            id in m'.subscriptions && m'.subscriptions[id].publisher == m.subscriptions[id].publisher
  {
    match request
    case Wanted(_) =>
    case Unwanted(_) =>
    case SettingsUpdated(_) =>
  }

  /** Neither a request nor a close changes which publisher a track has. */
  lemma PublishersStay(limits: Limits, s: Split, e: SplitEvent, id: TrackID)
    requires !e.Reconciles? && id in s.m.subscriptions
    ensures var m' := SplitStep(limits, s, e).m;
            id in m'.subscriptions && m'.subscriptions[id].publisher == s.m.subscriptions[id].publisher
  {
    match e
    case Requested(request) => RequestKeepsPublisher(limits, s.m, request, id);
    case AddsToIndex =>
    case CloseBegins(_) =>
    case CloseFinishes(_, _) =>
  }

  lemma SplitStepKeepsInv(limits: Limits, s: Split, e: SplitEvent)
    requires SplitInv(limits, s)
    ensures SplitInv(limits, SplitStep(limits, s, e))
  {
    if s.adding.Some? && !e.Reconciles? { PublishersStay(limits, s, e, s.adding.value.id); }
    match e
    case Requested(request) => StepKeepsInvExcept(limits, s.m, s.lost, request);
    case Reconciles(id, env) =>
      if s.adding.None? {
        if ReachesIndex(s.m, limits, id, env) {
          BeforeIndexKeepsInv(limits, s.m, s.lost, id, env.resolved.value, env.added == Added);
        } else {
          ReconcileKeepsInv(limits, s.m, s.lost, id, env);
        }
      }
    case AddsToIndex =>
      if s.adding.Some? { IndexKeepsInv(limits, s.m, s.lost, s.adding.value.id, s.adding.value.publisher); }
    case CloseBegins(id) => CloseBegunKeepsInv(limits, s.m, s.lost, id);
    case CloseFinishes(id, publisher) =>
      UnindexingKeepsInv(limits, s.m, s.lost, publisher, id);
  }

  /**
   In sections, over all runs: counts equal the held tracks and keep to the limits, callbacks alternate, no publisher
   set is empty, and a held track is missing from its publisher's set exactly while it is lost: since it was kept
   without being in the set, or taken out of it by a close of an earlier hold, and until it is added or closed.
   */
  lemma {:induction false} SplitAccountingHolds(limits: Limits, es: seq<SplitEvent>)
    ensures SplitInv(limits, SplitExec(limits, es))
    decreases |es|
  {
    if es == [] {
      assert Init() == Exec(limits, []);
      AccountingHolds(limits, []);
    } else {
      SplitAccountingHolds(limits, es[..|es| - 1]);
      SplitStepKeepsInv(limits, SplitExec(limits, es[..|es| - 1]), es[|es| - 1]);
    }
  }

  // ---------- no held track is missing from the index ----------

  /** Every held track, but one that is still being added, is indexed under its publisher. */
  ghost predicate HeldAreIndexed(s: Split) {
    forall id <- s.m.subscriptions | !s.IsAdding(id) :: HeldIsIndexed(s.m, {}, id)
  }

  lemma HeldAreIndexedIff(limits: Limits, s: Split)
    requires SplitInv(limits, s)
    ensures HeldAreIndexed(s) <==> forall id <- s.lost :: s.IsAdding(id)
  {
    forall id <- s.m.subscriptions ensures HeldIsIndexed(s.m, {}, id) <==> id !in s.lost {
      assert HeldIsIndexed(s.m, s.lost, id);
    }
  }

  /** The second section of a close finds the track held again and added, under the publisher it takes it away from. */
  predicate TakesAway(s: Split, e: SplitEvent) {
    e.CloseFinishes? && e.id in s.closing && HeldUnder(s.m, e.publisher, e.id) && !s.IsAdding(e.id)
  }

  lemma StepKeepsHeldIndexedIff(limits: Limits, s: Split, e: SplitEvent)
    requires SplitInv(limits, s) && HeldAreIndexed(s)
    ensures HeldAreIndexed(SplitStep(limits, s, e)) <==> !TakesAway(s, e)
  {
    var s' := SplitStep(limits, s, e);
    SplitStepKeepsInv(limits, s, e);
    HeldAreIndexedIff(limits, s);
    HeldAreIndexedIff(limits, s');
    if TakesAway(s, e) { assert e.id in s'.lost && !s'.IsAdding(e.id); }
  }

  ghost predicate AlwaysHeldIndexed(limits: Limits, es: seq<SplitEvent>) {
    HeldAreIndexed(SplitExec(limits, es)) && (es == [] || AlwaysHeldIndexed(limits, es[..|es| - 1]))
  }

  predicate NeverTakesAway(limits: Limits, es: seq<SplitEvent>) {
    es == [] ||
    var init := es[..|es| - 1];
    NeverTakesAway(limits, init) && !TakesAway(SplitExec(limits, init), es[|es| - 1])
  }

  /**
   Held tracks are indexed all along a run, but while they are added, if and only if no close finishes in it while its
   track is held again and was added. A close that finishes while its track is being added does no harm.
   */
  lemma {:induction false} HeldIndexedIff(limits: Limits, es: seq<SplitEvent>)
    ensures AlwaysHeldIndexed(limits, es) <==> NeverTakesAway(limits, es)
    decreases |es|
  {
    if es != [] {
      var init := es[..|es| - 1];
      HeldIndexedIff(limits, init);
      SplitAccountingHolds(limits, init);
      if AlwaysHeldIndexed(limits, init) { StepKeepsHeldIndexedIff(limits, SplitExec(limits, init), es[|es| - 1]); }
    }
  }

  // ---------- nothing else is in the index ----------

  /** What is indexed is held under that publisher, or a close of it is yet to finish. */
  ghost predicate NoneStale(s: Split) {
    forall p, id :: IsIndexed(s.m, p, id) ==> HeldUnder(s.m, p, id) || id in s.closing
  }

  /**
   A track is added that is not held, and no close will take it out: the already-subscribed answer, or a close that ran
   before the track was added. Or the last close of a track finishes for another publisher than it is indexed under.
   */
  ghost predicate LeavesStale(s: Split, e: SplitEvent) {
    match e
    case AddsToIndex => s.adding.Some? && !Holds(s.m, s.adding.value.id) && s.adding.value.id !in s.closing
    case CloseFinishes(id, publisher) =>
      s.closing[id] == 1 && exists p :: p != publisher && IsIndexed(s.m, p, id) && !HeldUnder(s.m, p, id)
    case _ => false
  }

  /** A change of one track that is not indexed, or is on its way out, and of nothing else. */
  lemma UnheldStaysNotStale(s: Split, n: Manager, id: TrackID)
    requires NoneStale(s) && !Holds(s.m, id) && n.subscribedTo == s.m.subscribedTo
    requires n.subscriptions - {id} == s.m.subscriptions - {id}
    ensures NoneStale(s.(m := n))
  {
    forall p, k | IsIndexed(n, p, k) ensures HeldUnder(n, p, k) || k in s.closing {
      assert IsIndexed(s.m, p, k);
      if k != id && HeldUnder(s.m, p, k) {
        assert k in (s.m.subscriptions - {id}) && (s.m.subscriptions - {id})[k] == s.m.subscriptions[k];
      }
    }
  }

  lemma SameHeldStaysNotStale(s: Split, id: TrackID, sub: Subscription)
    requires NoneStale(s)
    requires id in s.m.subscriptions ==>
               sub.held == s.m.subscriptions[id].held && sub.publisher == s.m.subscriptions[id].publisher
    ensures NoneStale(s.(m := WithSub(s.m, id, sub)))
  {
    forall p, k | HeldUnder(s.m, p, k) ensures HeldUnder(WithSub(s.m, id, sub), p, k) {}
  }

  lemma RequestLeavesNoneStale(limits: Limits, s: Split, e: Request)
    requires NoneStale(s)
    ensures NoneStale(s.(m := Step(limits, s.m, e)))
  {
    match e
    case Wanted(id) =>
      var sub := if id in s.m.subscriptions then s.m.subscriptions[id] else NEW_SUBSCRIPTION;
      SameHeldStaysNotStale(s, id, sub.(desired := true));
      assert AfterSubscribeToTrack(s.m, id) == WithSub(s.m, id, sub.(desired := true));
    case Unwanted(id) =>
      if id in s.m.subscriptions { SameHeldStaysNotStale(s, id, s.m.subscriptions[id].(desired := false)); }
    case SettingsUpdated(id) =>
      if id !in s.m.subscriptions { SameHeldStaysNotStale(s, id, NEW_SUBSCRIPTION); }
  }

  /** A reconcile of a track that is to be subscribed to changes, up to the index, that track and the counts. */
  lemma SubscribeChangesOne(limits: Limits, m: Manager, id: TrackID, env: Env)
    requires id in m.subscriptions && m.subscriptions[id].NeedsSubscribe()
    ensures var n := if ReachesIndex(m, limits, id, env)
                       then BeforeIndex(m, id, env.resolved.value, env.added == Added)
                       else Reconcile(m, limits, id, env);
            n.subscribedTo == m.subscribedTo && n.subscriptions - {id} == m.subscriptions - {id}
  {
  }

  lemma ReconcileLeavesNoneStale(limits: Limits, s: Split, id: TrackID, env: Env)
    requires NoneStale(s)
    ensures NoneStale(SplitStep(limits, s, Reconciles(id, env)))
  {
    var s' := SplitStep(limits, s, Reconciles(id, env));
    if s.adding.None? && env.canReconcile && id in s.m.subscriptions {
      var sub := s.m.subscriptions[id];
      if sub.NeedsSubscribe() {
        SubscribeChangesOne(limits, s.m, id, env);
        UnheldStaysNotStale(s, s'.m, id);
      } else if sub.NeedsUnsubscribe() {
        SameHeldStaysNotStale(s, id, sub.(removing := true));
      } else if sub.NeedsCleanup() {
        UnheldStaysNotStale(s, s.m.(subscriptions := s.m.subscriptions - {id}), id);
      }
    }
  }

  lemma AddLeavesNoneStaleIff(limits: Limits, s: Split)
    requires SplitInv(limits, s) && NoneStale(s)
    ensures NoneStale(SplitStep(limits, s, AddsToIndex)) <==> !LeavesStale(s, AddsToIndex)
  {
    if s.adding.Some? {
      var a, s' := s.adding.value, SplitStep(limits, s, AddsToIndex);
      assert IsIndexed(s'.m, a.publisher, a.id);
      forall p, id | IsIndexed(s'.m, p, id) ensures (p == a.publisher && id == a.id) || IsIndexed(s.m, p, id) {}
      forall p, id ensures HeldUnder(s'.m, p, id) == HeldUnder(s.m, p, id) {}
    }
  }

  lemma CloseBeginsLeavesNoneStale(limits: Limits, s: Split, id: TrackID)
    requires NoneStale(s)
    ensures NoneStale(SplitStep(limits, s, CloseBegins(id)))
  {
    var s' := SplitStep(limits, s, CloseBegins(id));
    forall p, k | IsIndexed(s'.m, p, k) ensures HeldUnder(s'.m, p, k) || k in s'.closing {
      assert IsIndexed(s.m, p, k);
      assert k != id && HeldUnder(s.m, p, k) ==> HeldUnder(s'.m, p, k);
    }
  }

  lemma UnindexedIff(m: Manager, publisher: PublisherID, id: TrackID, p: PublisherID, k: TrackID)
    ensures IsIndexed(Unindexed(m, publisher, id), p, k) <==> IsIndexed(m, p, k) && !(p == publisher && k == id)
  {
    assert IsIndexed(m, p, k) && k != id ==> k in m.subscribedTo[p] - {id};
  }

  lemma CloseFinishesLeavesNoneStaleIff(limits: Limits, s: Split, id: TrackID, publisher: PublisherID)
    requires NoneStale(s)
    ensures NoneStale(SplitStep(limits, s, CloseFinishes(id, publisher))) <==>
            !LeavesStale(s, CloseFinishes(id, publisher))
  {
    var e := CloseFinishes(id, publisher);
    var s' := SplitStep(limits, s, e);
    if id in s.closing {
      forall p, k ensures HeldUnder(s'.m, p, k) == HeldUnder(s.m, p, k) {}
      forall p, k ensures IsIndexed(s'.m, p, k) <==> IsIndexed(s.m, p, k) && !(p == publisher && k == id) {
        UnindexedIff(s.m, publisher, id, p, k);
      }
      if LeavesStale(s, e) {
        var p :| p != publisher && IsIndexed(s.m, p, id) && !HeldUnder(s.m, p, id);
        assert IsIndexed(s'.m, p, id) && !HeldUnder(s'.m, p, id) && id !in s'.closing;
      }
    }
  }

  lemma StepLeavesNoneStaleIff(limits: Limits, s: Split, e: SplitEvent)
    requires SplitInv(limits, s) && NoneStale(s)
    ensures NoneStale(SplitStep(limits, s, e)) <==> !LeavesStale(s, e)
  {
    match e
    case Requested(request) => RequestLeavesNoneStale(limits, s, request);
    case Reconciles(id, env) => ReconcileLeavesNoneStale(limits, s, id, env);
    case AddsToIndex => AddLeavesNoneStaleIff(limits, s);
    case CloseBegins(id) => CloseBeginsLeavesNoneStale(limits, s, id);
    case CloseFinishes(id, publisher) => CloseFinishesLeavesNoneStaleIff(limits, s, id, publisher);
  }

  ghost predicate AlwaysNoneStale(limits: Limits, es: seq<SplitEvent>) {
    NoneStale(SplitExec(limits, es)) && (es == [] || AlwaysNoneStale(limits, es[..|es| - 1]))
  }

  ghost predicate NeverLeavesStale(limits: Limits, es: seq<SplitEvent>) {
    es == [] ||
    var init := es[..|es| - 1];
    NeverLeavesStale(limits, init) && !LeavesStale(SplitExec(limits, init), es[|es| - 1])
  }

  /** Nothing stale is indexed all along a run if and only if no step of it leaves something stale. */
  lemma {:induction false} NoneStaleIff(limits: Limits, es: seq<SplitEvent>)
    ensures AlwaysNoneStale(limits, es) <==> NeverLeavesStale(limits, es)
    decreases |es|
  {
    if es != [] {
      var init := es[..|es| - 1];
      NoneStaleIff(limits, init);
      SplitAccountingHolds(limits, init);
      if AlwaysNoneStale(limits, init) { StepLeavesNoneStaleIff(limits, SplitExec(limits, init), es[|es| - 1]); }
    }
  }

  /** With no section left to run, a publisher was told subscribed last exactly while a track of it is held. */
  lemma ToldWhileHeldAtRest(limits: Limits, es: seq<SplitEvent>, p: PublisherID)
    requires NeverTakesAway(limits, es) && NeverLeavesStale(limits, es)
    requires SplitExec(limits, es).closing == multiset{} && SplitExec(limits, es).adding.None?
    ensures var m := SplitExec(limits, es).m;
            LastTold(m.callbacks, p) <==> exists id :: HeldUnder(m, p, id)
  {
    var s := SplitExec(limits, es);
    SplitAccountingHolds(limits, es);
    HeldIndexedIff(limits, es);
    NoneStaleIff(limits, es);
    if p in s.m.subscribedTo {
      var id :| id in s.m.subscribedTo[p];
      assert IsIndexed(s.m, p, id);
    }
    forall id | HeldUnder(s.m, p, id) ensures p in s.m.subscribedTo { assert HeldIsIndexed(s.m, {}, id); }
  }

  // ---------- runs ----------

  /** Without anything in between, the sections do what the whole does. */
  lemma SectionsMakeAReconcile(limits: Limits, s: Split, id: TrackID, env: Env)
    requires s.adding.None?
    ensures var s' := SplitStep(limits, SplitStep(limits, s, Reconciles(id, env)), AddsToIndex);
            s'.m == Reconcile(s.m, limits, id, env) && s'.adding.None? && s'.closing == s.closing
  {
    if ReachesIndex(s.m, limits, id, env) { ReconcileIndexesLast(limits, s.m, id, env); }
  }

  lemma ReconcileIndexesLast(limits: Limits, m: Manager, id: TrackID, env: Env)
    requires ReachesIndex(m, limits, id, env)
    ensures var r := env.resolved.value;
            Reconcile(m, limits, id, env) == Indexed(BeforeIndex(m, id, r, env.added == Added), r.publisher, id)
  {
  }

  lemma SectionsMakeAClose(limits: Limits, s: Split, id: TrackID, p: PublisherID)
    requires HeldUnder(s.m, p, id)
    ensures var s' := SplitStep(limits, SplitStep(limits, s, CloseBegins(id)), CloseFinishes(id, p));
            s'.m == HandleClose(s.m, id) && s'.adding == s.adding && s'.closing == s.closing
  {
    assert s.closing + multiset{id} - multiset{id} == s.closing;
  }

  /** A run of whole reconciles and closes is also a run of their sections. */
  lemma {:induction false} WholeRunsAreSplitRuns(limits: Limits, es: seq<Event>) returns (fs: seq<SplitEvent>)
    ensures var s := SplitExec(limits, fs); s.m == Exec(limits, es) && s.adding.None? && s.closing == multiset{}
    decreases |es|
  {
    if es == [] { return []; }
    var init, e := es[..|es| - 1], es[|es| - 1];
    var before := WholeRunsAreSplitRuns(limits, init);
    var s := SplitExec(limits, before);
    match e {
      case Reconciled(id, env) =>
        SectionsMakeAReconcile(limits, s, id, env);
        SplitExecOneMore(limits, before, Reconciles(id, env));
        SplitExecOneMore(limits, before + [Reconciles(id, env)], AddsToIndex);
        fs := before + [Reconciles(id, env)] + [AddsToIndex];
      case Closed(id) =>
        if !Holds(s.m, id) { return before; }
        AccountingHolds(limits, init);
        assert HeldIsIndexed(s.m, {}, id);
        var p := s.m.subscriptions[id].publisher.value;
        SectionsMakeAClose(limits, s, id, p);
        SplitExecOneMore(limits, before, CloseBegins(id));
        SplitExecOneMore(limits, before + [CloseBegins(id)], CloseFinishes(id, p));
        fs := before + [CloseBegins(id)] + [CloseFinishes(id, p)];
      case _ =>
        SplitExecOneMore(limits, before, Requested(e));
        fs := before + [Requested(e)];
    }
  }

  function Answer(p: PublisherID): Env {
    Env(true, false, true, Some(Resolved(Data, p, true)), Added, false)
  }

  function HeldData(p: PublisherID): Subscription {
    Subscription(true, Some(p), Some(Data), Some(Data), false)
  }

  lemma Keeps(limits: Limits, s: Split, id: TrackID, p: PublisherID)
    requires s.adding.None? && id in s.m.subscriptions && s.m.subscriptions[id].NeedsSubscribe()
    requires s.m.subscriptions[id].kind.Some? ==> s.m.subscriptions[id].kind == Some(Data)
    ensures var s' := SplitStep(limits, s, Reconciles(id, Answer(p)));
            && s'.m == WithSub(s.m, id, HeldData(p))
            && s'.closing == s.closing && s'.adding == Some(Adding(id, p))
  {
    var n := BeforeIndex(s.m, id, Resolved(Data, p, true), true);
    assert n.subscriptions == s.m.subscriptions[id := HeldData(p)];
  }

  /** A run that keeps a track and is about to add it to the index. */
  lemma AboutToAdd(limits: Limits, id: TrackID, p: PublisherID) returns (es: seq<SplitEvent>)
    ensures var s := SplitExec(limits, es);
            && s.m == Init().(subscriptions := map[id := HeldData(p)])
            && s.closing == multiset{} && s.adding == Some(Adding(id, p))
  {
    SplitExecOneMore(limits, [], Requested(Wanted(id)));
    es := [] + [Requested(Wanted(id))];
    Keeps(limits, SplitExec(limits, es), id, p);
    SplitExecOneMore(limits, es, Reconciles(id, Answer(p)));
    es := es + [Reconciles(id, Answer(p))];
  }

  /** A track that closes before it is added stays indexed, its publisher told subscribed, with nothing held. */
  lemma ClosedBeforeAddedRun(limits: Limits, id: TrackID, p: PublisherID) returns (es: seq<SplitEvent>)
    ensures !NeverLeavesStale(limits, es)
    ensures var s := SplitExec(limits, es);
            && IsIndexed(s.m, p, id) && LastTold(s.m.callbacks, p) && !Holds(s.m, id)
            && s.closing == multiset{} && s.adding.None?
  {
    var before := AboutToAdd(limits, id, p);
    SplitExecOneMore(limits, before, CloseBegins(id));
    before := before + [CloseBegins(id)];
    SplitExecOneMore(limits, before, CloseFinishes(id, p));
    before := before + [CloseFinishes(id, p)];
    SplitExecOneMore(limits, before, AddsToIndex);
    es := before + [AddsToIndex];
    assert es[..|es| - 1] == before;
    assert SplitExec(limits, es).m.callbacks == [Callback(p, true)];
  }

  /** A track held again, and added, between the two sections of a close of it. */
  lemma HeldAgain(limits: Limits, id: TrackID, p: PublisherID) returns (es: seq<SplitEvent>)
    ensures var s := SplitExec(limits, es);
            HeldUnder(s.m, p, id) && s.m.subscribedTo == map[p := {id}] && id in s.closing && s.adding.None?
  {
    es := AboutToAdd(limits, id, p);
    SplitExecOneMore(limits, es, AddsToIndex);
    es := es + [AddsToIndex];
    SplitExecOneMore(limits, es, CloseBegins(id));
    es := es + [CloseBegins(id)];
    Keeps(limits, SplitExec(limits, es), id, p);
    SplitExecOneMore(limits, es, Reconciles(id, Answer(p)));
    es := es + [Reconciles(id, Answer(p))];
    SplitExecOneMore(limits, es, AddsToIndex);
    es := es + [AddsToIndex];
    assert {id} + {id} == {id};
  }

  /** Then the close finishes: the track is held, yet its publisher was told last that it is not subscribed to. */
  lemma TakenAwayRun(limits: Limits, id: TrackID, p: PublisherID) returns (es: seq<SplitEvent>)
    ensures !NeverTakesAway(limits, es)
    ensures var m := SplitExec(limits, es).m; HeldUnder(m, p, id) && !IsIndexed(m, p, id) && !LastTold(m.callbacks, p)
  {
    var before := HeldAgain(limits, id, p);
    es := before + [CloseFinishes(id, p)];
    SplitExecOneMore(limits, before, CloseFinishes(id, p));
    assert es[..|es| - 1] == before;
    SplitAccountingHolds(limits, es);
    assert {id} - {id} == {};
    assert p !in SplitExec(limits, es).m.subscribedTo;
  }
}
