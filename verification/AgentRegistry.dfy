/**
 The registry of agent workers (pkg/service/agentservice.go): workers listed by key, with sorted name lists and counters
 kept beside them and edited as keys come and go.
 */
module AgentRegistry {
  import opened Common
  import StringOrder

  datatype JobType = Room | Publisher | Participant | Unknown(code: int)

  datatype WorkerKey = WorkerKey(agentName: string, namespace: string, jobType: JobType)

  /** `ref` tells worker objects apart; `id` is what the worker was assigned. */
  datatype Worker = Worker(ref: nat, id: string, agentName: string, namespace: string, jobType: JobType)
  {
    function Key(): WorkerKey { WorkerKey(agentName, namespace, jobType) }
  }

  datatype Registry = Registry(
    workers: map<string, Worker>,
    namespaceWorkers: map<WorkerKey, seq<Worker>>,
    roomKeyCount: int,
    publisherKeyCount: int,
    participantKeyCount: int,
    namespaces: seq<string>,
    agentNames: seq<string>)

  // ---------- sorted lists ----------

  predicate Sorted(s: seq<string>) {
    forall i, k :: 0 <= i < k < |s| ==> StringOrder.AtMost(s[i], s[k])
  }

  predicate Increasing(s: seq<string>) {
    forall i, k :: 0 <= i < k < |s| ==> StringOrder.Less(s[i], s[k])
  }

  /** Appending to a sorted list and sorting it. */
  function Insert(s: seq<string>, x: string): seq<string> {
    if s == [] || StringOrder.AtMost(s[|s| - 1], x) then s + [x]
    else Insert(s[..|s| - 1], x) + [s[|s| - 1]]
  }

  /** Deleting the first occurrence, if there is one. */
  function Without<T(==)>(s: seq<T>, x: T): seq<T> {
    if s == [] then [] else if s[0] == x then s[1..] else [s[0]] + Without(s[1..], x)
  }

  /** slices.Compact: of equal neighbours, only one is left. */
  function Compact(s: seq<string>): seq<string> {
    if |s| < 2 then s
    else
      var init := s[..|s| - 1];
      if s[|s| - 1] == init[|init| - 1] then Compact(init) else Compact(init) + [s[|s| - 1]]
  }

  lemma {:induction false} InsertSorts(s: seq<string>, x: string)
    requires Sorted(s)
    ensures Sorted(Insert(s, x)) && multiset(Insert(s, x)) == multiset(s) + multiset{x}
  {
    if s == [] {
    } else if StringOrder.AtMost(s[|s| - 1], x) {
      forall i | 0 <= i < |s| ensures StringOrder.AtMost(s[i], x) { AtMostTransitive(s[i], s[|s| - 1], x); }
    } else {
      var init, last := s[..|s| - 1], s[|s| - 1];
      assert s == init + [last];
      InsertSorts(init, x);
      StringOrder.LessIsTotal(last, x);
      forall y | y in Insert(init, x) ensures StringOrder.AtMost(y, last) {
        assert y in multiset(Insert(init, x));
        assert y == x || y in init;
      }
    }
  }

  lemma AtMostTransitive(a: string, b: string, c: string)
    requires StringOrder.AtMost(a, b) && StringOrder.AtMost(b, c)
    ensures StringOrder.AtMost(a, c)
  {
    if a != b && b != c { StringOrder.LessIsTransitive(a, b, c); }
  }

  lemma {:induction false} WithoutRemovesOne<T>(s: seq<T>, x: T)
    ensures multiset(Without(s, x)) == multiset(s) - multiset{x}
    ensures x in s ==> |Without(s, x)| == |s| - 1
  {
    if s != [] {
      assert s == [s[0]] + s[1..];
      WithoutRemovesOne(s[1..], x);
    }
  }

  lemma {:induction false} WithoutStaysSorted(s: seq<string>, x: string)
    requires Sorted(s)
    ensures Sorted(Without(s, x))
  {
    if s != [] && s[0] != x {
      WithoutStaysSorted(s[1..], x);
      WithoutRemovesOne(s[1..], x);
      forall y | y in Without(s[1..], x) ensures StringOrder.AtMost(s[0], y) {
        assert y in multiset(Without(s[1..], x));
        assert y in s[1..];
      }
    }
  }

  /** Compacting a sorted list leaves each of its entries once, in order. */
  lemma {:induction false} CompactOfSorted(s: seq<string>)
    requires Sorted(s)
    ensures Increasing(Compact(s)) && (forall x :: x in Compact(s) <==> x in s)
    ensures s != [] ==> Compact(s) != [] && Compact(s)[|Compact(s)| - 1] == s[|s| - 1]
  {
    if |s| >= 2 {
      var init, last := s[..|s| - 1], s[|s| - 1];
      assert s == init + [last];
      CompactOfSorted(init);
      if last != init[|init| - 1] {
        forall y | y in Compact(init) ensures StringOrder.Less(y, last) {
          assert y in init;
          var i :| 0 <= i < |init| && init[i] == y;
          assert StringOrder.AtMost(s[i], last) && StringOrder.AtMost(s[i], s[|init| - 1]);
          assert StringOrder.AtMost(s[|init| - 1], last);
          StringOrder.LessIsTotal(s[|init| - 1], last);
        }
      }
    }
  }

  // ---------- the registry ----------

  function WithTypeCount(r: Registry, t: JobType, delta: int): Registry {
    match t
    case Room => r.(roomKeyCount := r.roomKeyCount + delta)
    case Publisher => r.(publisherKeyCount := r.publisherKeyCount + delta)
    case Participant => r.(participantKeyCount := r.participantKeyCount + delta)
    case Unknown(_) => r
  }

  function AfterRegister(r: Registry, w: Worker, topicRegistered: bool): Registry {
    var r1 := r.(workers := r.workers[w.id := w]);
    var workers := if w.Key() in r.namespaceWorkers then r.namespaceWorkers[w.Key()] else [];
    if workers != [] then r1.(namespaceWorkers := r.namespaceWorkers[w.Key() := workers + [w]])
    else if !topicRegistered then r1
    else
      WithTypeCount(r1, w.jobType, 1).(
        namespaces := Insert(r.namespaces, w.namespace),
        agentNames := Insert(r.agentNames, w.agentName),
        namespaceWorkers := r.namespaceWorkers[w.Key() := [w]])
  }

  function AfterDeregister(r: Registry, w: Worker): Registry {
    var r1 := r.(workers := r.workers - {w.id});
    if w.Key() !in r.namespaceWorkers || w !in r.namespaceWorkers[w.Key()] then r1
    else if |r.namespaceWorkers[w.Key()]| > 1 then
      r1.(namespaceWorkers := r.namespaceWorkers[w.Key() := Without(r.namespaceWorkers[w.Key()], w)])
    else
      WithTypeCount(r1, w.jobType, -1).(
        namespaces := Without(r.namespaces, w.namespace),
        agentNames := Without(r.agentNames, w.agentName),
        namespaceWorkers := r.namespaceWorkers - {w.Key()})
  }

  function NamespaceOf(k: WorkerKey): string { k.namespace }

  function AgentNameOf(k: WorkerKey): string { k.agentName }

  ghost function Holding(keys: set<WorkerKey>, f: WorkerKey -> string, name: string): set<WorkerKey> {
    set k | k in keys && f(k) == name
  }

  ghost function OfType(keys: set<WorkerKey>, t: JobType): set<WorkerKey> {
    set k | k in keys && k.jobType == t
  }

  /** A sorted list with one entry for each live key. */
  ghost predicate ListsKeys(names: seq<string>, keys: set<WorkerKey>, f: WorkerKey -> string) {
    Sorted(names) && forall name {:trigger Holding(keys, f, name)} :: multiset(names)[name] == |Holding(keys, f, name)|
  }

  ghost predicate CountsKeys(r: Registry) {
    && r.roomKeyCount == |OfType(r.namespaceWorkers.Keys, Room)|
    && r.publisherKeyCount == |OfType(r.namespaceWorkers.Keys, Publisher)|
    && r.participantKeyCount == |OfType(r.namespaceWorkers.Keys, Participant)|
  }

  ghost predicate Agrees(r: Registry) {
    && (forall k <- r.namespaceWorkers ::
          r.namespaceWorkers[k] != [] && forall w <- r.namespaceWorkers[k] :: w.Key() == k)
    && ListsKeys(r.namespaces, r.namespaceWorkers.Keys, NamespaceOf)
    && ListsKeys(r.agentNames, r.namespaceWorkers.Keys, AgentNameOf)
    && CountsKeys(r)
  }

  lemma HoldingOneMore(keys: set<WorkerKey>, f: WorkerKey -> string, k: WorkerKey, name: string)
    requires k !in keys
    ensures |Holding(keys + {k}, f, name)| == |Holding(keys, f, name)| + if f(k) == name then 1 else 0
  {
    assert Holding(keys + {k}, f, name) == Holding(keys, f, name) + if f(k) == name then {k} else {};
  }

  lemma InsertListsKeys(names: seq<string>, keys: set<WorkerKey>, f: WorkerKey -> string, k: WorkerKey)
    requires ListsKeys(names, keys, f) && k !in keys
    ensures ListsKeys(Insert(names, f(k)), keys + {k}, f)
  {
    InsertSorts(names, f(k));
    forall name ensures multiset(Insert(names, f(k)))[name] == |Holding(keys + {k}, f, name)| {
      HoldingOneMore(keys, f, k, name);
    }
  }

  lemma WithoutListsKeys(names: seq<string>, keys: set<WorkerKey>, f: WorkerKey -> string, k: WorkerKey)
    requires ListsKeys(names, keys + {k}, f) && k !in keys
    ensures ListsKeys(Without(names, f(k)), keys, f)
  {
    WithoutStaysSorted(names, f(k));
    WithoutRemovesOne(names, f(k));
    forall name ensures multiset(Without(names, f(k)))[name] == |Holding(keys, f, name)| {
      HoldingOneMore(keys, f, k, name);
    }
  }

  lemma OneKeyMore(keys: set<WorkerKey>, k: WorkerKey, t: JobType)
    requires k !in keys
    ensures |OfType(keys + {k}, t)| == |OfType(keys, t)| + if k.jobType == t then 1 else 0
  {
    assert OfType(keys + {k}, t) == OfType(keys, t) + if k.jobType == t then {k} else {};
  }

  lemma RegisterKeepsAgreement(r: Registry, w: Worker, topicRegistered: bool)
    requires Agrees(r)
    ensures Agrees(AfterRegister(r, w, topicRegistered))
  {
    var k, keys, r' := w.Key(), r.namespaceWorkers.Keys, AfterRegister(r, w, topicRegistered);
    if k in keys {
      assert r'.namespaceWorkers.Keys == keys;
    } else if topicRegistered {
      assert r'.namespaceWorkers.Keys == keys + {k};
      InsertListsKeys(r.namespaces, keys, NamespaceOf, k);
      InsertListsKeys(r.agentNames, keys, AgentNameOf, k);
      OneKeyMore(keys, k, Room);
      OneKeyMore(keys, k, Publisher);
      OneKeyMore(keys, k, Participant);
    }
  }

  lemma DeregisterKeepsAgreement(r: Registry, w: Worker)
    requires Agrees(r)
    ensures Agrees(AfterDeregister(r, w))
  {
    var k, keys, r' := w.Key(), r.namespaceWorkers.Keys, AfterDeregister(r, w);
    if k in keys && w in r.namespaceWorkers[k] {
      var workers := r.namespaceWorkers[k];
      if |workers| > 1 {
        assert r'.namespaceWorkers.Keys == keys;
        WithoutRemovesOne(workers, w);
        forall v | v in Without(workers, w) ensures v.Key() == k { assert v in multiset(Without(workers, w)); }
      } else {
        assert r'.namespaceWorkers.Keys == keys - {k} && keys == (keys - {k}) + {k};
        WithoutListsKeys(r.namespaces, keys - {k}, NamespaceOf, k);
        WithoutListsKeys(r.agentNames, keys - {k}, AgentNameOf, k);
        OneKeyMore(keys - {k}, k, Room);
        OneKeyMore(keys - {k}, k, Publisher);
        OneKeyMore(keys - {k}, k, Participant);
      }
    }
  }

  datatype Enabled = Enabled(
    namespaces: seq<string>, agentNames: seq<string>, room: bool, publisher: bool, participant: bool)

  /** Each name of a live key once, in order, and no other. */
  ghost predicate Reports(names: seq<string>, keys: set<WorkerKey>, f: WorkerKey -> string) {
    Increasing(names) && forall name :: name in names <==> exists k :: k in keys && f(k) == name
  }

  lemma CompactReports(names: seq<string>, keys: set<WorkerKey>, f: WorkerKey -> string)
    requires ListsKeys(names, keys, f)
    ensures Reports(Compact(names), keys, f)
  {
    CompactOfSorted(names);
    forall name ensures name in names <==> exists k :: k in keys && f(k) == name {
      assert name in names <==> multiset(names)[name] > 0;
      assert multiset(names)[name] == |Holding(keys, f, name)|;
      if k :| k in keys && f(k) == name { assert k in Holding(keys, f, name); }
      if name in names { var k :| k in Holding(keys, f, name); }
    }
  }

  class AgentHandler {
    var workers: map<string, Worker>
    var namespaceWorkers: map<WorkerKey, seq<Worker>>
    var roomKeyCount: int
    var publisherKeyCount: int
    var participantKeyCount: int
    var namespaces: seq<string>
    var agentNames: seq<string>

    function View(): Registry
      reads this
    {
      Registry(workers, namespaceWorkers, roomKeyCount, publisherKeyCount, participantKeyCount, namespaces, agentNames)
    }

    constructor ()
      ensures View() == Init()
    {
      workers, namespaceWorkers := map[], map[];
      roomKeyCount, publisherKeyCount, participantKeyCount := 0, 0, 0;
      namespaces, agentNames := [], [];
    }

    method RegisterWorker(w: Worker, topicRegistered: bool)
      modifies this
      ensures View() == AfterRegister(old(View()), w, topicRegistered)
    {
      workers := workers[w.id := w];
      var key := WorkerKey(w.agentName, w.namespace, w.jobType);
      var listed := if key in namespaceWorkers then namespaceWorkers[key] else [];
      var created := |listed| == 0;
      assert created ==> listed + [w] == [w];
      if created {
        if !topicRegistered {
          return;
        }
        match w.jobType {
          case Room => roomKeyCount := roomKeyCount + 1;
          case Publisher => publisherKeyCount := publisherKeyCount + 1;
          case Participant => participantKeyCount := participantKeyCount + 1;
          case Unknown(_) =>
        }
        namespaces := Insert(namespaces, w.namespace);
        agentNames := Insert(agentNames, w.agentName);
      }
      namespaceWorkers := namespaceWorkers[key := listed + [w]];
    }

    method DeregisterWorker(w: Worker)
      modifies this
      ensures View() == AfterDeregister(old(View()), w)
    {
      workers := workers - {w.id};
      var key := WorkerKey(w.agentName, w.namespace, w.jobType);
      if key !in namespaceWorkers || w !in namespaceWorkers[key] {
        return;
      }
      if |namespaceWorkers[key]| > 1 {
        namespaceWorkers := namespaceWorkers[key := Without(namespaceWorkers[key], w)];
      } else {
        namespaceWorkers := namespaceWorkers - {key};
        match w.jobType {
          case Room => roomKeyCount := roomKeyCount - 1;
          case Publisher => publisherKeyCount := publisherKeyCount - 1;
          case Participant => participantKeyCount := participantKeyCount - 1;
          case Unknown(_) =>
        }
        namespaces := Without(namespaces, w.namespace);
        agentNames := Without(agentNames, w.agentName);
      }
    }

    /** The report is exactly about the live keys. */
    method CheckEnabled() returns (e: Enabled)
      requires Agrees(View())
      ensures Reports(e.namespaces, namespaceWorkers.Keys, NamespaceOf)
      ensures Reports(e.agentNames, namespaceWorkers.Keys, AgentNameOf)
      ensures e.room <==> exists k <- namespaceWorkers :: k.jobType == Room
      ensures e.publisher <==> exists k <- namespaceWorkers :: k.jobType == Publisher
      ensures e.participant <==> exists k <- namespaceWorkers :: k.jobType == Participant
    {
      CompactReports(namespaces, namespaceWorkers.Keys, NamespaceOf);
      CompactReports(agentNames, namespaceWorkers.Keys, AgentNameOf);
      forall t: JobType
        ensures |OfType(namespaceWorkers.Keys, t)| != 0 <==> exists k <- namespaceWorkers :: k.jobType == t
      {
        if k :| k in namespaceWorkers && k.jobType == t { assert k in OfType(namespaceWorkers.Keys, t); }
        if |OfType(namespaceWorkers.Keys, t)| != 0 { var k :| k in OfType(namespaceWorkers.Keys, t); }
      }
      return Enabled(Compact(namespaces), Compact(agentNames),
                     roomKeyCount != 0, publisherKeyCount != 0, participantKeyCount != 0);
    }
  }

  // ---------- whole runs ----------

  datatype Event = Register(w: Worker, topicRegistered: bool) | Deregister(w: Worker)

  function Init(): Registry {
    Registry(map[], map[], 0, 0, 0, [], [])
  }

  function Exec(es: seq<Event>): Registry {
    if es == [] then Init()
    else
      var before := Exec(es[..|es| - 1]);
      match es[|es| - 1]
      case Register(w, topicRegistered) => AfterRegister(before, w, topicRegistered)
      case Deregister(w) => AfterDeregister(before, w)
  }

  /** Whatever registers and deregisters, lists and counters agree with the live keys. */
  lemma {:induction false} RegistryAgrees(es: seq<Event>)
    ensures Agrees(Exec(es))
    decreases |es|
  {
    if es != [] {
      RegistryAgrees(es[..|es| - 1]);
      match es[|es| - 1]
      case Register(w, topicRegistered) => RegisterKeepsAgreement(Exec(es[..|es| - 1]), w, topicRegistered);
      case Deregister(w) => DeregisterKeepsAgreement(Exec(es[..|es| - 1]), w);
    }
  }

  /** Every worker object registers at most once. */
  predicate RegistersOnce(es: seq<Event>) {
    forall i, k :: 0 <= i < k < |es| && es[i].Register? && es[k].Register? ==> es[i].w != es[k].w
  }

  predicate HasRegistered(es: seq<Event>, w: Worker) {
    exists i :: 0 <= i < |es| && es[i].Register? && es[i].w == w
  }

  /**
   Registered and not deregistered since. A registration takes unless it is the first for its key and the topic cannot
   be registered.
   */
  ghost predicate Live(es: seq<Event>, w: Worker)
    decreases |es|
  {
    es != [] &&
    var init, e := es[..|es| - 1], es[|es| - 1];
    match e
    case Register(v, topicRegistered) =>
      || Live(init, w)
      || (v == w && (topicRegistered || exists other: Worker :: other.Key() == w.Key() && Live(init, other)))
    case Deregister(v) => v != w && Live(init, w)
  }

  predicate Listed(r: Registry, w: Worker) {
    w.Key() in r.namespaceWorkers && w in r.namespaceWorkers[w.Key()]
  }

  lemma {:induction false} WithoutStaysDistinct<T>(s: seq<T>, x: T)
    requires Distinct(s)
    ensures Distinct(Without(s, x)) && forall y :: y in Without(s, x) <==> y in s && y != x
  {
    if s != [] {
      assert s == [s[0]] + s[1..];
      if s[0] == x {
        assert x !in s[1..];
      } else {
        WithoutStaysDistinct(s[1..], x);
        assert s[0] !in s[1..];
        forall i | 0 <= i < |Without(s[1..], x)| ensures Without(s[1..], x)[i] != s[0] {
          assert Without(s[1..], x)[i] in Without(s[1..], x);
        }
      }
    }
  }

  ghost predicate ListsAreDistinct(r: Registry) {
    forall k <- r.namespaceWorkers :: Distinct(r.namespaceWorkers[k])
  }

  lemma RegisterLists(r: Registry, w: Worker, topicRegistered: bool, v: Worker)
    requires Agrees(r)
    ensures Listed(AfterRegister(r, w, topicRegistered), v) <==>
              Listed(r, v) || (v == w && (topicRegistered || w.Key() in r.namespaceWorkers))
    ensures ListsAreDistinct(r) && !Listed(r, w) ==> ListsAreDistinct(AfterRegister(r, w, topicRegistered))
  {
  }

  lemma DeregisterUnlists(r: Registry, w: Worker, v: Worker)
    requires Agrees(r) && ListsAreDistinct(r)
    ensures Listed(AfterDeregister(r, w), v) <==> Listed(r, v) && v != w
    ensures ListsAreDistinct(AfterDeregister(r, w))
  {
    if Listed(r, w) {
      var listed := r.namespaceWorkers[w.Key()];
      WithoutStaysDistinct(listed, w);
      if |listed| == 1 { assert listed == [w]; }
    }
  }

  /** The lists hold exactly the live workers, each once. */
  lemma {:induction false} ListedMeansLive(es: seq<Event>, w: Worker)
    requires RegistersOnce(es)
    ensures Listed(Exec(es), w) <==> Live(es, w)
    ensures Live(es, w) ==> HasRegistered(es, w)
    ensures ListsAreDistinct(Exec(es))
    decreases |es|, 0
  {
    if es != [] {
      var init, e := es[..|es| - 1], es[|es| - 1];
      RegistryAgrees(init);
      ListedMeansLive(init, w);
      ListedMeansLive(init, e.w);
      if HasRegistered(init, w) {
        var i :| 0 <= i < |init| && init[i].Register? && init[i].w == w;
        assert es[i].Register? && es[i].w == w;
      }
      match e
      case Register(v, topicRegistered) =>
        NotYetRegistered(es);
        LiveKeys(init, v.Key());
        RegisterLists(Exec(init), v, topicRegistered, w);
        assert es[|es| - 1].Register?;
      case Deregister(v) => DeregisterUnlists(Exec(init), v, w);
    }
  }

  lemma NotYetRegistered(es: seq<Event>)
    requires RegistersOnce(es) && es != [] && es[|es| - 1].Register?
    ensures !HasRegistered(es[..|es| - 1], es[|es| - 1].w)
  {
  }

  /** The live keys, which the lists and counters agree with, are the keys of live workers. */
  lemma {:induction false} LiveKeys(es: seq<Event>, k: WorkerKey)
    requires RegistersOnce(es)
    ensures k in Exec(es).namespaceWorkers <==> exists w: Worker :: w.Key() == k && Live(es, w)
    decreases |es|, 1
  {
    RegistryAgrees(es);
    if k in Exec(es).namespaceWorkers {
      var w := Exec(es).namespaceWorkers[k][0];
      ListedMeansLive(es, w);
      assert w.Key() == k && Live(es, w);
    }
    if w: Worker :| w.Key() == k && Live(es, w) { ListedMeansLive(es, w); }
  }

  /** So what CheckEnabled reports is there exactly while a live worker is. */
  lemma ReportsLiveWorkers(es: seq<Event>, name: string)
    requires RegistersOnce(es)
    ensures name in Compact(Exec(es).namespaces) <==> exists w: Worker :: w.namespace == name && Live(es, w)
    ensures name in Compact(Exec(es).agentNames) <==> exists w: Worker :: w.agentName == name && Live(es, w)
    ensures Exec(es).roomKeyCount != 0 <==> exists w: Worker :: w.jobType == Room && Live(es, w)
    ensures Exec(es).publisherKeyCount != 0 <==> exists w: Worker :: w.jobType == Publisher && Live(es, w)
    ensures Exec(es).participantKeyCount != 0 <==> exists w: Worker :: w.jobType == Participant && Live(es, w)
  {
    RegistryAgrees(es);
    var r := Exec(es);
    var keys := r.namespaceWorkers.Keys;
    CompactReports(r.namespaces, keys, NamespaceOf);
    CompactReports(r.agentNames, keys, AgentNameOf);
    forall k ensures k in keys <==> exists w: Worker :: w.Key() == k && Live(es, w) { LiveKeys(es, k); }
    forall w: Worker | Live(es, w) ensures w.Key() in keys { LiveKeys(es, w.Key()); }
    forall t: JobType ensures |OfType(keys, t)| != 0 <==> exists w: Worker :: w.jobType == t && Live(es, w) {
      TypeIsLive(es, t);
    }
  }

  /** The worker that registered last under an id, unless one with that id has deregistered since. */
  function LastRegistered(es: seq<Event>, id: string): Option<Worker> {
    if es == [] then None
    else if es[|es| - 1].w.id != id then LastRegistered(es[..|es| - 1], id)
    else if es[|es| - 1].Register? then Some(es[|es| - 1].w)
    else None
  }

  lemma WorkersAfterRegister(r: Registry, w: Worker, topicRegistered: bool)
    ensures AfterRegister(r, w, topicRegistered).workers == r.workers[w.id := w]
  {
  }

  lemma WorkersAfterDeregister(r: Registry, w: Worker)
    ensures AfterDeregister(r, w).workers == r.workers - {w.id}
  {
  }

  lemma {:induction false} WorkersById(es: seq<Event>, id: string)
    ensures LastRegistered(es, id) == if id in Exec(es).workers then Some(Exec(es).workers[id]) else None
    decreases |es|
  {
    if es != [] {
      var r, e := Exec(es[..|es| - 1]), es[|es| - 1];
      WorkersById(es[..|es| - 1], id);
      if e.Register? { WorkersAfterRegister(r, e.w, e.topicRegistered); } else { WorkersAfterDeregister(r, e.w); }
    }
  }

  lemma TypeIsLive(es: seq<Event>, t: JobType)
    requires RegistersOnce(es)
    ensures |OfType(Exec(es).namespaceWorkers.Keys, t)| != 0 <==> exists w: Worker :: w.jobType == t && Live(es, w)
  {
    var keys := Exec(es).namespaceWorkers.Keys;
    if w: Worker :| w.jobType == t && Live(es, w) {
      LiveKeys(es, w.Key());
      assert w.Key() in OfType(keys, t);
    }
    if |OfType(keys, t)| != 0 {
      var k :| k in OfType(keys, t);
      LiveKeys(es, k);
    }
  }
}
