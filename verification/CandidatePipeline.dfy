/**
 Local ICE candidates on their way to the client: filtered and, until the local description has been sent, cached by
 the transport (pkg/rtc/transport.go), then delayed by one in the participant so that the last candidate before the
 end marker can be sent as the final one (pkg/rtc/participant_signal.go, pkg/rtc/participant.go).
 */
module CandidatePipeline {
  import opened Common

  datatype ICECandidate = ICECandidate(address: string, tcp: bool)

  /** A gathered candidate, or the end of candidates. */
  datatype Item = Gathered(c: ICECandidate) | EndOfCandidates

  datatype Trickle = Trickle(c: ICECandidate, final: bool)

  /** What the participant and its signaller do during one event: drop candidates, and how many writes succeed. */
  datatype Env = Env(blocked: bool, writes: nat)

  datatype Pipeline = Pipeline(
    preferTCP: bool,
    caching: bool,
    cached: seq<Item>,
    slot: Option<ICECandidate>,
    sent: seq<Trickle>,
    passed: seq<Item>,       // everything that entered the delay line
    disturbed: bool)         // an item was blocked or a write failed

  function AsOption(item: Item): Option<ICECandidate> {
    if item.Gathered? then Some(item.c) else None
  }

  /** sendICECandidate; also tells how many writes are left, None after a failed one. */
  function Send(p: Pipeline, item: Item, writes: nat): (Pipeline, Option<nat>) {
    var p1 := p.(slot := AsOption(item), passed := p.passed + [item]);
    if p.slot.None? then (p1, Some(writes))
    else if writes == 0 then (p1.(disturbed := true), None)
    else (p1.(sent := p.sent + [Trickle(p.slot.value, item == EndOfCandidates)]), Some(writes - 1))
  }

  function OnICECandidate(p: Pipeline, item: Item, env: Env): (Pipeline, Option<nat>) {
    if env.blocked then (p.(disturbed := true), Some(env.writes)) else Send(p, item, env.writes)
  }

  /** Sends until one fails. */
  function Flush(p: Pipeline, items: seq<Item>, env: Env): (Pipeline, bool)
    decreases |items|
  {
    if items == [] then (p, true)
    else
      var (p1, left) := OnICECandidate(p, items[0], env);
      if left.None? then (p1, false) else Flush(p1, items[1..], env.(writes := left.value))
  }

  predicate Filtered(p: Pipeline, item: Item) {
    item.Gathered? && p.preferTCP && !item.c.tcp
  }

  function AfterLocalCandidate(p: Pipeline, item: Item, env: Env): Pipeline {
    if Filtered(p, item) then p
    else if p.caching then p.(cached := p.cached + [item])
    else OnICECandidate(p, item, env).0
  }

  function AfterDescriptionSent(p: Pipeline, env: Env): Pipeline {
    if !p.caching then p else Flush(p.(caching := false, cached := []), p.cached, env).0
  }

  function AfterClear(p: Pipeline): Pipeline {
    p.(caching := true, cached := [])
  }

  class CandidateSender {
    var preferTCP: bool
    var cacheLocalCandidates: bool
    var cachedLocalCandidates: seq<Item>
    var icQueue: Option<ICECandidate>
    var sent: seq<Trickle>
    ghost var passed: seq<Item>
    ghost var disturbed: bool

    ghost function View(): Pipeline
      reads this
    {
      Pipeline(preferTCP, cacheLocalCandidates, cachedLocalCandidates, icQueue, sent, passed, disturbed)
    }

    constructor ()
      ensures View() == Pipeline(false, false, [], None, [], [], false)
    {
      preferTCP, cacheLocalCandidates, cachedLocalCandidates, icQueue, sent := false, false, [], None, [];
      passed, disturbed := [], false;
    }

    method SendICECandidate(item: Item, writes: nat) returns (left: Option<nat>)
      modifies this
      ensures (View(), left) == Send(old(View()), item, writes)
    {
      var prev := icQueue;
      icQueue := AsOption(item);
      passed := passed + [item];
      if prev.None? {
        return Some(writes);
      }
      if writes == 0 {
        disturbed := true;
        return None;
      }
      sent := sent + [Trickle(prev.value, item == EndOfCandidates)];
      return Some(writes - 1);
    }

    method HandleOnICECandidate(item: Item, env: Env) returns (left: Option<nat>)
      modifies this
      ensures (View(), left) == OnICECandidate(old(View()), item, env)
    {
      if env.blocked {
        disturbed := true;
        return Some(env.writes);
      }
      left := SendICECandidate(item, env.writes);
    }

    method HandleLocalICECandidate(item: Item, env: Env) returns (ok: bool)
      modifies this
      ensures View() == AfterLocalCandidate(old(View()), item, env)
    {
      if item.Gathered? && preferTCP && !item.c.tcp {
        return true;
      }
      if cacheLocalCandidates {
        cachedLocalCandidates := cachedLocalCandidates + [item];
        return true;
      }
      var left := HandleOnICECandidate(item, env);
      return left.Some?;
    }

    method LocalDescriptionSent(env: Env) returns (ok: bool)
      modifies this
      ensures View() == AfterDescriptionSent(old(View()), env)
    {
      if !cacheLocalCandidates {
        return true;
      }
      cacheLocalCandidates := false;
      var items := cachedLocalCandidates;
      cachedLocalCandidates := [];
      ghost var start := View();
      var writes := env.writes;
      for i := 0 to |items|
        invariant Flush(start, items, env) == Flush(View(), items[i..], env.(writes := writes))
      {
        assert items[i..][1..] == items[i + 1..];
        var left := HandleOnICECandidate(items[i], env.(writes := writes));
        if left.None? {
          return false;
        }
        writes := left.value;
      }
      return true;
    }

    method ClearLocalDescriptionSent()
      modifies this
      ensures View() == AfterClear(old(View()))
    {
      cacheLocalCandidates := true;
      cachedLocalCandidates := [];
    }
  }

  // ---------- the delay line ----------

  /** The trickles for a sequence of items: each candidate that has a successor, final if that is an end marker. */
  function Emitted(items: seq<Item>): seq<Trickle> {
    if |items| < 2 then []
    else
      var n := |items|;
      Emitted(items[..n - 1]) +
      if items[n - 2].Gathered? then [Trickle(items[n - 2].c, items[n - 1] == EndOfCandidates)] else []
  }

  function Candidates(items: seq<Item>): nat {
    if items == [] then 0
    else Candidates(items[..|items| - 1]) + if items[|items| - 1].Gathered? then 1 else 0
  }

  /** Each candidate that has a successor is emitted once, in arrival order, final exactly before an end marker. */
  lemma {:induction false} EmittedOnceInOrder(items: seq<Item>, k: nat)
    requires k + 1 < |items| && items[k].Gathered?
    ensures |Emitted(items)| == Candidates(items[..|items| - 1])
    ensures Candidates(items[..k]) < |Emitted(items)|
    ensures Emitted(items)[Candidates(items[..k])] == Trickle(items[k].c, items[k + 1] == EndOfCandidates)
    decreases |items|
  {
    var init := items[..|items| - 1];
    EmittedCount(items);
    if k + 1 < |init| {
      EmittedOnceInOrder(init, k);
      assert init[..k] == items[..k];
    } else {
      EmittedCount(init);
      assert init[..|init| - 1] == items[..k];
    }
  }

  lemma {:induction false} EmittedCount(items: seq<Item>)
    ensures items != [] ==> |Emitted(items)| == Candidates(items[..|items| - 1])
    decreases |items|
  {
    if |items| >= 2 {
      var init := items[..|items| - 1];
      EmittedCount(init);
    }
  }

  function LastSlot(items: seq<Item>): Option<ICECandidate> {
    if items == [] then None else AsOption(items[|items| - 1])
  }

  /** Emissions after the `past` items: the candidate left in the delay line, if any, comes out first. */
  lemma {:induction false} EmittedAfter(past: seq<Item>, more: seq<Item>)
    ensures Emitted(past + more) == Emitted(past) +
              (if LastSlot(past).Some? && more != []
               then [Trickle(LastSlot(past).value, more[0] == EndOfCandidates)] else [])
              + Emitted(more)
    decreases |more|
  {
    if more == [] {
      assert past + more == past;
    } else {
      var init := more[..|more| - 1];
      EmittedAfter(past, init);
      assert (past + more)[..|past + more| - 1] == past + init;
    }
  }

  // ---------- whole runs ----------

  datatype Event =
    | LocalCandidate(item: Item, env: Env)
    | DescriptionSent(env: Env)
    | Clear
    | PreferTCP(prefer: bool)

  /** The pipeline, its state at the last clear, and the unfiltered items since then. */
  datatype Run = Run(p: Pipeline, atClear: Pipeline, since: seq<Item>)

  function Init(): Run {
    var p := Pipeline(false, false, [], None, [], [], false);
    Run(p, p, [])
  }

  function Step(r: Run, e: Event): Run {
    match e
    case LocalCandidate(item, env) =>
      r.(p := AfterLocalCandidate(r.p, item, env), since := if Filtered(r.p, item) then r.since else r.since + [item])
    case DescriptionSent(env) => r.(p := AfterDescriptionSent(r.p, env))
    case Clear => Run(AfterClear(r.p), AfterClear(r.p), [])
    case PreferTCP(prefer) => r.(p := r.p.(preferTCP := prefer))
  }

  function Exec(es: seq<Event>): Run {
    if es == [] then Init() else Step(Exec(es[..|es| - 1]), es[|es| - 1])
  }

  /** While caching nothing leaves; the delay line holds the last item that passed. */
  ghost predicate Inv(r: Run) {
    && (r.p.caching ==> r.p.sent == r.atClear.sent && r.p.passed == r.atClear.passed && r.p.cached == r.since
                        && r.p.slot == r.atClear.slot)
    && (!r.p.caching ==> r.p.cached == [] && (!r.p.disturbed ==> r.p.passed == r.atClear.passed + r.since))
    && r.p.slot == LastSlot(r.p.passed) && r.atClear.slot == LastSlot(r.atClear.passed)
    && (!r.p.disturbed ==> r.p.sent == Emitted(r.p.passed) && r.atClear.sent == Emitted(r.atClear.passed))
  }

  lemma SendKeepsEmitted(p: Pipeline, item: Item, writes: nat)
    requires p.slot == LastSlot(p.passed) && (!p.disturbed ==> p.sent == Emitted(p.passed))
    ensures var p' := Send(p, item, writes).0;
            && p'.slot == LastSlot(p'.passed) && (!p'.disturbed ==> p'.sent == Emitted(p'.passed) && !p.disturbed)
            && p'.passed == p.passed + [item] && p'.caching == p.caching && p'.cached == p.cached
  {
    assert (p.passed + [item])[..|p.passed|] == p.passed;
  }

  lemma {:induction false} FlushKeepsEmitted(p: Pipeline, items: seq<Item>, env: Env)
    requires p.slot == LastSlot(p.passed) && (!p.disturbed ==> p.sent == Emitted(p.passed))
    ensures var p' := Flush(p, items, env).0;
            && p'.slot == LastSlot(p'.passed) && p'.caching == p.caching && p'.cached == p.cached
            && (!p'.disturbed ==> p'.sent == Emitted(p'.passed) && p'.passed == p.passed + items && !p.disturbed)
    decreases |items|
  {
    if items != [] {
      if !env.blocked { SendKeepsEmitted(p, items[0], env.writes); }
      var (p1, left) := OnICECandidate(p, items[0], env);
      if left.Some? { FlushKeepsEmitted(p1, items[1..], env.(writes := left.value)); }
      assert p.passed + [items[0]] + items[1..] == p.passed + items;
    }
  }

  lemma StepKeepsInv(r: Run, e: Event)
    requires Inv(r)
    ensures Inv(Step(r, e))
  {
    match e
    case LocalCandidate(item, env) =>
      if !Filtered(r.p, item) && !r.p.caching && !env.blocked {
        SendKeepsEmitted(r.p, item, env.writes);
        assert r.atClear.passed + r.since + [item] == r.atClear.passed + (r.since + [item]);
      }
    case DescriptionSent(env) =>
      if r.p.caching { FlushKeepsEmitted(r.p.(caching := false, cached := []), r.p.cached, env); }
    case Clear =>
      assert r.p.passed + [] == r.p.passed;
    case PreferTCP(_) =>
  }

  lemma {:induction false} ExecKeepsInv(es: seq<Event>)
    ensures Inv(Exec(es))
    decreases |es|
  {
    if es != [] {
      ExecKeepsInv(es[..|es| - 1]);
      StepKeepsInv(Exec(es[..|es| - 1]), es[|es| - 1]);
    }
  }

  /** Nothing is emitted between a clear and the next local description. */
  lemma NothingEmittedWhileCaching(es: seq<Event>)
    ensures var r := Exec(es); r.p.caching ==> r.p.sent == r.atClear.sent && r.p.cached == r.since
  {
    ExecKeepsInv(es);
  }

  /**
   Once the description is out: first the candidate the delay line held at the clear, then every unfiltered candidate
   since, once each and in order, all but the one still in the delay line.
   */
  lemma EmittedSinceClear(es: seq<Event>)
    ensures var r := Exec(es); !r.p.caching && !r.p.disturbed ==>
              && r.p.sent == r.atClear.sent
                   + (if r.atClear.slot.Some? && r.since != []
                      then [Trickle(r.atClear.slot.value, r.since[0] == EndOfCandidates)] else [])
                   + Emitted(r.since)
              && (r.since != [] ==> r.p.slot == LastSlot(r.since))
  {
    ExecKeepsInv(es);
    var r := Exec(es);
    if !r.p.caching && !r.p.disturbed { EmittedAfter(r.atClear.passed, r.since); }
  }

  lemma AppendsNothing(a: seq<Trickle>, b: seq<Trickle>, middle: seq<Trickle>)
    ensures a + middle + b == a + b <==> middle == []
  {
    assert |a + middle + b| == |a + b| + |middle|;
    if middle == [] { assert a + middle == a; }
  }

  /**
   So the new generation's candidates are the only ones sent after a clear if and only if the delay line was empty
   then, that is, if the previous generation had ended with its end marker or had sent nothing down the line.
   */
  lemma OnlyNewCandidatesAfterClear(es: seq<Event>)
    requires var r := Exec(es); !r.p.caching && !r.p.disturbed && r.since != []
    ensures var r := Exec(es); r.p.sent == r.atClear.sent + Emitted(r.since) <==> r.atClear.slot.None?
  {
    EmittedSinceClear(es);
    var r := Exec(es);
    AppendsNothing(r.atClear.sent, Emitted(r.since),
      if r.atClear.slot.Some? then [Trickle(r.atClear.slot.value, r.since[0] == EndOfCandidates)] else []);
  }

  // ---------- what goes wrong only from outside ----------

  /** The participant takes candidates, and enough writes succeed for what may be sent. */
  predicate Smooth(p: Pipeline, e: Event) {
    match e
    case LocalCandidate(_, env) => !env.blocked && env.writes > 0
    case DescriptionSent(env) => !env.blocked && env.writes >= |p.cached|
    case _ => true
  }

  predicate AlwaysSmooth(es: seq<Event>) {
    es == [] || (AlwaysSmooth(es[..|es| - 1]) && Smooth(Exec(es[..|es| - 1]).p, es[|es| - 1]))
  }

  lemma {:induction false} SmoothFlush(p: Pipeline, items: seq<Item>, env: Env)
    requires !p.disturbed && !env.blocked && env.writes >= |items|
    ensures !Flush(p, items, env).0.disturbed
    decreases |items|
  {
    if items != [] {
      var (p1, left) := OnICECandidate(p, items[0], env);
      SmoothFlush(p1, items[1..], env.(writes := left.value));
    }
  }

  lemma SmoothStep(r: Run, e: Event)
    requires !r.p.disturbed && Smooth(r.p, e)
    ensures !Step(r, e).p.disturbed
  {
    if e.DescriptionSent? && r.p.caching { SmoothFlush(r.p.(caching := false, cached := []), r.p.cached, e.env); }
  }

  /** Nothing is dropped unless the participant blocks or a write fails; so what was said about emissions then holds. */
  lemma {:induction false} NothingIsDropped(es: seq<Event>)
    requires AlwaysSmooth(es)
    ensures !Exec(es).p.disturbed && (!Exec(es).p.caching ==> Exec(es).p.sent == Emitted(Exec(es).p.passed))
    decreases |es|
  {
    ExecKeepsInv(es);
    if es != [] {
      NothingIsDropped(es[..|es| - 1]);
      SmoothStep(Exec(es[..|es| - 1]), es[|es| - 1]);
    }
  }

  // ---------- what is filtered ----------

  /** The candidates and end markers gathered since the last clear, filtered or not. */
  function GatheredSince(es: seq<Event>): seq<Item> {
    if es == [] then []
    else
      var before := GatheredSince(es[..|es| - 1]);
      match es[|es| - 1]
      case LocalCandidate(item, _) => before + [item]
      case Clear => []
      case _ => before
  }

  /** Over TCP, or no candidate at all. */
  predicate IsTCP(item: Item) {
    item == EndOfCandidates || item.c.tcp
  }

  function OnlyTCP(items: seq<Item>): seq<Item> {
    if items == [] then []
    else OnlyTCP(items[..|items| - 1]) + if IsTCP(items[|items| - 1]) then [items[|items| - 1]] else []
  }

  /** Whether TCP is preferred now, and has been at every event since the last clear. */
  predicate Prefers(es: seq<Event>) {
    es != [] &&
    match es[|es| - 1]
    case PreferTCP(prefer) => prefer
    case _ => Prefers(es[..|es| - 1])
  }

  predicate PreferredSinceClear(tcp: bool, es: seq<Event>) {
    es != [] ==>
      && (es[|es| - 1].Clear? || PreferredSinceClear(tcp, es[..|es| - 1]))
      && Prefers(es) == tcp
  }

  lemma {:induction false} FlushKeepsPreference(p: Pipeline, items: seq<Item>, env: Env)
    ensures Flush(p, items, env).0.preferTCP == p.preferTCP
    decreases |items|
  {
    if items != [] {
      var (p1, left) := OnICECandidate(p, items[0], env);
      if left.Some? { FlushKeepsPreference(p1, items[1..], env.(writes := left.value)); }
    }
  }

  lemma PreferenceAfter(r: Run, e: Event)
    ensures Step(r, e).p.preferTCP == if e.PreferTCP? then e.prefer else r.p.preferTCP
  {
    if e.DescriptionSent? && r.p.caching {
      FlushKeepsPreference(r.p.(caching := false, cached := []), r.p.cached, e.env);
    }
  }

  lemma {:induction false} PreferenceIsLast(es: seq<Event>)
    ensures Exec(es).p.preferTCP == Prefers(es)
    decreases |es|
  {
    if es != [] {
      PreferenceIsLast(es[..|es| - 1]);
      PreferenceAfter(Exec(es[..|es| - 1]), es[|es| - 1]);
    }
  }

  lemma SinceAfter(r: Run, e: Event)
    ensures Step(r, e).since ==
            match e
            case LocalCandidate(item, _) => if r.p.preferTCP && !IsTCP(item) then r.since else r.since + [item]
            case Clear => []
            case _ => r.since
  {
  }

  lemma OnlyTCPOneMore(items: seq<Item>, item: Item)
    ensures OnlyTCP(items + [item]) == OnlyTCP(items) + if IsTCP(item) then [item] else []
  {
    assert (items + [item])[..|items|] == items;
  }

  /**
   Without the preference nothing is filtered, so all that was gathered since the clear is passed on; with it exactly
   the candidates over TCP are, and the end markers.
   */
  lemma {:induction false} FilteredIff(tcp: bool, es: seq<Event>)
    requires PreferredSinceClear(tcp, es)
    ensures Exec(es).since == if tcp then OnlyTCP(GatheredSince(es)) else GatheredSince(es)
    decreases |es|
  {
    if es != [] {
      var init := es[..|es| - 1];
      PreferenceIsLast(init);
      PreferenceIsLast(es);
      SinceAfter(Exec(init), es[|es| - 1]);
      if es[|es| - 1].LocalCandidate? { OnlyTCPOneMore(GatheredSince(init), es[|es| - 1].item); }
      if !es[|es| - 1].Clear? { FilteredIff(tcp, init); }
    }
  }

  lemma ExecOneMore(es: seq<Event>, e: Event)
    ensures Exec(es + [e]) == Step(Exec(es), e)
  {
    assert (es + [e])[..|es|] == es;
  }

  /** Such a run: a candidate is still in the delay line when an ICE restart clears, and comes out after it. */
  lemma OldCandidateComesOut(c1: ICECandidate, c2: ICECandidate) returns (es: seq<Event>)
    ensures var r := Exec(es);
            && !r.p.caching && !r.p.disturbed && r.since == [Gathered(c2)]
            && r.p.sent == r.atClear.sent + [Trickle(c1, false)] && Emitted(r.since) == []
  {
    var env := Env(false, 1);
    ExecOneMore([], LocalCandidate(Gathered(c1), env));
    var e1 := [] + [LocalCandidate(Gathered(c1), env)];
    ExecOneMore(e1, Clear);
    var e2 := e1 + [Clear];
    var cleared := Pipeline(false, true, [], Some(c1), [], [Gathered(c1)], false);
    assert Exec(e2) == Run(cleared, cleared, []);
    ExecOneMore(e2, LocalCandidate(Gathered(c2), env));
    var e3 := e2 + [LocalCandidate(Gathered(c2), env)];
    assert Exec(e3) == Run(cleared.(cached := [Gathered(c2)]), cleared, [Gathered(c2)]);
    ExecOneMore(e3, DescriptionSent(env));
    es := e3 + [DescriptionSent(env)];
    var p := Send(cleared.(caching := false), Gathered(c2), 1).0;
    assert Flush(p, [], env.(writes := 0)) == (p, true);
    assert [Gathered(c2)][1..] == [] && Flush(cleared.(caching := false), [Gathered(c2)], env) == (p, true);
  }
}
