/**
 Offer/answer negotiation on the offering side of a peer connection (pkg/rtc/transport.go).

 Events are handled one at a time. What the peer connection and the signal handler answer during one event is an
 oracle, `Env`. The log records requests, offers handed to the signal handler, applied answers and reported failures.
 */
module Negotiation {
  import opened Common

  datatype NegotiationState = NegotiationNone | NegotiationRemote | NegotiationRetry

  datatype Gathering = GatheringNew | GatheringRunning | GatheringComplete

  datatype OpResult = Done | ConnectionClosed | Failed

  datatype RemoteResult = Applied | RemoteClosed | UnsupportedCodec | RemoteFailed

  /** Answers of the peer connection and of the signal handler while one event is handled. */
  datatype Env = Env(
    pcClosed: bool,
    gathering: Gathering,
    hasCurrentRemote: bool,
    hasLocal: bool,
    createOffer: OpResult,
    setLocal: OpResult,
    offerSent: bool,
    candidatesFlushed: bool,
    setRemote: RemoteResult,
    reapplied: bool)

  /** A fresh offer, a fresh offer that recovers by re-applying the last answer first, or the last offer sent again. */
  datatype Kind = Fresh | Recovery | Resend

  datatype Entry =
    | Requested(restart: bool)
    | OfferSent(id: nat, restart: bool, kind: Kind)
    | AnswerApplied(answerId: nat)
    | FailureReported
    | ClosedSeen

  /** What has happened so far, latest entry outermost. */
  datatype Log = Nothing | Then(before: Log, last: Entry)

  function Entries(log: Log): seq<Entry> {
    if log.Nothing? then [] else Entries(log.before) + [log.last]
  }

  datatype Transport = Transport(
    state: NegotiationState,
    restartAfterGathering: bool,
    restartAtNextOffer: bool,
    previousAnswer: bool,
    localOfferId: nat,
    remoteAnswerId: nat,
    log: Log)
  {
    function Logged(e: Entry): Transport { this.(log := Then(log, e)) }
  }

  function CreateAndSendOffer(t: Transport, restartAsked: bool, kind: Kind, env: Env): Transport {
    if env.pcClosed then t.Logged(ClosedSeen)
    else if t.state == NegotiationRemote then t.(state := NegotiationRetry)
    else if t.state == NegotiationRetry then t
    else
      var restart := restartAsked || t.previousAnswer || t.restartAtNextOffer;
      var t1 := t.(previousAnswer := false, restartAtNextOffer := false);
      if env.createOffer == ConnectionClosed || (env.createOffer == Done && env.setLocal == ConnectionClosed) then
        t1.Logged(ClosedSeen)
      else if env.createOffer == Failed || env.setLocal == Failed then
        t1.Logged(FailureReported)
      else
        var t2 := t1.(state := NegotiationRemote, localOfferId := t.localOfferId + 1);
        if !env.offerSent then t2.Logged(FailureReported)
        else
          var t3 := t2.Logged(OfferSent(t2.localOfferId, restart, kind));
          if env.candidatesFlushed then t3 else t3.Logged(FailureReported)
  }

  function HandleRemoteAnswer(t: Transport, answerId: nat, env: Env): Transport {
    var t1 := t.(remoteAnswerId := answerId);
    if env.setRemote == RemoteFailed then t1.Logged(FailureReported)
    else
      var t2 := (if env.setRemote == RemoteClosed then t1.Logged(ClosedSeen) else t1).Logged(AnswerApplied(answerId));
      var t3 := t2.(state := NegotiationNone);
      if t.state == NegotiationRetry then CreateAndSendOffer(t3, false, Fresh, env) else t3
  }

  function DoICERestart(t: Transport, env: Env): Transport {
    if env.pcClosed then t.Logged(ClosedSeen)
    else if env.gathering == GatheringNew then t
    else if env.gathering == GatheringRunning then t.(restartAfterGathering := true)
    else if t.state == NegotiationNone then CreateAndSendOffer(t, true, Fresh, env)
    else if !env.hasCurrentRemote then
      if !env.hasLocal then t.Logged(FailureReported)
      else
        var t1 := t.(state := NegotiationRetry, restartAtNextOffer := true, localOfferId := t.localOfferId + 1);
        t1.Logged(if env.offerSent then OfferSent(t1.localOfferId, false, Resend) else FailureReported)
    else if !env.reapplied then t.Logged(FailureReported)
    else CreateAndSendOffer(t.(state := NegotiationNone), true, Recovery, env)
  }

  function HandleGatheringComplete(t: Transport, env: Env): Transport {
    if !t.restartAfterGathering then t else DoICERestart(t.(restartAfterGathering := false), env)
  }

  datatype Event =
    | SendOffer(env: Env)
    | RemoteAnswer(answerId: nat, env: Env)
    | ICERestart(env: Env)
    | GatheringCompletes(env: Env)

  function Step(t: Transport, e: Event): Transport {
    match e
    case SendOffer(env) => CreateAndSendOffer(t.Logged(Requested(false)), false, Fresh, env)
    case RemoteAnswer(answerId, env) => HandleRemoteAnswer(t, answerId, env)
    case ICERestart(env) =>
      // a restart asked for before gathering ever started is not a request: the first offer covers it
      DoICERestart(if env.gathering == GatheringNew then t else t.Logged(Requested(true)), env)
    case GatheringCompletes(env) => HandleGatheringComplete(t, env)
  }

  function Init(firstOfferId: nat, previousAnswer: bool): Transport {
    Transport(NegotiationNone, false, false, previousAnswer, firstOfferId, 0, Nothing)
  }

  function Exec(t: Transport, es: seq<Event>): Transport {
    if es == [] then t else Step(Exec(t, es[..|es| - 1]), es[|es| - 1])
  }

  class PCTransport {
    var negotiationState: NegotiationState
    var restartAfterGathering: bool
    var restartAtNextOffer: bool
    var previousAnswer: bool
    var localOfferId: nat
    var remoteAnswerId: nat
    var log: Log

    function View(): Transport
      reads this
    {
      Transport(negotiationState, restartAfterGathering, restartAtNextOffer, previousAnswer,
                localOfferId, remoteAnswerId, log)
    }

    constructor (firstOfferId: nat, hasPreviousAnswer: bool)
      ensures View() == Init(firstOfferId, hasPreviousAnswer)
    {
      negotiationState := NegotiationNone;
      restartAfterGathering, restartAtNextOffer, previousAnswer := false, false, hasPreviousAnswer;
      localOfferId, remoteAnswerId, log := firstOfferId, 0, Nothing;
    }

    method CreateAndSendOfferNow(iceRestart: bool, kind: Kind, env: Env)
      modifies this
      ensures View() == CreateAndSendOffer(old(View()), iceRestart, kind, env)
    {
      if env.pcClosed {
        log := Then(log, ClosedSeen);
        return;
      }
      if negotiationState == NegotiationRemote {
        negotiationState := NegotiationRetry;
        return;
      } else if negotiationState == NegotiationRetry {
        return;
      }
      var restart := iceRestart;
      if previousAnswer {
        previousAnswer := false;
        restart := true;
      }
      if restartAtNextOffer {
        restartAtNextOffer := false;
        restart := true;
      }
      if env.createOffer != Done {
        log := Then(log, if env.createOffer == ConnectionClosed then ClosedSeen else FailureReported);
        return;
      }
      if env.setLocal != Done {
        log := Then(log, if env.setLocal == ConnectionClosed then ClosedSeen else FailureReported);
        return;
      }
      negotiationState := NegotiationRemote;
      localOfferId := localOfferId + 1;
      if !env.offerSent {
        log := Then(log, FailureReported);
        return;
      }
      log := Then(log, OfferSent(localOfferId, restart, kind));
      if !env.candidatesFlushed {
        log := Then(log, FailureReported);
      }
    }

    method HandleSendOffer(env: Env)
      modifies this
      ensures View() == Step(old(View()), SendOffer(env))
    {
      log := Then(log, Requested(false));
      CreateAndSendOfferNow(false, Fresh, env);
    }

    method HandleRemoteAnswerReceived(answerId: nat, env: Env)
      modifies this
      ensures View() == Step(old(View()), RemoteAnswer(answerId, env))
    {
      remoteAnswerId := answerId;
      if env.setRemote == RemoteFailed {
        log := Then(log, FailureReported);
        return;
      }
      if env.setRemote == RemoteClosed {
        log := Then(log, ClosedSeen);
      }
      log := Then(log, AnswerApplied(answerId));
      if negotiationState == NegotiationRetry {
        negotiationState := NegotiationNone;
        CreateAndSendOfferNow(false, Fresh, env);
        return;
      }
      negotiationState := NegotiationNone;
    }

    method RestartICE(env: Env)
      modifies this
      ensures View() == DoICERestart(old(View()), env)
    {
      if env.pcClosed {
        log := Then(log, ClosedSeen);
        return;
      }
      if env.gathering == GatheringNew {
        return;
      }
      if env.gathering == GatheringRunning {
        restartAfterGathering := true;
        return;
      }
      if negotiationState == NegotiationNone {
        CreateAndSendOfferNow(true, Fresh, env);
        return;
      }
      if !env.hasCurrentRemote {
        if !env.hasLocal {
          log := Then(log, FailureReported);
          return;
        }
        negotiationState := NegotiationRetry;
        restartAtNextOffer := true;
        localOfferId := localOfferId + 1;
        log := Then(log, if env.offerSent then OfferSent(localOfferId, false, Resend) else FailureReported);
      } else {
        if !env.reapplied {
          log := Then(log, FailureReported);
          return;
        }
        negotiationState := NegotiationNone;
        CreateAndSendOfferNow(true, Recovery, env);
      }
    }

    method HandleICERestart(env: Env)
      modifies this
      ensures View() == Step(old(View()), ICERestart(env))
    {
      if env.gathering != GatheringNew {
        log := Then(log, Requested(true));
      }
      RestartICE(env);
    }

    method HandleICEGatheringComplete(env: Env)
      modifies this
      ensures View() == Step(old(View()), GatheringCompletes(env))
    {
      if !restartAfterGathering {
        return;
      }
      restartAfterGathering := false;
      RestartICE(env);
    }
  }

  // ---------- reading the log ----------

  predicate Broken(log: Log) {
    log.Then? && (log.last == FailureReported || log.last == ClosedSeen || Broken(log.before))
  }

  predicate IsNewOffer(e: Entry) {
    e.OfferSent? && e.kind != Resend
  }

  /** Every request is followed by a new offer, every restart request by one with the restart option. */
  ghost predicate AllCovered(entries: seq<Entry>) {
    forall k :: 0 <= k < |entries| && entries[k].Requested? ==>
      exists j :: k < j < |entries| && IsNewOffer(entries[j]) && (entries[k].restart ==> entries[j].restart)
  }

  /** Some request, of either kind, still waits for a new offer. */
  predicate OfferOwed(log: Log) {
    log.Then? && (log.last.Requested? || (!IsNewOffer(log.last) && OfferOwed(log.before)))
  }

  predicate IsRestartOffer(e: Entry) {
    IsNewOffer(e) && e.restart
  }

  /** Some restart request still waits for an offer with the restart option. */
  predicate RestartOwed(log: Log) {
    log.Then? && (log.last == Requested(true) || (!IsRestartOffer(log.last) && RestartOwed(log.before)))
  }

  /** An offer has been sent since the last applied answer. */
  predicate Outstanding(log: Log) {
    log.Then? && (log.last.OfferSent? || (!log.last.AnswerApplied? && Outstanding(log.before)))
  }

  predicate IsFreshOffer(e: Entry) {
    e.OfferSent? && e.kind == Fresh
  }

  /** A fresh offer starts only when no offer is outstanding. */
  predicate FreshOnlyWhenAnswered(log: Log) {
    log.Then? ==> FreshOnlyWhenAnswered(log.before) && (IsFreshOffer(log.last) ==> !Outstanding(log.before))
  }

  function LastOfferId(log: Log): Option<nat> {
    if log.Nothing? then None else if log.last.OfferSent? then Some(log.last.id) else LastOfferId(log.before)
  }

  /** The last offer, if there is one, has been answered under its own id. */
  predicate AnsweredById(log: Log) {
    log.Then? ==>
      && !log.last.OfferSent?
      && (AnsweredById(log.before) || (log.last.AnswerApplied? && LastOfferId(log.before) == Some(log.last.answerId)))
  }

  predicate FreshOnlyWhenAnsweredById(log: Log) {
    log.Then? ==> FreshOnlyWhenAnsweredById(log.before) && (IsFreshOffer(log.last) ==> AnsweredById(log.before))
  }

  /** Every answer that was applied carries the id of the last offer. An answer without an id, zero, does not. */
  predicate AnswersMatch(log: Log) {
    log.Then? ==>
      && AnswersMatch(log.before)
      && (log.last.AnswerApplied? ==> LastOfferId(log.before) == Some(log.last.answerId))
  }

  lemma NothingOwedMeansCovered(log: Log)
    ensures AllCovered(Entries(log)) <==> !OfferOwed(log) && !RestartOwed(log)
  {
    var entries := Entries(log);
    if !OfferOwed(log) && !RestartOwed(log) {
      forall k | 0 <= k < |entries| && entries[k].Requested?
        ensures exists j :: k < j < |entries| && IsNewOffer(entries[j]) && (entries[k].restart ==> entries[j].restart) {
        if entries[k].restart { var j := RestartCover(log, k); } else { var j := OfferCover(log, k); }
      }
    } else {
      if RestartOwed(log) { var k := RestartUncovered(log); } else { var k := OfferUncovered(log); }
    }
  }

  lemma {:induction false} OfferCover(log: Log, k: nat) returns (j: nat)
    requires !OfferOwed(log) && k < |Entries(log)| && Entries(log)[k].Requested?
    ensures k < j < |Entries(log)| && IsNewOffer(Entries(log)[j])
  {
    if IsNewOffer(log.last) { return |Entries(log)| - 1; }
    j := OfferCover(log.before, k);
  }

  lemma {:induction false} RestartCover(log: Log, k: nat) returns (j: nat)
    requires !RestartOwed(log) && k < |Entries(log)| && Entries(log)[k] == Requested(true)
    ensures k < j < |Entries(log)| && IsRestartOffer(Entries(log)[j])
  {
    if IsRestartOffer(log.last) { return |Entries(log)| - 1; }
    j := RestartCover(log.before, k);
  }

  lemma {:induction false} OfferUncovered(log: Log) returns (k: nat)
    requires OfferOwed(log)
    ensures k < |Entries(log)| && Entries(log)[k].Requested?
    ensures forall j :: k < j < |Entries(log)| ==> !IsNewOffer(Entries(log)[j])
  {
    if log.last.Requested? { return |Entries(log)| - 1; }
    k := OfferUncovered(log.before);
  }

  lemma {:induction false} RestartUncovered(log: Log) returns (k: nat)
    requires RestartOwed(log)
    ensures k < |Entries(log)| && Entries(log)[k] == Requested(true)
    ensures forall j :: k < j < |Entries(log)| ==> !IsRestartOffer(Entries(log)[j])
  {
    if log.last == Requested(true) { return |Entries(log)| - 1; }
    k := RestartUncovered(log.before);
  }

  /** An entry that is neither a request nor an offer changes nothing but, if it is an answer, what is outstanding. */
  lemma NeutralEntry(log: Log, e: Entry)
    requires !e.Requested? && !e.OfferSent?
    ensures OfferOwed(Then(log, e)) == OfferOwed(log) && RestartOwed(Then(log, e)) == RestartOwed(log)
    ensures LastOfferId(Then(log, e)) == LastOfferId(log)
    ensures Outstanding(Then(log, e)) == (Outstanding(log) && !e.AnswerApplied?)
    ensures Broken(Then(log, e)) == (Broken(log) || e == FailureReported || e == ClosedSeen)
    ensures FreshOnlyWhenAnswered(Then(log, e)) == FreshOnlyWhenAnswered(log)
  {
  }

  // ---------- what every event keeps ----------

  predicate LastOfferIdOk(t: Transport) {
    LastOfferId(t.log).Some? ==> LastOfferId(t.log).value == t.localOfferId
  }

  /** The offers sent so far: fresh ones only when answered, and none outstanding in the idle state. */
  predicate OffersOk(t: Transport) {
    (Outstanding(t.log) ==> t.state != NegotiationNone) && FreshOnlyWhenAnswered(t.log) && LastOfferIdOk(t)
  }

  /** Unless a failure was reported or the connection is closed, every owed offer is remembered. */
  predicate Inv(t: Transport) {
    Broken(t.log) || (
      && OffersOk(t)
      && (OfferOwed(t.log) ==> t.state == NegotiationRetry || t.restartAfterGathering)
      && (RestartOwed(t.log) ==> t.restartAfterGathering || (t.state == NegotiationRetry && t.restartAtNextOffer)))
  }

  /** Gathering has started by the time it is reported complete. */
  predicate GatheringStarted(e: Event) {
    e.GatheringCompletes? ==> e.env.gathering != GatheringNew
  }

  /** Before the offer is created: what is owed is owed to the offer about to start. */
  lemma CreateKeepsInv(t: Transport, restartAsked: bool, kind: Kind, env: Env)
    requires kind != Resend
    requires !Broken(t.log) ==>
             && FreshOnlyWhenAnswered(t.log) && LastOfferIdOk(t)
             && (Outstanding(t.log) ==> t.state != NegotiationNone || kind == Recovery)
             && (RestartOwed(t.log) && !t.restartAfterGathering ==>
                   if t.state == NegotiationNone then restartAsked || t.restartAtNextOffer
                   else t.state == NegotiationRetry && t.restartAtNextOffer)
    ensures Inv(CreateAndSendOffer(t, restartAsked, kind, env))
  {
  }

  lemma RestartKeepsInv(t: Transport, env: Env)
    requires env.gathering != GatheringNew
    requires Broken(t.log) || OffersOk(t)
    ensures Inv(DoICERestart(t, env))
  {
    if !env.pcClosed && env.gathering == GatheringComplete {
      if t.state == NegotiationNone {
        CreateKeepsInv(t, true, Fresh, env);
      } else if env.hasCurrentRemote && env.reapplied {
        CreateKeepsInv(t.(state := NegotiationNone), true, Recovery, env);
      }
    }
  }

  lemma AnswerKeepsInv(t: Transport, answerId: nat, env: Env)
    requires Inv(t)
    ensures Inv(HandleRemoteAnswer(t, answerId, env))
  {
    NeutralEntry(t.log, AnswerApplied(answerId));
    NeutralEntry(t.log, ClosedSeen);
    NeutralEntry(Then(t.log, ClosedSeen), AnswerApplied(answerId));
    if env.setRemote != RemoteFailed && t.state == NegotiationRetry {
      var t1 := t.(remoteAnswerId := answerId);
      var t2 := (if env.setRemote == RemoteClosed then t1.Logged(ClosedSeen) else t1).Logged(AnswerApplied(answerId));
      CreateKeepsInv(t2.(state := NegotiationNone), false, Fresh, env);
    }
  }

  lemma StepKeepsInv(t: Transport, e: Event)
    requires Inv(t) && GatheringStarted(e)
    ensures Inv(Step(t, e))
  {
    match e
    case SendOffer(env) => CreateKeepsInv(t.Logged(Requested(false)), false, Fresh, env);
    case RemoteAnswer(answerId, env) => AnswerKeepsInv(t, answerId, env);
    case ICERestart(env) => if env.gathering != GatheringNew { RestartKeepsInv(t.Logged(Requested(true)), env); }
    case GatheringCompletes(env) =>
      if t.restartAfterGathering { RestartKeepsInv(t.(restartAfterGathering := false), env); }
  }

  lemma {:induction false} ExecKeepsInv(firstOfferId: nat, previousAnswer: bool, es: seq<Event>)
    requires forall e <- es :: GatheringStarted(e)
    ensures Inv(Exec(Init(firstOfferId, previousAnswer), es))
    decreases |es|
  {
    if es != [] {
      ExecKeepsInv(firstOfferId, previousAnswer, es[..|es| - 1]);
      assert es[|es| - 1] in es;
      StepKeepsInv(Exec(Init(firstOfferId, previousAnswer), es[..|es| - 1]), es[|es| - 1]);
    }
  }

  // ---------- whole runs ----------

  lemma ExecOneMore(t: Transport, es: seq<Event>, e: Event)
    ensures Exec(t, es + [e]) == Step(Exec(t, es), e)
  {
    assert (es + [e])[..|es|] == es;
  }

  /** In an idle transport nothing is lost: each request was followed by a new offer, with the restart if asked. */
  lemma NoLostNegotiation(firstOfferId: nat, previousAnswer: bool, es: seq<Event>)
    requires forall e <- es :: GatheringStarted(e)
    requires var t := Exec(Init(firstOfferId, previousAnswer), es);
             !Broken(t.log) && t.state == NegotiationNone && !t.restartAfterGathering
    ensures AllCovered(Entries(Exec(Init(firstOfferId, previousAnswer), es).log))
  {
    ExecKeepsInv(firstOfferId, previousAnswer, es);
    NothingOwedMeansCovered(Exec(Init(firstOfferId, previousAnswer), es).log);
  }

  /** Everything the oracle answers is a success, and gathering is complete. */
  predicate Smooth(env: Env) {
    && !env.pcClosed && env.gathering == GatheringComplete && env.hasLocal
    && env.createOffer == Done && env.setLocal == Done
    && env.offerSent && env.candidatesFlushed && env.reapplied
    && (env.setRemote == Applied || env.setRemote == UnsupportedCodec)
  }

  /** What is deferred to Retry is discharged by the very next answer. */
  lemma RetryIsDischargedByAnAnswer(t: Transport, answerId: nat, env: Env)
    requires Inv(t) && !Broken(t.log) && t.state == NegotiationRetry && Smooth(env)
    ensures var t' := Step(t, RemoteAnswer(answerId, env));
            && !Broken(t'.log) && !OfferOwed(t'.log) && (RestartOwed(t'.log) ==> t'.restartAfterGathering)
            && t'.state == NegotiationRemote
  {
    var t' := Step(t, RemoteAnswer(answerId, env));
    NeutralEntry(t.log, AnswerApplied(answerId));
    assert t'.log.before == Then(t.log, AnswerApplied(answerId));
  }

  /** A restart deferred to the end of gathering goes out then, or with the offer after the next answer. */
  lemma DeferredRestartProceeds(t: Transport, env: Env)
    requires Inv(t) && !Broken(t.log) && t.restartAfterGathering && Smooth(env)
    ensures var t' := Step(t, GatheringCompletes(env));
            && !Broken(t'.log) && !t'.restartAfterGathering
            && (RestartOwed(t'.log) || OfferOwed(t'.log) ==> t'.state == NegotiationRetry && t'.restartAtNextOffer)
  {
    assert Step(t, GatheringCompletes(env)).log.before == t.log;
  }

  /** With no restart deferred, an answer leaves nothing owed. */
  lemma AnswerSettles(t: Transport, answerId: nat, env: Env)
    requires Inv(t) && !Broken(t.log) && !t.restartAfterGathering && Smooth(env)
    ensures var t' := Step(t, RemoteAnswer(answerId, env));
            && !Broken(t'.log) && !OfferOwed(t'.log) && !RestartOwed(t'.log)
            && !t'.restartAfterGathering && t'.state != NegotiationRetry
  {
    if t.state == NegotiationRetry {
      RetryIsDischargedByAnAnswer(t, answerId, env);
    } else {
      NeutralEntry(t.log, AnswerApplied(answerId));
    }
  }

  /**
   Progress: however a run has gone, unless a failure was reported or the connection is closed, a smooth end of
   gathering followed by a smooth answer leaves no request behind.
   */
  lemma NothingStaysOwed(
    firstOfferId: nat, previousAnswer: bool, es: seq<Event>, gathered: Env, answerId: nat, answered: Env)
    requires forall e <- es :: GatheringStarted(e)
    requires !Broken(Exec(Init(firstOfferId, previousAnswer), es).log) && Smooth(gathered) && Smooth(answered)
    ensures var t := Exec(Init(firstOfferId, previousAnswer),
                          es + [GatheringCompletes(gathered)] + [RemoteAnswer(answerId, answered)]);
            && !Broken(t.log) && AllCovered(Entries(t.log))
            && !t.restartAfterGathering && t.state != NegotiationRetry
  {
    var t0 := Init(firstOfferId, previousAnswer);
    var t := Exec(t0, es);
    ExecKeepsInv(firstOfferId, previousAnswer, es);
    ExecOneMore(t0, es, GatheringCompletes(gathered));
    var t1 := Step(t, GatheringCompletes(gathered));
    StepKeepsInv(t, GatheringCompletes(gathered));
    if t.restartAfterGathering { DeferredRestartProceeds(t, gathered); }
    ExecOneMore(t0, es + [GatheringCompletes(gathered)], RemoteAnswer(answerId, answered));
    AnswerSettles(t1, answerId, answered);
    NothingOwedMeansCovered(Step(t1, RemoteAnswer(answerId, answered)).log);
  }

  /**
   An ICE restart that nothing stands in the way of sends an offer at once, in every state: a new one with the restart
   option, or, while the first offer is unanswered, that one again, with the restart due after the next answer.
   */
  lemma RestartSendsAtOnce(t: Transport, env: Env)
    requires Smooth(env)
    ensures var t' := Step(t, ICERestart(env));
            && t'.log.Then? && t'.log.last.OfferSent? && t'.log.before == Then(t.log, Requested(true))
            && t'.log.last.id == t'.localOfferId == t.localOfferId + 1
            && (if t.state == NegotiationNone || env.hasCurrentRemote
                then IsRestartOffer(t'.log.last) && t'.state == NegotiationRemote
                else t'.log.last.kind == Resend && t'.state == NegotiationRetry && t'.restartAtNextOffer)
  {
  }

  function FirstNewOffer(log: Log): (offer: Option<Entry>)
    ensures offer.Some? ==> IsNewOffer(offer.value)
  {
    if log.Nothing? then None
    else if FirstNewOffer(log.before).Some? then FirstNewOffer(log.before)
    else if IsNewOffer(log.last) then Some(log.last)
    else None
  }

  /** An answer kept from before a migration waits for the first offer, which then restarts ICE. */
  predicate MigratedInv(t: Transport) {
    Broken(t.log) ||
    match FirstNewOffer(t.log)
    case None => t.previousAnswer
    case Some(offer) => offer.restart
  }

  lemma CreateKeepsMigrated(t: Transport, restartAsked: bool, kind: Kind, env: Env)
    requires MigratedInv(t) && kind != Resend
    ensures MigratedInv(CreateAndSendOffer(t, restartAsked, kind, env))
  {
  }

  lemma RestartKeepsMigrated(t: Transport, env: Env)
    requires MigratedInv(t)
    ensures MigratedInv(DoICERestart(t, env))
  {
    if !env.pcClosed && env.gathering == GatheringComplete {
      if t.state == NegotiationNone {
        CreateKeepsMigrated(t, true, Fresh, env);
      } else if env.hasCurrentRemote && env.reapplied {
        CreateKeepsMigrated(t.(state := NegotiationNone), true, Recovery, env);
      }
    }
  }

  lemma StepKeepsMigrated(t: Transport, e: Event)
    requires MigratedInv(t)
    ensures MigratedInv(Step(t, e))
  {
    match e
    case SendOffer(env) => CreateKeepsMigrated(t.Logged(Requested(false)), false, Fresh, env);
    case RemoteAnswer(answerId, env) =>
      if env.setRemote != RemoteFailed && t.state == NegotiationRetry {
        var t1 := t.(remoteAnswerId := answerId);
        var t2 := (if env.setRemote == RemoteClosed then t1.Logged(ClosedSeen) else t1).Logged(AnswerApplied(answerId));
        assert MigratedInv(t2);
        CreateKeepsMigrated(t2.(state := NegotiationNone), false, Fresh, env);
      }
    case ICERestart(env) =>
      RestartKeepsMigrated(if env.gathering == GatheringNew then t else t.Logged(Requested(true)), env);
    case GatheringCompletes(env) =>
      if t.restartAfterGathering { RestartKeepsMigrated(t.(restartAfterGathering := false), env); }
  }

  /** After a migration the first new offer restarts ICE, however it comes about. */
  lemma {:induction false} FirstOfferAfterMigrationRestarts(firstOfferId: nat, es: seq<Event>)
    ensures MigratedInv(Exec(Init(firstOfferId, true), es))
    decreases |es|
  {
    if es != [] {
      FirstOfferAfterMigrationRestarts(firstOfferId, es[..|es| - 1]);
      StepKeepsMigrated(Exec(Init(firstOfferId, true), es[..|es| - 1]), es[|es| - 1]);
    }
  }

  /** Section 4 of RFC 3264 as the transport keeps it: between an offer and the next fresh one an answer is applied. */
  lemma FreshOffersWaitForAnAnswer(firstOfferId: nat, previousAnswer: bool, es: seq<Event>)
    requires forall e <- es :: GatheringStarted(e)
    ensures var log := Exec(Init(firstOfferId, previousAnswer), es).log;
            !Broken(log) ==> FreshOnlyWhenAnswered(log) && (AnswersMatch(log) ==> FreshOnlyWhenAnsweredById(log))
  {
    ExecKeepsInv(firstOfferId, previousAnswer, es);
    var log := Exec(Init(firstOfferId, previousAnswer), es).log;
    if !Broken(log) && AnswersMatch(log) { MatchingAnswersAnswerById(log); }
  }

  lemma {:induction false} MatchingAnswersAnswerById(log: Log)
    requires AnswersMatch(log) && FreshOnlyWhenAnswered(log)
    ensures !Outstanding(log) ==> AnsweredById(log)
    ensures FreshOnlyWhenAnsweredById(log)
  {
    if log.Then? { MatchingAnswersAnswerById(log.before); }
  }

  lemma {:induction false} OutstandingIsUnanswered(log: Log)
    requires Outstanding(log)
    ensures !AnsweredById(log)
  {
    if !log.last.OfferSent? { OutstandingIsUnanswered(log.before); }
  }

  lemma {:induction false} OutstandingHasId(log: Log)
    requires Outstanding(log)
    ensures LastOfferId(log).Some?
  {
    if !log.last.OfferSent? { OutstandingHasId(log.before); }
  }

  /** An answer applied to the last offer, under its own identifier or another. */
  lemma AnswerMatchesOrNot(log: Log, answerId: nat)
    requires Outstanding(log) && FreshOnlyWhenAnsweredById(log)
    ensures AnsweredById(Then(log, AnswerApplied(answerId))) <==> LastOfferId(log) == Some(answerId)
    ensures FreshOnlyWhenAnsweredById(Then(log, AnswerApplied(answerId)))
  {
    OutstandingIsUnanswered(log);
  }

  /** The next event asks for an offer, directly or as a restart, and nothing is in its way. */
  predicate Asks(t: Transport, e: Event) {
    !e.RemoteAnswer? && Smooth(e.env) && (e.GatheringCompletes? ==> t.restartAfterGathering)
  }

  lemma AskedWhileIdle(t: Transport, e: Event)
    requires t.state == NegotiationNone && Asks(t, e)
    ensures var t' := Step(t, e);
            && t'.log.Then? && IsFreshOffer(t'.log.last)
            && (t'.log.before == t.log || (t'.log.before.Then? && t'.log.before.before == t.log
                                           && t'.log.before.last.Requested?))
  {
  }

  /**
   Identifiers are compared but a mismatch is only logged, so an answer to an older offer also ends the wait: the
   next fresh offer, whatever asks for it, starts after an answer to the last offer itself if and only if the
   identifiers matched.
   */
  lemma StaleAnswerEndsTheWait(t: Transport, answerId: nat, env: Env, e: Event)
    requires Inv(t) && !Broken(t.log) && Outstanding(t.log) && t.state == NegotiationRemote
    requires FreshOnlyWhenAnsweredById(t.log) && Smooth(env) && Asks(t, e)
    ensures var t' := Step(Step(t, RemoteAnswer(answerId, env)), e);
            && t'.log.Then? && IsFreshOffer(t'.log.last)
            && (FreshOnlyWhenAnsweredById(t'.log) <==> answerId == t.localOfferId)
  {
    OutstandingHasId(t.log);
    AnswerMatchesOrNot(t.log, answerId);
    var t1 := Step(t, RemoteAnswer(answerId, env));
    assert t1.log == Then(t.log, AnswerApplied(answerId)) && t1.state == NegotiationNone;
    AskedWhileIdle(t1, e);
    var before := Step(t1, e).log.before;
    assert AnsweredById(before) == AnsweredById(t1.log) == (answerId == t.localOfferId);
    assert FreshOnlyWhenAnsweredById(before) == FreshOnlyWhenAnsweredById(t1.log);
  }

  /** With a negotiation waiting in Retry, the answer itself starts that offer, on the same condition. */
  lemma StaleAnswerStartsTheRetry(t: Transport, answerId: nat, env: Env)
    requires Inv(t) && !Broken(t.log) && Outstanding(t.log) && t.state == NegotiationRetry
    requires FreshOnlyWhenAnsweredById(t.log) && Smooth(env)
    ensures var t' := Step(t, RemoteAnswer(answerId, env));
            && t'.log.Then? && IsFreshOffer(t'.log.last)
            && (FreshOnlyWhenAnsweredById(t'.log) <==> answerId == t.localOfferId)
  {
    OutstandingHasId(t.log);
    AnswerMatchesOrNot(t.log, answerId);
    var t' := Step(t, RemoteAnswer(answerId, env));
    assert t'.log.before == Then(t.log, AnswerApplied(answerId));
  }

  /** Such a run: an offer, another asked for while it is out, and an answer to neither. */
  lemma StaleAnswerRun(firstOfferId: nat, staleId: nat) returns (es: seq<Event>)
    requires staleId != firstOfferId + 1
    ensures forall e <- es :: GatheringStarted(e)
    ensures var log := Exec(Init(firstOfferId, false), es).log;
            !Broken(log) && Outstanding(log) && !FreshOnlyWhenAnsweredById(log)
  {
    var env := Env(false, GatheringComplete, true, true, Done, Done, true, true, Applied, true);
    var t0 := Init(firstOfferId, false);
    ExecOneMore(t0, [], SendOffer(env));
    assert [] + [SendOffer(env)] == [SendOffer(env)];
    var log0 := Then(Nothing, Requested(false));
    var log1 := Then(log0, OfferSent(firstOfferId + 1, false, Fresh));
    assert AnsweredById(Nothing) && AnsweredById(log0) && FreshOnlyWhenAnsweredById(log0) && !Broken(log0);
    assert FreshOnlyWhenAnsweredById(log1) && !Broken(log1) && Outstanding(log1);
    assert Exec(t0, [SendOffer(env)]) == t0.(state := NegotiationRemote, localOfferId := firstOfferId + 1, log := log1);
    ExecOneMore(t0, [SendOffer(env)], SendOffer(env));
    var before := [SendOffer(env)] + [SendOffer(env)];
    var t := t0.(state := NegotiationRetry, localOfferId := firstOfferId + 1, log := Then(log1, Requested(false)));
    assert Exec(t0, before) == t;
    es := before + [RemoteAnswer(staleId, env)];
    ExecOneMore(t0, before, RemoteAnswer(staleId, env));
    ExecKeepsInv(firstOfferId, false, before);
    assert Outstanding(t.log) && FreshOnlyWhenAnsweredById(t.log);
    StaleAnswerStartsTheRetry(t, staleId, env);
  }

  // ---------- no more than was asked for ----------

  datatype Tally = Tally(requests: nat, restartRequests: nat, newOffers: nat, restarts: nat, sent: nat)

  function One(b: bool): nat { if b then 1 else 0 }

  /** How many entries of each kind there are; the last offer sent again is no new offer. */
  function Tallied(log: Log): Tally {
    if log.Nothing? then Tally(0, 0, 0, 0, 0)
    else
      var n, e := Tallied(log.before), log.last;
      Tally(n.requests + One(e.Requested?), n.restartRequests + One(e == Requested(true)),
            n.newOffers + One(IsNewOffer(e)), n.restarts + One(e.OfferSent? && e.restart), n.sent + One(e.OfferSent?))
  }

  /** New offers that are still to come. */
  function OffersDue(t: Transport): nat {
    One(t.state == NegotiationRetry) + One(t.restartAfterGathering)
  }

  /** Every new offer, sent or still to come, is owed to a request of its own. */
  predicate OffersAsked(t: Transport) {
    Tallied(t.log).newOffers + OffersDue(t) <= Tallied(t.log).requests
  }

  /** Restarts that are still to come. */
  function RestartsDue(t: Transport): nat {
    One(t.restartAfterGathering) + One(t.restartAtNextOffer) + One(t.previousAnswer)
  }

  /** Every restart, sent or still to come, is owed to a restart request of its own or to an answer from before. */
  predicate RestartsAsked(t: Transport, migrated: bool) {
    Tallied(t.log).restarts + RestartsDue(t) <= Tallied(t.log).restartRequests + One(migrated)
  }

  predicate Consecutive(firstOfferId: nat, log: Log) {
    log.Then? ==>
      && Consecutive(firstOfferId, log.before)
      && (log.last.OfferSent? ==> log.last.id == firstOfferId + Tallied(log).sent)
  }

  /** As long as nothing failed, the offers sent are numbered in a row. */
  predicate IdsOk(firstOfferId: nat, t: Transport) {
    Broken(t.log) || (t.localOfferId == firstOfferId + Tallied(t.log).sent && Consecutive(firstOfferId, t.log))
  }

  predicate NoMoreThanAsked(firstOfferId: nat, migrated: bool, t: Transport) {
    OffersAsked(t) && RestartsAsked(t, migrated) && IdsOk(firstOfferId, t)
  }

  /** The request for an offer about to be made has been counted, and is not yet used. */
  predicate OneIsFree(t: Transport, restart: bool, firstOfferId: nat, migrated: bool) {
    && Tallied(t.log).newOffers + OffersDue(t) < Tallied(t.log).requests
    && Tallied(t.log).restarts + One(restart) + RestartsDue(t) <= Tallied(t.log).restartRequests + One(migrated)
    && IdsOk(firstOfferId, t)
  }

  /** An entry that is neither a request nor an offer. */
  lemma NeutralTally(log: Log, e: Entry, firstOfferId: nat)
    requires !e.Requested? && !e.OfferSent?
    ensures Tallied(Then(log, e)) == Tallied(log)
    ensures Consecutive(firstOfferId, Then(log, e)) == Consecutive(firstOfferId, log)
  {
  }

  /** A request frees one offer, and one restart if it asks for that; */
  lemma RequestFreesOne(t: Transport, restart: bool, firstOfferId: nat, migrated: bool)
    requires NoMoreThanAsked(firstOfferId, migrated, t)
    ensures OneIsFree(t.Logged(Requested(restart)), restart, firstOfferId, migrated)
  {
  }

  /** so does taking up a deferred restart, */
  lemma DeferredFreesOne(t: Transport, firstOfferId: nat, migrated: bool)
    requires NoMoreThanAsked(firstOfferId, migrated, t) && t.restartAfterGathering
    ensures OneIsFree(t.(restartAfterGathering := false), true, firstOfferId, migrated)
  {
  }

  /** and an answer in Retry, for an offer. */
  lemma AnswerFreesOne(t: Transport, t': Transport, firstOfferId: nat, migrated: bool)
    requires NoMoreThanAsked(firstOfferId, migrated, t)
    requires t' == t.(state := NegotiationNone, remoteAnswerId := t'.remoteAnswerId, log := t'.log)
    requires Tallied(t'.log) == Tallied(t.log) && (Broken(t.log) ==> Broken(t'.log))
    requires Consecutive(firstOfferId, t'.log) == Consecutive(firstOfferId, t.log)
    ensures NoMoreThanAsked(firstOfferId, migrated, t')
    ensures t.state == NegotiationRetry ==> OneIsFree(t', false, firstOfferId, migrated)
  {
  }

  lemma OneMoreEntry(log: Log, e: Entry)
    ensures Tallied(Then(log, e)).requests == Tallied(log).requests + One(e.Requested?)
    ensures Tallied(Then(log, e)).restartRequests == Tallied(log).restartRequests + One(e == Requested(true))
    ensures Tallied(Then(log, e)).newOffers == Tallied(log).newOffers + One(IsNewOffer(e))
    ensures Tallied(Then(log, e)).restarts == Tallied(log).restarts + One(e.OfferSent? && e.restart)
  {
  }

  predicate Ends(e: Entry) {
    e == FailureReported || e == ClosedSeen
  }

  /** Creating an offer sends one and uses up all reasons for a restart, or sends none and adds no reason. */
  lemma CreateOutcome(t: Transport, restart: bool, kind: Kind, env: Env) returns (offer: Entry)
    ensures var t' := CreateAndSendOffer(t, restart, kind, env);
            && t'.restartAfterGathering == t.restartAfterGathering
            && (t'.restartAtNextOffer ==> t.restartAtNextOffer) && (t'.previousAnswer ==> t.previousAnswer)
    ensures var t' := CreateAndSendOffer(t, restart, kind, env);
            || t'.log == t.log
            || (t'.log.Then? && t'.log.before == t.log && Ends(t'.log.last))
            || (&& !t'.restartAtNextOffer && !t'.previousAnswer && t'.state == NegotiationRemote
                && offer == OfferSent(t'.localOfferId, restart || t.restartAtNextOffer || t.previousAnswer, kind)
                && (t'.log == Then(t.log, offer) || t'.log == Then(Then(t.log, offer), FailureReported)))
  {
    offer := OfferSent(t.localOfferId + 1, restart || t.restartAtNextOffer || t.previousAnswer, kind);
  }

  /** What creating an offer does to the counts. */
  lemma CreateTally(t: Transport, restart: bool, kind: Kind, env: Env)
    ensures var t' := CreateAndSendOffer(t, restart, kind, env);
            var n, n' := Tallied(t.log), Tallied(t'.log);
            && n'.requests == n.requests && n'.restartRequests == n.restartRequests
            && t'.restartAfterGathering == t.restartAfterGathering
            && n'.newOffers + One(t'.state == NegotiationRetry) <= n.newOffers + One(t.state == NegotiationRetry) + 1
            && n'.restarts + RestartsDue(t') <= n.restarts + RestartsDue(t) + One(restart)
  {
    var offer := CreateOutcome(t, restart, kind, env);
    OneMoreEntry(t.log, offer);
    OneMoreEntry(t.log, ClosedSeen);
    OneMoreEntry(t.log, FailureReported);
    OneMoreEntry(Then(t.log, offer), FailureReported);
  }

  lemma CreateKeepsIds(t: Transport, restart: bool, kind: Kind, env: Env, firstOfferId: nat)
    requires IdsOk(firstOfferId, t)
    ensures IdsOk(firstOfferId, CreateAndSendOffer(t, restart, kind, env))
  {
  }

  lemma CreateUsesOne(t: Transport, restart: bool, kind: Kind, env: Env, firstOfferId: nat, migrated: bool)
    requires OneIsFree(t, restart, firstOfferId, migrated)
    ensures NoMoreThanAsked(firstOfferId, migrated, CreateAndSendOffer(t, restart, kind, env))
  {
    CreateTally(t, restart, kind, env);
    CreateKeepsIds(t, restart, kind, env, firstOfferId);
  }

  lemma ResendUsesOne(t: Transport, t': Transport, sent: bool, firstOfferId: nat, migrated: bool)
    requires OneIsFree(t, true, firstOfferId, migrated)
    requires t'.log == Then(t.log, if sent then OfferSent(t'.localOfferId, false, Resend) else FailureReported)
    requires t' == t.(state := NegotiationRetry, restartAtNextOffer := true, localOfferId := t.localOfferId + 1,
                      log := t'.log)
    ensures NoMoreThanAsked(firstOfferId, migrated, t')
  {
    OneMoreEntry(t.log, t'.log.last);
  }

  lemma DroppedUsesOne(t: Transport, e: Entry, firstOfferId: nat, migrated: bool)
    requires OneIsFree(t, true, firstOfferId, migrated) && Ends(e)
    ensures NoMoreThanAsked(firstOfferId, migrated, t.Logged(e))
  {
    NeutralTally(t.log, e, firstOfferId);
  }

  lemma DeferredUsesOne(t: Transport, firstOfferId: nat, migrated: bool)
    requires OneIsFree(t, true, firstOfferId, migrated)
    ensures NoMoreThanAsked(firstOfferId, migrated, t.(restartAfterGathering := true))
  {
  }

  lemma RestartUsesOne(t: Transport, env: Env, firstOfferId: nat, migrated: bool)
    requires OneIsFree(t, true, firstOfferId, migrated)
    ensures NoMoreThanAsked(firstOfferId, migrated, DoICERestart(t, env))
  {
    DroppedUsesOne(t, FailureReported, firstOfferId, migrated);
    DroppedUsesOne(t, ClosedSeen, firstOfferId, migrated);
    DeferredUsesOne(t, firstOfferId, migrated);
    if !env.pcClosed && env.gathering == GatheringComplete {
      if t.state == NegotiationNone {
        CreateUsesOne(t, true, Fresh, env, firstOfferId, migrated);
      } else if !env.hasCurrentRemote {
        if env.hasLocal { ResendUsesOne(t, DoICERestart(t, env), env.offerSent, firstOfferId, migrated); }
      } else if env.reapplied {
        CreateUsesOne(t.(state := NegotiationNone), true, Recovery, env, firstOfferId, migrated);
      }
    }
  }

  lemma AnswerUsesRetry(t: Transport, answerId: nat, env: Env, firstOfferId: nat, migrated: bool)
    requires NoMoreThanAsked(firstOfferId, migrated, t)
    ensures NoMoreThanAsked(firstOfferId, migrated, HandleRemoteAnswer(t, answerId, env))
  {
    NeutralTally(t.log, FailureReported, firstOfferId);
    if env.setRemote != RemoteFailed {
      var t1 := t.(remoteAnswerId := answerId);
      var t2 := if env.setRemote == RemoteClosed then t1.Logged(ClosedSeen) else t1;
      NeutralTally(t.log, ClosedSeen, firstOfferId);
      NeutralTally(t2.log, AnswerApplied(answerId), firstOfferId);
      var t3 := t2.Logged(AnswerApplied(answerId)).(state := NegotiationNone);
      AnswerFreesOne(t, t3, firstOfferId, migrated);
      if t.state == NegotiationRetry { CreateUsesOne(t3, false, Fresh, env, firstOfferId, migrated); }
    }
  }

  lemma StepUsesWhatIsAsked(t: Transport, e: Event, firstOfferId: nat, migrated: bool)
    requires NoMoreThanAsked(firstOfferId, migrated, t)
    ensures NoMoreThanAsked(firstOfferId, migrated, Step(t, e))
  {
    match e
    case SendOffer(env) =>
      RequestFreesOne(t, false, firstOfferId, migrated);
      CreateUsesOne(t.Logged(Requested(false)), false, Fresh, env, firstOfferId, migrated);
    case RemoteAnswer(answerId, env) => AnswerUsesRetry(t, answerId, env, firstOfferId, migrated);
    case ICERestart(env) =>
      NeutralTally(t.log, ClosedSeen, firstOfferId);
      if env.gathering != GatheringNew {
        RequestFreesOne(t, true, firstOfferId, migrated);
        RestartUsesOne(t.Logged(Requested(true)), env, firstOfferId, migrated);
      }
    case GatheringCompletes(env) =>
      if t.restartAfterGathering {
        DeferredFreesOne(t, firstOfferId, migrated);
        RestartUsesOne(t.(restartAfterGathering := false), env, firstOfferId, migrated);
      }
  }

  lemma {:induction false} ExecUsesWhatIsAsked(firstOfferId: nat, previousAnswer: bool, es: seq<Event>)
    ensures NoMoreThanAsked(firstOfferId, previousAnswer, Exec(Init(firstOfferId, previousAnswer), es))
    decreases |es|
  {
    if es != [] {
      ExecUsesWhatIsAsked(firstOfferId, previousAnswer, es[..|es| - 1]);
      StepUsesWhatIsAsked(
        Exec(Init(firstOfferId, previousAnswer), es[..|es| - 1]), es[|es| - 1], firstOfferId, previousAnswer);
    }
  }

  /**
   Over any run: no more new offers than requests, and no more restarts than restart requests, but one for an answer
   kept from before a migration. So a run without either sends no restart. Until something fails, offers are numbered in
   a row.
   */
  lemma OffersOnlyAsAsked(firstOfferId: nat, previousAnswer: bool, es: seq<Event>)
    ensures var log := Exec(Init(firstOfferId, previousAnswer), es).log;
            && Tallied(log).newOffers <= Tallied(log).requests
            && Tallied(log).restarts <= Tallied(log).restartRequests + (if previousAnswer then 1 else 0)
            && (!previousAnswer && Requested(true) !in Entries(log) ==>
                  forall e <- Entries(log) :: e.OfferSent? ==> !e.restart)
            && (!Broken(log) ==> Consecutive(firstOfferId, log))
  {
    ExecUsesWhatIsAsked(firstOfferId, previousAnswer, es);
    NoneTallied(Exec(Init(firstOfferId, previousAnswer), es).log);
  }

  lemma {:induction false} NoneTallied(log: Log)
    ensures Requested(true) !in Entries(log) ==> Tallied(log).restartRequests == 0
    ensures Tallied(log).restarts == 0 ==> forall e <- Entries(log) :: e.OfferSent? ==> !e.restart
  {
    if log.Then? { NoneTallied(log.before); }
  }
}
