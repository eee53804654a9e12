/**
 The history of unstable loss reports (pkg/rtc/transportmanager.go), a 32-bit shift register, and the switch away from
 UDP it leads to.
 */
module LossRegister {
  const UDP_LOSS_FRAC_UNSTABLE := 25
  const UDP_LOSS_UNSTABLE_COUNT_THRESHOLD := 20
  const REGISTER_WIDTH := 32

  predicate Unstable(loss: nat) {
    loss >= 255 * UDP_LOSS_FRAC_UNSTABLE / 100
  }

  predicate IsOdd(x: bv32) {
    x & 1 == 1
  }

  function Half(x: bv32): bv32 {
    x >> 1
  }

  /** The low bits, lowest first. */
  function Bits(x: bv32, width: nat): (bits: seq<bool>)
    ensures |bits| == width
  {
    if width == 0 then [] else [IsOdd(x)] + Bits(Half(x), width - 1)
  }

  function Count(bits: seq<bool>): (n: nat)
    ensures n <= |bits|
  {
    if bits == [] then 0 else (if bits[0] then 1 else 0) + Count(bits[1..])
  }

  function OnesCount(x: bv32): nat {
    Count(Bits(x, REGISTER_WIDTH))
  }

  /** The lowest `width` bits of a mask are set. */
  predicate Covers(mask: bv32, width: nat) {
    width == 0 || (IsOdd(mask) && Covers(Half(mask), width - 1))
  }

  predicate Agree(x: bv32, y: bv32, mask: bv32) {
    x & mask == y & mask
  }

  lemma HalvesAgree(x: bv32, y: bv32, mask: bv32)
    requires Agree(x, y, mask)
    ensures Agree(Half(x), Half(y), Half(mask))
    ensures IsOdd(mask) ==> IsOdd(x) == IsOdd(y)
  {
  }

  lemma {:induction false} SameLowBits(x: bv32, y: bv32, mask: bv32, width: nat)
    requires Covers(mask, width) && Agree(x, y, mask)
    ensures Bits(x, width) == Bits(y, width)
  {
    if width > 0 {
      HalvesAgree(x, y, mask);
      SameLowBits(Half(x), Half(y), Half(mask), width - 1);
    }
  }

  lemma LowFour(mask: bv32)
    requires mask & 15 == 15
    ensures IsOdd(mask) && IsOdd(Half(mask)) && IsOdd(Half(Half(mask))) && IsOdd(Half(Half(Half(mask))))
    ensures Half(Half(Half(Half(mask)))) == mask >> 4
  {
  }

  lemma OneMore(mask: bv32, width: nat)
    requires IsOdd(mask) && Covers(Half(mask), width)
    ensures Covers(mask, width + 1)
  {
  }

  lemma FourMore(mask: bv32, width: nat)
    requires Covers(mask >> 4, width) && mask & 15 == 15
    ensures Covers(mask, width + 4)
  {
    LowFour(mask);
    OneMore(Half(Half(Half(mask))), width);
    OneMore(Half(Half(mask)), width + 1);
    OneMore(Half(mask), width + 2);
    OneMore(mask, width + 3);
  }

  lemma AllButTheHighest()
    ensures Covers(0x7fff_ffff, 31)
  {
    assert Covers(1, 1) && Covers(3, 2) && Covers(7, 3);
    FourMore(0x7f, 3);
    FourMore(0x7ff, 7);
    FourMore(0x7fff, 11);
    FourMore(0x7_ffff, 15);
    FourMore(0x7f_ffff, 19);
    FourMore(0x7ff_ffff, 23);
    FourMore(0x7fff_ffff, 27);
  }

  lemma {:induction false} FewerBits(x: bv32, width: nat)
    ensures Bits(x, width + 1)[..width] == Bits(x, width)
  {
    if width > 0 { FewerBits(Half(x), width - 1); }
  }

  function Shifted(x: bv32, bit: bool): bv32 {
    if bit then (x << 1) | 1 else x << 1
  }

  lemma ShiftedBits(x: bv32, bit: bool)
    ensures IsOdd(Shifted(x, bit)) == bit
    ensures Agree(Half(Shifted(x, bit)), x, 0x7fff_ffff)
  {
  }

  /** Shifting drops the oldest of the 32 and puts the new one first. */
  lemma ShiftRecordsNewest(x: bv32, bit: bool)
    ensures Bits(Shifted(x, bit), 32) == [bit] + Bits(x, 32)[..31]
  {
    ShiftedBits(x, bit);
    AllButTheHighest();
    SameLowBits(Half(Shifted(x, bit)), x, 0x7fff_ffff, 31);
    FewerBits(x, 31);
  }

  // ---------- the transport manager ----------

  datatype Params = Params(tcpFallbackRTTThreshold: int, allowUDPUnstableFallback: bool)

  /** What else a switch depends on, at the moment of a report. */
  datatype Signals = Signals(udpRTT: nat, signalingRTT: nat, recentSignal: bool)

  /** Signalling, which runs over TCP, is alive and not much slower than the media. */
  predicate TCPLooksBetter(params: Params, s: Signals) {
    && s.udpRTT > 0 && s.signalingRTT < (s.udpRTT as real * 1.3).Floor
    && s.signalingRTT < params.tcpFallbackRTTThreshold && s.recentSignal
  }

  /** The register after a report, and whether the report makes the connection fail over. */
  function AfterReport(params: Params, register: bv32, loss: nat, s: Signals): (bv32, bool) {
    var register' := Shifted(register, Unstable(loss));
    if params.tcpFallbackRTTThreshold == 0 || !params.allowUDPUnstableFallback then (register, false)
    else if
      Unstable(loss) && OnesCount(register') >= UDP_LOSS_UNSTABLE_COUNT_THRESHOLD && TCPLooksBetter(params, s)
    then (0, true)
    else (register', false)
  }

  class TransportManager {
    const params: Params
    var udpLossUnstableCount: bv32
    var udpRTT: nat
    var signalingRTT: nat
    var failures: nat  // calls of OnFailed

    constructor (params: Params)
      ensures this.params == params && udpLossUnstableCount == 0 && failures == 0
    {
      this.params := params;
      udpLossUnstableCount, udpRTT, signalingRTT, failures := 0, 0, 0, 0;
    }

    method ResetTransportConfigure()
      modifies this`udpLossUnstableCount
      ensures udpLossUnstableCount == 0
    {
      udpLossUnstableCount := 0;
    }

    /** The report enters the register. */
    method RecordReport(loss: nat)
      modifies this`udpLossUnstableCount
      ensures udpLossUnstableCount == Shifted(old(udpLossUnstableCount), Unstable(loss))
    {
      udpLossUnstableCount := udpLossUnstableCount << 1;
      if Unstable(loss) {
        udpLossUnstableCount := udpLossUnstableCount | 1;
      }
    }

    method OnMediaLossUpdate(loss: nat, recentSignal: bool)
      modifies this`udpLossUnstableCount, this`failures
      ensures var signals := Signals(udpRTT, signalingRTT, recentSignal);
              var (register, failed) := AfterReport(params, old(udpLossUnstableCount), loss, signals);
              udpLossUnstableCount == register && failures == old(failures) + if failed then 1 else 0
    {
      if params.tcpFallbackRTTThreshold == 0 || !params.allowUDPUnstableFallback {
        return;
      }
      RecordReport(loss);
      if Unstable(loss) && OnesCount(udpLossUnstableCount) >= UDP_LOSS_UNSTABLE_COUNT_THRESHOLD {
        if TCPLooksBetter(params, Signals(udpRTT, signalingRTT, recentSignal)) {
          udpLossUnstableCount := 0;
          failures := failures + 1;
        }
      }
    }
  }

  // ---------- whole runs ----------

  datatype Event = Report(loss: nat, signals: Signals) | Reset

  datatype Monitor = Monitor(register: bv32, failures: nat)

  function Step(params: Params, m: Monitor, e: Event): Monitor {
    match e
    case Reset => m.(register := 0)
    case Report(loss, s) =>
      var (register, failed) := AfterReport(params, m.register, loss, s);
      Monitor(register, m.failures + if failed then 1 else 0)
  }

  function Exec(params: Params, es: seq<Event>): Monitor {
    if es == [] then Monitor(0, 0) else Step(params, Exec(params, es[..|es| - 1]), es[|es| - 1])
  }

  /** The newest 32 of the reports, newest first; before the first, all was stable. */
  function Newest(reports: seq<bool>): (newest: seq<bool>)
    ensures |newest| == 32
  {
    seq(32, i requires 0 <= i < 32 => i < |reports| && reports[|reports| - 1 - i])
  }

  /** What a report says about the loss, in 255ths: a quarter or more, rounded down, is unstable. */
  predicate Lossy(loss: nat) {
    loss >= 63
  }

  /**
   With this report the last one of all since the reset: time to fail over. Signalling takes less than 1.3 times as long
   as the media, by a whole unit, and less than the threshold.
   */
  predicate FailsOver(params: Params, reports: seq<bool>, s: Signals) {
    && reports != [] && reports[|reports| - 1] && Count(Newest(reports)) >= 20
    && 10 * (s.signalingRTT + 1) <= 13 * s.udpRTT && s.signalingRTT < params.tcpFallbackRTTThreshold && s.recentSignal
  }

  /** The fallback is switched on. */
  predicate Enabled(params: Params) {
    params.allowUDPUnstableFallback && params.tcpFallbackRTTThreshold != 0
  }

  /** The reports since the last reset, oldest first; true are the unstable ones. Failing over is a reset, too. */
  function Reports(params: Params, es: seq<Event>): seq<bool> {
    if es == [] then []
    else
      var before := Reports(params, es[..|es| - 1]);
      match es[|es| - 1]
      case Reset => []
      case Report(loss, s) =>
        if !Enabled(params) then before
        else if FailsOver(params, before + [Lossy(loss)], s) then []
        else before + [Lossy(loss)]
  }

  lemma ScaledRTT(signalingRTT: nat, udpRTT: nat)
    ensures udpRTT > 0 && signalingRTT < (udpRTT as real * 1.3).Floor <==> 10 * (signalingRTT + 1) <= 13 * udpRTT
  {
    var scaled := udpRTT as real * 1.3;
    assert signalingRTT < scaled.Floor <==> (signalingRTT + 1) as real <= scaled;
    assert 10.0 * scaled == 13.0 * udpRTT as real;
  }

  lemma NewestWithOneMore(reports: seq<bool>, unstable: bool)
    ensures Newest(reports + [unstable]) == [unstable] + Newest(reports)[..31]
  {
  }

  lemma {:induction false} BitsOfZero(width: nat)
    ensures Bits(0, width) == seq(width, i => false)
  {
    if width > 0 {
      assert !IsOdd(0) && Half(0) == 0;
      BitsOfZero(width - 1);
    }
  }

  lemma ReportIsRecorded(params: Params, register: bv32, reports: seq<bool>, loss: nat, s: Signals)
    requires Enabled(params) && Bits(register, 32) == Newest(reports)
    ensures var (register', failed) := AfterReport(params, register, loss, s);
            && failed == FailsOver(params, reports + [Lossy(loss)], s)
            && Bits(register', 32) == Newest(if failed then [] else reports + [Lossy(loss)])
  {
    ShiftRecordsNewest(register, Lossy(loss));
    NewestWithOneMore(reports, Lossy(loss));
    ScaledRTT(s.signalingRTT, s.udpRTT);
    BitsOfZero(32);
    assert Newest([]) == seq(32, i => false);
  }

  /** The register holds exactly the last 32 reports since the last reset. */
  lemma {:induction false} RegisterHoldsNewest(params: Params, es: seq<Event>)
    ensures Bits(Exec(params, es).register, 32) == Newest(Reports(params, es))
    decreases |es|
  {
    BitsOfZero(32);
    assert Newest([]) == seq(32, i => false);
    if es != [] {
      var init := es[..|es| - 1];
      RegisterHoldsNewest(params, init);
      match es[|es| - 1]
      case Reset =>
      case Report(loss, s) =>
        if Enabled(params) { ReportIsRecorded(params, Exec(params, init).register, Reports(params, init), loss, s); }
    }
  }

  /**
   A report makes the connection fail over exactly when it is unstable, at least 20 of the last 32 since the last reset
   are, and signalling is fast and alive.
   */
  lemma FailsOverIff(params: Params, es: seq<Event>, loss: nat, s: Signals)
    ensures AfterReport(params, Exec(params, es).register, loss, s).1 <==>
              Enabled(params) && FailsOver(params, Reports(params, es) + [Lossy(loss)], s)
  {
    RegisterHoldsNewest(params, es);
    if Enabled(params) { ReportIsRecorded(params, Exec(params, es).register, Reports(params, es), loss, s); }
  }

  lemma {:induction false} CountOfPadded(bits: seq<bool>, n: nat)
    requires n <= |bits| && forall i :: n <= i < |bits| ==> !bits[i]
    ensures Count(bits) <= n
  {
    if bits != [] { CountOfPadded(bits[1..], if n == 0 then 0 else n - 1); }
  }

  /** How many reports a run brought. */
  function ReportCount(es: seq<Event>): nat {
    if es == [] then 0 else ReportCount(es[..|es| - 1]) + if es[|es| - 1].Report? then 1 else 0
  }

  /** Every switch uses up twenty reports of its own. */
  lemma {:induction false} FailuresAreRare(params: Params, es: seq<Event>)
    ensures 20 * Exec(params, es).failures + |Reports(params, es)| <= ReportCount(es)
    decreases |es|
  {
    if es != [] {
      var init := es[..|es| - 1];
      FailuresAreRare(params, init);
      match es[|es| - 1]
      case Reset =>
      case Report(loss, s) =>
        FailsOverIff(params, init, loss, s);
        var reports := Reports(params, init) + [Lossy(loss)];
        if |reports| < 32 { CountOfPadded(Newest(reports), |reports|); }
    }
  }
}
