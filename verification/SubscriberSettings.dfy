/**
 Subscriber settings and their application to the down track (pkg/rtc/subscribedtrack.go).

 applySettings takes a version under the lock, reads the settings without the lock, and re-checks the version under
 the lock before it touches the down track; any number of these appliers run concurrently with writers.
 */
module SubscriberSettings {
  import opened Common

  datatype Settings = Settings(disabled: bool, quality: nat, width: nat, height: nat, fps: nat)

  const QUALITY_LOW := 0
  const QUALITY_HIGH := 2

  datatype DownTrack = DownTrack(muted: bool, maxSpatialLayer: nat)

  /** The kind of track, and the layer the media track offers for a quality and a dimension. */
  datatype Config = Config(video: bool, layerFor: (nat, nat, nat) -> nat)

  /** How far an applier has got with its unlocked reads. */
  datatype Reads =
    | NothingRead
    | QualityRead(quality: nat)
    | WidthRead(quality: nat, width: nat)
    | AllRead(quality: nat, width: nat, height: nat)

  datatype Apply = Skip | Immediately | Debounced

  datatype Track = Track(settings: Option<Settings>, version: nat, downTrack: DownTrack)

  predicate Muted(t: Track) {
    t.settings.Some? && t.settings.value.disabled
  }

  function HowToApply(t: Track, s: Settings, immediate: bool): Apply {
    if t.settings == Some(s) then Skip
    else if immediate || (!s.disabled && Muted(t)) then Immediately
    else Debounced
  }

  function SettingsOnBind(settings: Option<Settings>, adaptiveStream: bool): Settings {
    if settings.Some? then
      if adaptiveStream then settings.value.(disabled := false) else settings.value
    else Settings(false, if adaptiveStream then QUALITY_LOW else QUALITY_HIGH, 0, 0, 0)
  }

  function AfterApply(cfg: Config, t: Track, version: nat, layer: nat): Track {
    if version != t.version || t.settings.None? then t
    else if t.settings.value.disabled then t.(downTrack := t.downTrack.(muted := true))
    else t.(downTrack := DownTrack(false, if cfg.video then layer else t.downTrack.maxSpatialLayer))
  }

  class SubscribedTrack {
    const cfg: Config
    const adaptiveStream: bool
    var settings: Option<Settings>
    var settingsVersion: nat
    var muted: bool
    var maxSpatialLayer: nat

    function View(): Track
      reads this
    {
      Track(settings, settingsVersion, DownTrack(muted, maxSpatialLayer))
    }

    constructor (cfg: Config, adaptiveStream: bool, dt: DownTrack)
      ensures View() == Track(None, 0, dt) && this.cfg == cfg && this.adaptiveStream == adaptiveStream
    {
      this.cfg := cfg;
      this.adaptiveStream := adaptiveStream;
      settings, settingsVersion, muted, maxSpatialLayer := None, 0, dt.muted, dt.maxSpatialLayer;
    }

    /** Tells how the caller goes on once the lock is released. */
    method UpdateSubscriberSettings(s: Settings, isImmediate: bool) returns (next: Apply)
      modifies this
      ensures next == HowToApply(old(View()), s, isImmediate)
      ensures View() == if next == Skip then old(View()) else old(View()).(settings := Some(s))
    {
      if settings == Some(s) {
        return Skip;
      }
      var wasMuted := settings.Some? && settings.value.disabled;
      var now := isImmediate || (!s.disabled && s.disabled != wasMuted);
      settings := Some(s);
      return if now then Immediately else Debounced;
    }

    method BoundSettings()
      modifies this
      ensures View() == old(View()).(settings := Some(SettingsOnBind(old(settings), adaptiveStream)))
    {
      if settings.Some? {
        if adaptiveStream {
          settings := Some(settings.value.(disabled := false));
        }
      } else if adaptiveStream {
        settings := Some(Settings(false, QUALITY_LOW, 0, 0, 0));
      } else {
        settings := Some(Settings(false, QUALITY_HIGH, 0, 0, 0));
      }
    }

    /** The first locked section of applySettings. */
    method BeginApply() returns (version: Option<nat>)
      modifies this
      ensures version == (if old(settings).None? then None else Some(old(settingsVersion) + 1))
      ensures View() == if old(settings).None? then old(View()) else old(View()).(version := old(settingsVersion) + 1)
    {
      if settings.None? {
        return None;
      }
      settingsVersion := settingsVersion + 1;
      return Some(settingsVersion);
    }

    /** The second one. */
    method FinishApply(version: nat, layer: nat)
      modifies this
      ensures View() == AfterApply(cfg, old(View()), version, layer)
    {
      if version != settingsVersion || settings.None? {
        return;
      }
      if settings.value.disabled {
        muted := true;
        return;
      }
      muted := false;
      if cfg.video {
        maxSpatialLayer := layer;
      }
    }
  }

  // ---------- appliers and writers, interleaved ----------

  datatype System = System(
    track: Track,
    appliers: map<nat, Reads>,  // running appliers, by version
    owed: nat,                  // calls of applySettings that have not taken the lock yet
    debounced: bool,            // the debouncer's timer is set
    writtenAt: nat)             // the version when the settings were last written

  datatype Event =
    | Update(s: Settings, immediate: bool)
    | Bound(adaptiveStream: bool)
    | UpdateVideoLayer
    | DebounceFires
    | Begin
    | ReadNext(version: nat)
    | Finish(version: nat)

  function Init(dt: DownTrack): System {
    System(Track(None, 0, dt), map[], 0, false, 0)
  }

  function Written(sys: System, s: Settings): System {
    sys.(track := sys.track.(settings := Some(s)), writtenAt := sys.track.version)
  }

  function AfterRead(r: Reads, s: Settings): Reads {
    match r
    case NothingRead => QualityRead(s.quality)
    case QualityRead(q) => WidthRead(q, s.width)
    case WidthRead(q, w) => AllRead(q, w, s.height)
    case AllRead(_, _, _) => r
  }

  function Step(cfg: Config, sys: System, e: Event): System {
    var t := sys.track;
    match e
    case Update(s, immediate) =>
      (match HowToApply(t, s, immediate)
       case Skip => sys
       case Immediately => Written(sys, s).(owed := sys.owed + 1)
       case Debounced => Written(sys, s).(debounced := true))
    case Bound(adaptiveStream) =>
      if cfg.video then Written(sys, SettingsOnBind(t.settings, adaptiveStream)).(owed := sys.owed + 1) else sys
    case UpdateVideoLayer => sys.(owed := sys.owed + 1)
    case DebounceFires => if sys.debounced then sys.(debounced := false, owed := sys.owed + 1) else sys
    case Begin =>
      if sys.owed == 0 then sys
      else if t.settings.None? then sys.(owed := sys.owed - 1)
      else
        sys.(owed := sys.owed - 1, track := t.(version := t.version + 1),
             appliers := sys.appliers[t.version + 1 := NothingRead])
    case ReadNext(v) =>
      if v in sys.appliers && t.settings.Some? then
        sys.(appliers := sys.appliers[v := AfterRead(sys.appliers[v], t.settings.value)])
      else sys
    case Finish(v) =>
      if v !in sys.appliers || (cfg.video && !sys.appliers[v].AllRead?) then sys
      else
        var r := sys.appliers[v];
        var layer := if r.AllRead? then cfg.layerFor(r.quality, r.width, r.height) else 0;
        sys.(appliers := sys.appliers - {v}, track := AfterApply(cfg, t, v, layer))
  }

  function Exec(cfg: Config, dt: DownTrack, es: seq<Event>): System {
    if es == [] then Init(dt) else Step(cfg, Exec(cfg, dt, es[..|es| - 1]), es[|es| - 1])
  }

  /** The down track shows these settings: the mute flag, and the layer if it is video and enabled. */
  ghost predicate Shows(cfg: Config, dt: DownTrack, s: Settings) {
    && dt.muted == s.disabled
    && (cfg.video && !s.disabled ==> dt.maxSpatialLayer == cfg.layerFor(s.quality, s.width, s.height))
  }

  predicate ReadsFrom(r: Reads, s: Settings) {
    && (!r.NothingRead? ==> r.quality == s.quality)
    && (r.WidthRead? || r.AllRead? ==> r.width == s.width)
    && (r.AllRead? ==> r.height == s.height)
  }

  /**
   Either no applier has begun since the last write and one is still to come, or the newest applier has read only the
   last settings, or it has finished and the down track shows them.
   */
  ghost predicate Inv(cfg: Config, sys: System) {
    var t := sys.track;
    && sys.writtenAt <= t.version && (forall v <- sys.appliers :: v <= t.version)
    && (t.settings.None? ==> sys.appliers == map[] && t.version == 0 && !sys.debounced)
    && (t.settings.Some? ==>
          if t.version == sys.writtenAt then sys.owed > 0 || sys.debounced
          else if t.version in sys.appliers then ReadsFrom(sys.appliers[t.version], t.settings.value)
          else Shows(cfg, t.downTrack, t.settings.value))
  }

  lemma StepKeepsInv(cfg: Config, sys: System, e: Event)
    requires Inv(cfg, sys)
    ensures Inv(cfg, Step(cfg, sys, e))
  {
  }

  lemma {:induction false} ExecKeepsInv(cfg: Config, dt: DownTrack, es: seq<Event>)
    ensures Inv(cfg, Exec(cfg, dt, es))
    decreases |es|
  {
    if es != [] {
      ExecKeepsInv(cfg, dt, es[..|es| - 1]);
      StepKeepsInv(cfg, Exec(cfg, dt, es[..|es| - 1]), es[|es| - 1]);
    }
  }

  /** The settings in effect at the end of a run, by the writes alone. */
  function LastWritten(cfg: Config, es: seq<Event>): Option<Settings> {
    if es == [] then None
    else
      var before, e := LastWritten(cfg, es[..|es| - 1]), es[|es| - 1];
      if e.Update? then Some(e.s)
      else if e.Bound? && cfg.video then Some(SettingsOnBind(before, e.adaptiveStream))
      else before
  }

  lemma {:induction false} SettingsAreLastWritten(cfg: Config, dt: DownTrack, es: seq<Event>)
    ensures Exec(cfg, dt, es).track.settings == LastWritten(cfg, es)
    decreases |es|
  {
    if es != [] { SettingsAreLastWritten(cfg, dt, es[..|es| - 1]); }
  }

  lemma {:induction false} UntouchedWithoutSettings(cfg: Config, dt: DownTrack, es: seq<Event>)
    requires Exec(cfg, dt, es).track.settings.None?
    ensures Exec(cfg, dt, es).track.downTrack == dt
    decreases |es|
  {
    if es != [] { UntouchedWithoutSettings(cfg, dt, es[..|es| - 1]); }
  }

  /** Once every applier has finished, the down track shows the last settings written. */
  lemma SettingsConverge(cfg: Config, dt: DownTrack, es: seq<Event>)
    requires var sys := Exec(cfg, dt, es); sys.appliers == map[] && sys.owed == 0 && !sys.debounced
    ensures match LastWritten(cfg, es)
            case Some(s) => Shows(cfg, Exec(cfg, dt, es).track.downTrack, s)
            case None => Exec(cfg, dt, es).track.downTrack == dt
  {
    ExecKeepsInv(cfg, dt, es);
    SettingsAreLastWritten(cfg, dt, es);
    if Exec(cfg, dt, es).track.settings.None? { UntouchedWithoutSettings(cfg, dt, es); }
  }

  lemma StepVersions(cfg: Config, sys: System, e: Event)
    ensures sys.track.version <= Step(cfg, sys, e).track.version
    ensures forall v <- Step(cfg, sys, e).appliers :: v in sys.appliers || v > sys.track.version
  {
  }

  /** Versions only go up, and every applier gets one no earlier applier had. */
  lemma {:induction false} VersionsIncrease(cfg: Config, dt: DownTrack, es: seq<Event>, more: seq<Event>)
    ensures Exec(cfg, dt, es).track.version <= Exec(cfg, dt, es + more).track.version
    ensures forall v <- Exec(cfg, dt, es + more).appliers ::
              v in Exec(cfg, dt, es).appliers || v > Exec(cfg, dt, es).track.version
    decreases |more|
  {
    if more == [] {
      assert es + more == es;
    } else {
      var init := more[..|more| - 1];
      VersionsIncrease(cfg, dt, es, init);
      assert (es + more)[..|es + more| - 1] == es + init;
      StepVersions(cfg, Exec(cfg, dt, es + init), more[|more| - 1]);
    }
  }

  // ---------- what is written, and how soon it is applied ----------

  lemma ExecOneMore(cfg: Config, dt: DownTrack, es: seq<Event>, e: Event)
    ensures Exec(cfg, dt, es + [e]) == Step(cfg, Exec(cfg, dt, es), e)
  {
    assert (es + [e])[..|es|] == es;
  }

  /**
   Binding a video track: settings there are already stay, but for adaptive streams, which are enabled; without any, a
   track that adapts starts low and one that does not starts high.
   */
  lemma BindingKeepsSettings(cfg: Config, dt: DownTrack, es: seq<Event>, adaptiveStream: bool)
    requires cfg.video
    ensures var before := Exec(cfg, dt, es).track.settings;
            var after := Exec(cfg, dt, es + [Bound(adaptiveStream)]).track.settings;
            && after.Some? && (adaptiveStream ==> !after.value.disabled)
            && (before.Some? ==> after.value == before.value.(disabled := after.value.disabled)
                                 && (!adaptiveStream ==> after == before))
            && (before.None? ==> after == Some(Settings(false, if adaptiveStream then 0 else 2, 0, 0, 0)))
  {
    ExecOneMore(cfg, dt, es, Bound(adaptiveStream));
  }

  /** No applier runs or is to come. */
  predicate Quiet(sys: System) {
    sys.appliers == map[] && sys.owed == 0 && !sys.debounced
  }

  /** Neither written to nor timed: the appliers alone. */
  predicate IsApplying(e: Event) {
    e.Begin? || e.ReadNext? || e.Finish?
  }

  ghost predicate OnlyApplying(more: seq<Event>) {
    forall e <- more :: IsApplying(e)
  }

  lemma {:induction false} NothingToApply(cfg: Config, dt: DownTrack, es: seq<Event>, more: seq<Event>)
    requires Exec(cfg, dt, es).appliers == map[] && Exec(cfg, dt, es).owed == 0 && OnlyApplying(more)
    ensures Exec(cfg, dt, es + more) == Exec(cfg, dt, es)
    decreases |more|
  {
    if more == [] {
      assert es + more == es;
    } else {
      var init, e := more[..|more| - 1], more[|more| - 1];
      NothingToApply(cfg, dt, es, init);
      assert e in more && es + more == es + init + [e];
      ExecOneMore(cfg, dt, es + init, e);
    }
  }

  /** One applier by itself: it takes a version, reads three times, and shows what it read. */
  lemma OneApplies(cfg: Config, sys: System)
    requires sys.track.settings.Some? && sys.appliers == map[] && sys.owed == 1
    ensures var v := sys.track.version + 1;
            var read := Step(cfg, Step(cfg, Step(cfg, Step(cfg, sys, Begin), ReadNext(v)), ReadNext(v)), ReadNext(v));
            var after := Step(cfg, read, Finish(v));
            && after.appliers == map[] && after.owed == 0 && after.debounced == sys.debounced
            && after.track.settings == sys.track.settings && after.track.version == v
            && Shows(cfg, after.track.downTrack, sys.track.settings.value)
  {
    var v, s := sys.track.version + 1, sys.track.settings.value;
    var begun := sys.(owed := 0, track := sys.track.(version := v), appliers := map[v := NothingRead]);
    assert Step(cfg, sys, Begin) == begun;
    assert Step(cfg, begun, ReadNext(v)) == begun.(appliers := map[v := QualityRead(s.quality)]);
  }

  lemma ExecReads(cfg: Config, dt: DownTrack, es: seq<Event>, v: nat)
    ensures var begun := Step(cfg, Exec(cfg, dt, es), Begin);
            var read := Step(cfg, Step(cfg, Step(cfg, begun, ReadNext(v)), ReadNext(v)), ReadNext(v));
            Exec(cfg, dt, es + [Begin, ReadNext(v), ReadNext(v), ReadNext(v), Finish(v)]) == Step(cfg, read, Finish(v))
  {
    var e1 := es + [Begin];
    var e2 := e1 + [ReadNext(v)];
    var e3 := e2 + [ReadNext(v)];
    var e4 := e3 + [ReadNext(v)];
    ExecOneMore(cfg, dt, es, Begin);
    ExecOneMore(cfg, dt, e1, ReadNext(v));
    ExecOneMore(cfg, dt, e2, ReadNext(v));
    ExecOneMore(cfg, dt, e3, ReadNext(v));
    ExecOneMore(cfg, dt, e4, Finish(v));
    assert es + [Begin, ReadNext(v), ReadNext(v), ReadNext(v), Finish(v)] == e4 + [Finish(v)];
  }

  lemma AppliedNext(cfg: Config, dt: DownTrack, es: seq<Event>) returns (more: seq<Event>)
    requires var sys := Exec(cfg, dt, es); sys.track.settings.Some? && sys.appliers == map[] && sys.owed == 1
    ensures OnlyApplying(more)
    ensures var sys, after := Exec(cfg, dt, es), Exec(cfg, dt, es + more);
            && after.track.version > sys.track.version && after.appliers == map[] && after.owed == 0
            && after.debounced == sys.debounced && after.track.settings == sys.track.settings
            && Shows(cfg, after.track.downTrack, sys.track.settings.value)
  {
    var v := Exec(cfg, dt, es).track.version + 1;
    OneApplies(cfg, Exec(cfg, dt, es));
    ExecReads(cfg, dt, es, v);
    more := [Begin, ReadNext(v), ReadNext(v), ReadNext(v), Finish(v)];
  }

  /** Without the timer an update gets to be applied, and shown. */
  ghost predicate ShownWithoutTimer(cfg: Config, dt: DownTrack, es: seq<Event>, s: Settings, more: seq<Event>) {
    && OnlyApplying(more) && Exec(cfg, dt, es + more).track.version > Exec(cfg, dt, es).track.version
    && Quiet(Exec(cfg, dt, es + more)) && Shows(cfg, Exec(cfg, dt, es + more).track.downTrack, s)
  }

  /** An update that enables a disabled track, or is immediate. */
  predicate Hurries(settings: Option<Settings>, s: Settings, immediate: bool) {
    immediate || (settings.Some? && settings.value.disabled && !s.disabled)
  }

  /**
   While nothing else is being applied, changed settings are shown without the timer if and only if the update is
   immediate or enables a disabled track; all other changes wait for the timer, and settings that stay the same change
   nothing.
   */
  lemma ShownWithoutTimerIff(cfg: Config, dt: DownTrack, es: seq<Event>, s: Settings, immediate: bool)
    requires Quiet(Exec(cfg, dt, es))
    ensures var settings := Exec(cfg, dt, es).track.settings;
            var upTo := es + [Update(s, immediate)];
            if settings == Some(s) then Exec(cfg, dt, upTo) == Exec(cfg, dt, es)
            else
              && ((exists more: seq<Event> :: ShownWithoutTimer(cfg, dt, upTo, s, more)) <==>
                  Hurries(settings, s, immediate))
              && (Exec(cfg, dt, upTo).debounced <==> !Hurries(settings, s, immediate))
  {
    var upTo := es + [Update(s, immediate)];
    ExecOneMore(cfg, dt, es, Update(s, immediate));
    if Hurries(Exec(cfg, dt, es).track.settings, s, immediate) {
      if Exec(cfg, dt, es).track.settings != Some(s) {
        var more := AppliedNext(cfg, dt, upTo);
        assert ShownWithoutTimer(cfg, dt, upTo, s, more);
      }
    } else {
      forall more: seq<Event> | OnlyApplying(more) ensures Exec(cfg, dt, upTo + more) == Exec(cfg, dt, upTo) {
        NothingToApply(cfg, dt, upTo, more);
      }
    }
  }

  /** And when the timer fires they are shown, too. */
  lemma ShownAfterTimer(cfg: Config, dt: DownTrack, es: seq<Event>, s: Settings) returns (more: seq<Event>)
    requires var sys := Exec(cfg, dt, es);
             sys.track.settings == Some(s) && sys.appliers == map[] && sys.owed == 0 && sys.debounced
    ensures ShownWithoutTimer(cfg, dt, es + [DebounceFires], s, more)
  {
    ExecOneMore(cfg, dt, es, DebounceFires);
    more := AppliedNext(cfg, dt, es + [DebounceFires]);
  }

  /** Layers are set on video tracks alone. */
  lemma {:induction false} AudioHasNoLayers(cfg: Config, dt: DownTrack, es: seq<Event>)
    requires !cfg.video
    ensures Exec(cfg, dt, es).track.downTrack.maxSpatialLayer == dt.maxSpatialLayer
    decreases |es|
  {
    if es != [] { AudioHasNoLayers(cfg, dt, es[..|es| - 1]); }
  }
}
