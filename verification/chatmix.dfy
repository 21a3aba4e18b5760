/**
 * chatmix.py: the functional variant. Its `main` keeps the dial levels in a dictionary
 * `volume_cache` that its nested reader function mutates in place, and its nested
 * monitoring function keeps the set of process names last seen in a local variable.
 * Class `ChatMix` holds the state those nested functions share; sessions are routed
 * by process name against the configured lists.
 */
module Chatmix {
  import opened Dial
  import opened Sessions
  import opened Polling
  import opened Config

  /** The two keys of `volume_cache`. */
  const VoiceKey: string := "voice_level"
  const SystemKey: string := "system_level"

  /** The names of the processes owning the sessions. */
  function SessionNames(sessions: seq<Session>): (r: set<string>)
    ensures forall s :: s in sessions && s.hasProcess ==> s.name in r
    ensures forall n :: n in r ==> exists s :: s in sessions && s.hasProcess && s.name == n
  {
    set s | s in sessions && s.hasProcess :: s.name
  }

  function ToPoll(snapshot: Snapshot): Poll<string> {
    match snapshot
    case Listed(sessions) => Seen(SessionNames(sessions))
    case ProcessVanished => Failed
  }

  /** The cycles' snapshots as polls. */
  function Polls(snapshots: seq<Snapshot>): seq<Poll<string>> {
    seq(|snapshots|, i requires 0 <= i < |snapshots| => ToPoll(snapshots[i]))
  }

  /** `n` passes of the same calls, one after another. */
  function Repeat(calls: seq<VolumeCall>, n: nat): seq<VolumeCall>
  {
    if n == 0 then [] else Repeat(calls, n - 1) + calls
  }

  /** Passes repeated `a` times and then `b` times are passes repeated `a + b` times. */
  lemma {:induction false} RepeatAdd(calls: seq<VolumeCall>, a: nat, b: nat)
    ensures Repeat(calls, a) + Repeat(calls, b) == Repeat(calls, a + b)
    decreases b
  {
    if b == 0 {
      assert Repeat(calls, a) + [] == Repeat(calls, a);
    } else {
      RepeatAdd(calls, a, b - 1);
      assert Repeat(calls, a) + (Repeat(calls, b - 1) + calls) == (Repeat(calls, a) + Repeat(calls, b - 1)) + calls;
    }
  }

  /** The passes of the monitoring cycles, cycle by cycle: one per name the cycle finds new. */
  function PassesPerCycle(initial: set<string>, polls: seq<Poll<string>>, pass: seq<VolumeCall>): seq<VolumeCall> {
    if polls == [] then []
    else PassesPerCycle(initial, polls[..|polls| - 1], pass) + Repeat(pass, |NewAt(initial, polls)|)
  }

  /** Counted over all cycles, the passes are one per new name. */
  lemma {:induction false} PassesPerArrival(initial: set<string>, polls: seq<Poll<string>>, pass: seq<VolumeCall>)
    ensures PassesPerCycle(initial, polls, pass) == Repeat(pass, ArrivalCount(initial, polls))
    decreases |polls|
  {
    if polls != [] {
      var front := polls[..|polls| - 1];
      PassesPerArrival(initial, front, pass);
      RepeatAdd(pass, ArrivalCount(initial, front), |NewAt(initial, polls)|);
    }
  }

  /** Monitoring that only ever sees the names of its initial snapshot issues no call. */
  lemma SteadySessionsNoApply(initial: seq<Session>, snapshots: seq<Snapshot>)
    requires forall i :: 0 <= i < |snapshots| && snapshots[i].Listed? ==>
      SessionNames(snapshots[i].sessions) == SessionNames(initial)
    ensures ArrivalCount(SessionNames(initial), Polls(snapshots)) == 0
  {
    SteadyPollsFindNothing(SessionNames(initial), Polls(snapshots));
  }

  /** The settings `main` reads from the configuration, with the defaults for missing keys. */
  function StartupSettings(config: map<string, Json>): (r: Option<Settings>)
    ensures config == map[] ==> r == Some(DefaultSettings)
    ensures r.Some? && "vendor_id" !in config ==> r.value.vendorId == JInt(DefaultVendorId)
    ensures r.Some? && "product_id" !in config ==> r.value.productId == JInt(DefaultProductId)
    ensures r.Some? && "interface_number" !in config ==> r.value.interfaceNumber == JInt(DefaultInterfaceNumber)
    ensures r.Some? && "endpoint_address" !in config ==> r.value.endpointAddress == JInt(DefaultEndpointAddress)
    ensures r.Some? && "vendor_id" in config ==> r.value.vendorId == config["vendor_id"]
    ensures r.Some? && "product_id" in config ==> r.value.productId == config["product_id"]
    ensures r.Some? && "interface_number" in config ==> r.value.interfaceNumber == config["interface_number"]
    ensures r.Some? && "endpoint_address" in config ==> r.value.endpointAddress == config["endpoint_address"]
    ensures r.Some? && "voice_apps" in config ==> AppNames(config["voice_apps"]) == Some(r.value.voiceApps)
    ensures r.Some? && "exclude_apps" in config ==> AppNames(config["exclude_apps"]) == Some(r.value.excludeApps)
    ensures r.None? <==> ("voice_apps" in config && AppNames(config["voice_apps"]).None?) ||
                         ("exclude_apps" in config && AppNames(config["exclude_apps"]).None?)
    ensures r.Some? && "voice_apps" !in config ==> r.value.voiceApps == {}
    ensures r.Some? && "exclude_apps" !in config ==> r.value.excludeApps == {}
    ensures "voice_apps" !in config && "exclude_apps" !in config ==>
      r.Some? && r.value.voiceApps == {} && r.value.excludeApps == {}
  {
    var voice := AppNames(Get(config, "voice_apps", JList([])));
    var exclude := AppNames(Get(config, "exclude_apps", JList([])));
    if voice.None? || exclude.None? then None
    else
      Some(Settings(
        Get(config, "vendor_id", JInt(DefaultVendorId)),
        Get(config, "product_id", JInt(DefaultProductId)),
        Get(config, "interface_number", JInt(DefaultInterfaceNumber)),
        Get(config, "endpoint_address", JInt(DefaultEndpointAddress)),
        voice.value, exclude.value))
  }

  class ChatMix {
    var volumeCache: map<string, Byte>
    const voiceApps: set<string>
    const excludeApps: set<string>

    ghost predicate Valid()
      reads this
    {
      volumeCache.Keys == {VoiceKey, SystemKey}
    }

    /** The levels held in the cache. */
    function Cached(): Levels
      reads this
      requires Valid()
    {
      Levels(volumeCache[VoiceKey], volumeCache[SystemKey])
    }

    constructor (voiceApps: set<string>, excludeApps: set<string>)
      ensures Valid() && Cached() == StartLevels
      ensures this.voiceApps == voiceApps && this.excludeApps == excludeApps
    {
      volumeCache := map[VoiceKey := FullLevel, SystemKey := FullLevel];
      this.voiceApps, this.excludeApps := voiceApps, excludeApps;
    }

    /** `set_volume_levels`: one pass over the live sessions, deciding by process name. */
    method SetVolumeLevels(voice: Byte, system: Byte, sessions: seq<Session>) returns (calls: seq<VolumeCall>)
      ensures calls == Calls(sessions, ByName(voiceApps, excludeApps), Levels(voice, system))
    {
      calls := [];
      for i := 0 to |sessions|
        invariant calls == Calls(sessions[..i], ByName(voiceApps, excludeApps), Levels(voice, system))
      {
        var session := sessions[i];
        if session.hasProcess {
          if session.name in voiceApps {
            calls := calls + [SetMasterVolume(session.pid, voice)];
          } else if session.name in excludeApps {
            // excluded: volume left alone
          } else {
            calls := calls + [SetMasterVolume(session.pid, system)];
          }
        }
        assert sessions[..i + 1][..i] == sessions[..i];
      }
      assert sessions[..|sessions|] == sessions;
    }

    /**
     * The body of `usb_reader`'s loop for one read: an accepted report replaces both
     * cache entries and then applies the cached levels; anything else leaves the cache
     * as it was.
     */
    method HandleRead(event: ReadOutcome, sessions: seq<Session>) returns (calls: seq<VolumeCall>, control: Control)
      requires Valid()
      modifies this`volumeCache
      ensures Valid()
      ensures var step := ReaderStep(old(Cached()), event);
        Cached() == step.levels && control == step.control &&
        calls == if step.apply then Calls(sessions, ByName(voiceApps, excludeApps), step.levels) else []
    {
      calls, control := [], Continue;
      match event
      case Report(data) =>
        if |data| <= VoiceOffset {
          control := Faulted;  // indexing byte 2 raises; the thread's handler ends the loop
          return;
        }
        var voice, system := data[VoiceOffset], data[SystemOffset];
        if voice == FullLevel || system == FullLevel {
          volumeCache := volumeCache[VoiceKey := voice];
          volumeCache := volumeCache[SystemKey := system];
          calls := SetVolumeLevels(volumeCache[VoiceKey], volumeCache[SystemKey], sessions);
        }
      case UsbError(errno) =>
        if errno == ErrTimedOut {
          // expected with a non-blocking read
        } else if errno == ErrNoDevice {
          control := Disconnected;
        } else {
          // logged; the loop goes on
        }
    }

    /** `usb_reader` over a series of reads, until the exit event or the loop's end. */
    method UsbReader(events: seq<ReadOutcome>, sessions: seq<Session>) returns (calls: seq<VolumeCall>, control: Control)
      requires Valid()
      modifies this`volumeCache
      ensures Valid()
      ensures var run := RunReader(old(Cached()), events);
        Cached() == run.levels && control == run.control &&
        calls == CallsPerApply(sessions, ByName(voiceApps, excludeApps), run.applied)
    {
      ghost var start := Cached();
      ghost var applied: seq<Levels> := [];
      calls, control := [], Continue;
      var i := 0;
      while i < |events|
        invariant 0 <= i <= |events|
        invariant Valid()
        invariant RunReader(start, events) == After(applied, i, RunReader(Cached(), events[i..]))
        invariant calls == CallsPerApply(sessions, ByName(voiceApps, excludeApps), applied)
      {
        ghost var before := Cached();
        ghost var step := ReaderStep(before, events[i]);
        var c, next := HandleRead(events[i], sessions);
        if !next.Continue? {
          ReaderStops(events, i, applied, before);
          control := next;
          break;
        }
        ReaderContinues(events, i, applied, before);
        if step.apply {
          CallsPerApplyPush(sessions, ByName(voiceApps, excludeApps), applied, step.levels);
          applied := applied + [step.levels];
        } else {
          assert applied + [] == applied;
        }
        calls := calls + c;
        i := i + 1;
      }
      if control.Continue? {
        ReaderExhausted(events, applied, Cached());
      }
    }

    /** The inner loop of a monitoring cycle: one pass with the cached levels per new name. */
    method ApplyPerNewSession(newSessions: set<string>, live: seq<Session>) returns (calls: seq<VolumeCall>)
      requires Valid()
      ensures calls == Repeat(Calls(live, ByName(voiceApps, excludeApps), Cached()), |newSessions|)
    {
      calls := [];
      var rest := newSessions;
      ghost var n := 0;
      while rest != {}
        invariant n + |rest| == |newSessions|
        invariant calls == Repeat(Calls(live, ByName(voiceApps, excludeApps), Cached()), n)
        decreases rest
      {
        var appName :| appName in rest;
        var c := SetVolumeLevels(volumeCache[VoiceKey], volumeCache[SystemKey], live);
        calls := calls + c;
        rest := rest - {appName};
        n := n + 1;
      }
    }

    /** One monitoring cycle: the names the snapshot adds to the known ones each get a pass. */
    method MonitorCycle(knownSessions: set<string>, snapshot: Snapshot, live: seq<Session>)
      returns (known: set<string>, calls: seq<VolumeCall>)
      requires Valid()
      ensures known == match ToPoll(snapshot) case Seen(current) => current case Failed => knownSessions
      ensures calls == Repeat(Calls(live, ByName(voiceApps, excludeApps), Cached()),
                              match ToPoll(snapshot) case Seen(current) => |current - knownSessions| case Failed => 0)
    {
      match snapshot
      case ProcessVanished =>
        // NoSuchProcess: retry at the next cycle
        known, calls := knownSessions, [];
      case Listed(sessions) =>
        var currentSessions := SessionNames(sessions);
        var newSessions := currentSessions - knownSessions;
        calls := ApplyPerNewSession(newSessions, live);
        known := currentSessions;
    }

    /**
     * `monitor_new_sessions` over a series of cycles: every new process name triggers one
     * pass with the cached levels, and the known names become the snapshot's. The names of
     * the snapshot taken before the loop are not treated as new; that snapshot is taken
     * outside the loop's handler, so when its enumeration raises the monitoring ends at once.
     */
    method MonitorNewSessions(initial: Snapshot, snapshots: seq<Snapshot>, live: seq<Session>)
      returns (calls: seq<VolumeCall>)
      requires Valid()
      ensures initial.ProcessVanished? ==> calls == []
      ensures initial.Listed? ==>
        calls == Repeat(Calls(live, ByName(voiceApps, excludeApps), Cached()),
                        ArrivalCount(SessionNames(initial.sessions), Polls(snapshots)))
    {
      calls := [];
      if initial.ProcessVanished? {
        return;
      }
      var knownSessions := SessionNames(initial.sessions);
      ghost var k0 := knownSessions;
      ghost var polls := Polls(snapshots);
      ghost var pass := Calls(live, ByName(voiceApps, excludeApps), Cached());
      assert polls[..0] == [];
      for i := 0 to |snapshots|
        invariant knownSessions == KnownAfter(k0, polls[..i])
        invariant calls == PassesPerCycle(k0, polls[..i], pass)
      {
        NextCycle(k0, polls, i);
        assert polls[..i + 1][..i] == polls[..i];
        assert polls[i] == ToPoll(snapshots[i]);
        var c;
        knownSessions, c := MonitorCycle(knownSessions, snapshots[i], live);
        calls := calls + c;
      }
      assert polls[..|snapshots|] == polls;
      PassesPerArrival(k0, polls, pass);
    }
  }
}
