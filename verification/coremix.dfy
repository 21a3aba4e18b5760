/**
 * coremix.py: the class-based variant. A `CoreMix` object keeps the two dial levels,
 * the `(name, pid)` pairs of the last session snapshot, and the process ids it has
 * classified as voice or excluded; its reader and monitoring loops update them in place.
 */
module Coremix {
  import opened Dial
  import opened Sessions
  import opened Polling
  import opened Config

  /** A session's identity in this variant: process name and process id. */
  type Key = (string, int)

  /** The `(name, pid)` pairs of the sessions that have a process. */
  function SessionKeys(sessions: seq<Session>): (r: set<Key>)
    ensures forall s :: s in sessions && s.hasProcess ==> (s.name, s.pid) in r
    ensures forall k :: k in r ==> exists s :: s in sessions && s.hasProcess && (s.name, s.pid) == k
  {
    set s | s in sessions && s.hasProcess :: (s.name, s.pid)
  }

  function ToPoll(snapshot: Snapshot): Poll<Key> {
    match snapshot
    case Listed(sessions) => Seen(SessionKeys(sessions))
    case ProcessVanished => Failed
  }

  /** The cycles' snapshots as polls. */
  function Polls(snapshots: seq<Snapshot>): seq<Poll<Key>> {
    seq(|snapshots|, i requires 0 <= i < |snapshots| => ToPoll(snapshots[i]))
  }

  /** The ids of new sessions whose name is a voice app. */
  function VoicePids(arrived: set<Key>, voiceApps: set<string>, excludeApps: set<string>): set<int> {
    set k | k in arrived && Precedence(k.0 in voiceApps, k.0 in excludeApps) == ToVoice :: k.1
  }

  /** The ids of new sessions whose name is an excluded app and not a voice app. */
  function ExcludePids(arrived: set<Key>, voiceApps: set<string>, excludeApps: set<string>): set<int> {
    set k | k in arrived && Precedence(k.0 in voiceApps, k.0 in excludeApps) == Untouched :: k.1
  }

  /** The id sets after classifying `arrived`: they only grow. */
  function Classify(voiceIds: set<int>, excludeIds: set<int>, arrived: set<Key>,
                    voiceApps: set<string>, excludeApps: set<string>): (r: Classifier)
    ensures r.ByPid? && voiceIds <= r.voiceIds && excludeIds <= r.excludeIds
    ensures forall k :: k in arrived && k.0 in voiceApps ==> k.1 in r.voiceIds
    ensures forall k :: k in arrived && k.0 !in voiceApps && k.0 in excludeApps ==> k.1 in r.excludeIds
    ensures forall p :: p in r.voiceIds - voiceIds ==> exists k :: k in arrived && k.0 in voiceApps && k.1 == p
    ensures forall p :: p in r.excludeIds - excludeIds ==>
      exists k :: k in arrived && k.0 !in voiceApps && k.0 in excludeApps && k.1 == p
  {
    ByPid(voiceIds + VoicePids(arrived, voiceApps, excludeApps), excludeIds + ExcludePids(arrived, voiceApps, excludeApps))
  }

  lemma ClassifyUnion(voiceIds: set<int>, excludeIds: set<int>, a: set<Key>, b: set<Key>,
                      voiceApps: set<string>, excludeApps: set<string>)
    ensures var first := Classify(voiceIds, excludeIds, a, voiceApps, excludeApps);
      Classify(first.voiceIds, first.excludeIds, b, voiceApps, excludeApps) ==
      Classify(voiceIds, excludeIds, a + b, voiceApps, excludeApps)
  {
    assert VoicePids(a + b, voiceApps, excludeApps) == VoicePids(a, voiceApps, excludeApps) + VoicePids(b, voiceApps, excludeApps);
    assert ExcludePids(a + b, voiceApps, excludeApps) == ExcludePids(a, voiceApps, excludeApps) + ExcludePids(b, voiceApps, excludeApps);
  }

  /**
   * The volume calls of the monitoring cycles: a cycle that finds new sessions applies
   * the levels with the ids as classified so far; a cycle that finds none applies nothing.
   */
  function MonitorCalls(initial: set<Key>, voiceIds: set<int>, excludeIds: set<int>, polls: seq<Poll<Key>>,
                        voiceApps: set<string>, excludeApps: set<string>, live: seq<Session>, levels: Levels): (r: seq<VolumeCall>)
    ensures Arrivals(initial, polls) == {} ==> r == []
    ensures polls != [] && NewAt(initial, polls) == {} ==>
      r == MonitorCalls(initial, voiceIds, excludeIds, polls[..|polls| - 1], voiceApps, excludeApps, live, levels)
  {
    if polls == [] then []
    else
      MonitorCalls(initial, voiceIds, excludeIds, polls[..|polls| - 1], voiceApps, excludeApps, live, levels)
        + if NewAt(initial, polls) == {} then []
          else Calls(live, Classify(voiceIds, excludeIds, Arrivals(initial, polls), voiceApps, excludeApps), levels)
  }

  /** The calls of one more monitoring cycle, unfolded. */
  lemma MonitorCallsUnfold(initial: set<Key>, voiceIds: set<int>, excludeIds: set<int>, polls: seq<Poll<Key>>, i: nat,
      voiceApps: set<string>, excludeApps: set<string>, live: seq<Session>, levels: Levels)
    requires i < |polls|
    ensures var front, upto := polls[..i], polls[..i + 1];
      MonitorCalls(initial, voiceIds, excludeIds, upto, voiceApps, excludeApps, live, levels) ==
        MonitorCalls(initial, voiceIds, excludeIds, front, voiceApps, excludeApps, live, levels) +
        if NewAt(initial, upto) == {} then []
        else Calls(live, Classify(voiceIds, excludeIds, Arrivals(initial, upto), voiceApps, excludeApps), levels)
  {
    assert polls[..i + 1][..i] == polls[..i];
  }

  /**
   * A session of the initial snapshot that every later snapshot still shows is never
   * classified: unless another session with the same process id arrives, its id joins
   * neither set, whatever its name.
   */
  lemma {:induction false} PresentSessionNotClassified(initial: set<Key>, voiceIds: set<int>, excludeIds: set<int>,
      polls: seq<Poll<Key>>, voiceApps: set<string>, excludeApps: set<string>, key: Key)
    requires key in initial && key.1 !in voiceIds && key.1 !in excludeIds
    requires forall i :: 0 <= i < |polls| && polls[i].Seen? ==> key in polls[i].current
    requires forall i, k :: 0 <= i < |polls| && polls[i].Seen? && k in polls[i].current && k.1 == key.1 ==> k == key
    ensures var c := Classify(voiceIds, excludeIds, Arrivals(initial, polls), voiceApps, excludeApps);
      key.1 !in c.voiceIds && key.1 !in c.excludeIds
  {
    var arrivals := Arrivals(initial, polls);
    PresentSessionNeverArrives(initial, polls, key);
    forall k | k in arrivals ensures k.1 != key.1 {
      ArrivalsWereSeen(initial, polls, k);
    }
  }

  /** The process as the entry point configures it. */
  datatype Args = Args(
    vendorId: Option<int>, productId: Option<int>, interfaceNumber: Option<int>, endpointAddress: Option<int>,
    voiceApps: Option<seq<string>>, excludeApps: Option<seq<string>>)

  const NoArgs: Args := Args(None, None, None, None, None, None)

  /** Python truthiness of an integer argument: absent and zero both fall through `or`. */
  predicate Given(arg: Option<int>) {
    arg.Some? && arg.value != 0
  }

  function IdOr(arg: Option<int>, fallback: Json): Json {
    if Given(arg) then JInt(arg.value) else fallback
  }

  function AppsOr(arg: Option<seq<string>>, fallback: Json): Option<set<string>> {
    if arg.Some? && arg.value != [] then Some(set n | n in arg.value) else AppNames(fallback)
  }

  /**
   * The settings the entry point builds: a given argument wins, then the configuration
   * file, then the default. None when building an app set raises.
   */
  function StartupSettings(args: Args, config: map<string, Json>): (r: Option<Settings>)
    ensures args == NoArgs && config == map[] ==> r == Some(DefaultSettings)
    ensures r.Some? && Given(args.interfaceNumber) ==> r.value.interfaceNumber == JInt(args.interfaceNumber.value)
    ensures r.Some? && !Given(args.interfaceNumber) && "interface_number" in config ==>
      r.value.interfaceNumber == config["interface_number"]
    ensures r.Some? && !Given(args.vendorId) && "vendor_id" !in config ==> r.value.vendorId == JInt(DefaultVendorId)
    ensures r.Some? && !Given(args.productId) && "product_id" !in config ==> r.value.productId == JInt(DefaultProductId)
    ensures r.Some? && !Given(args.endpointAddress) && "endpoint_address" !in config ==>
      r.value.endpointAddress == JInt(DefaultEndpointAddress)
    ensures r.Some? && !Given(args.interfaceNumber) && "interface_number" !in config ==>
      r.value.interfaceNumber == JInt(DefaultInterfaceNumber)
    ensures r.Some? && Given(args.vendorId) ==> r.value.vendorId == JInt(args.vendorId.value)
    ensures r.Some? && Given(args.productId) ==> r.value.productId == JInt(args.productId.value)
    ensures r.Some? && Given(args.endpointAddress) ==> r.value.endpointAddress == JInt(args.endpointAddress.value)
    ensures r.Some? && !Given(args.vendorId) && "vendor_id" in config ==> r.value.vendorId == config["vendor_id"]
    ensures r.Some? && !Given(args.productId) && "product_id" in config ==> r.value.productId == config["product_id"]
    ensures r.Some? && !Given(args.endpointAddress) && "endpoint_address" in config ==>
      r.value.endpointAddress == config["endpoint_address"]
    ensures r.Some? && args.voiceApps.Some? && args.voiceApps.value != [] ==>
      forall n :: n in r.value.voiceApps <==> n in args.voiceApps.value
    ensures r.Some? && args.excludeApps.Some? && args.excludeApps.value != [] ==>
      forall n :: n in r.value.excludeApps <==> n in args.excludeApps.value
    ensures r.Some? && (args.voiceApps == None || args.voiceApps == Some([])) && "voice_apps" in config ==>
      AppNames(config["voice_apps"]) == Some(r.value.voiceApps)
    ensures r.Some? && (args.excludeApps == None || args.excludeApps == Some([])) && "exclude_apps" in config ==>
      AppNames(config["exclude_apps"]) == Some(r.value.excludeApps)
    ensures r.None? <==>
      ((args.voiceApps == None || args.voiceApps == Some([])) &&
       "voice_apps" in config && AppNames(config["voice_apps"]).None?) ||
      ((args.excludeApps == None || args.excludeApps == Some([])) &&
       "exclude_apps" in config && AppNames(config["exclude_apps"]).None?)
    ensures r.Some? && (args.voiceApps == None || args.voiceApps == Some([])) && "voice_apps" !in config ==>
      r.value.voiceApps == {}
    ensures r.Some? && (args.excludeApps == None || args.excludeApps == Some([])) && "exclude_apps" !in config ==>
      r.value.excludeApps == {}
    ensures ((args.voiceApps == None || args.voiceApps == Some([])) && "voice_apps" !in config &&
             (args.excludeApps == None || args.excludeApps == Some([])) && "exclude_apps" !in config) ==>
      r.Some? && r.value.voiceApps == {} && r.value.excludeApps == {}
  {
    var voice := AppsOr(args.voiceApps, Get(config, "voice_apps", JList([])));
    var exclude := AppsOr(args.excludeApps, Get(config, "exclude_apps", JList([])));
    if voice.None? || exclude.None? then None
    else
      Some(Settings(
        IdOr(args.vendorId, Get(config, "vendor_id", JInt(DefaultVendorId))),
        IdOr(args.productId, Get(config, "product_id", JInt(DefaultProductId))),
        IdOr(args.interfaceNumber, Get(config, "interface_number", JInt(DefaultInterfaceNumber))),
        IdOr(args.endpointAddress, Get(config, "endpoint_address", JInt(DefaultEndpointAddress))),
        voice.value, exclude.value))
  }

  class CoreMix {
    var voiceLevel: Byte
    var systemLevel: Byte
    const voiceApps: set<string>
    const excludeApps: set<string>
    var knownSessions: set<Key>
    var voiceIds: set<int>
    var excludeIds: set<int>

    constructor (voiceApps: set<string>, excludeApps: set<string>)
      ensures this.voiceApps == voiceApps && this.excludeApps == excludeApps
      ensures CurrentLevels() == StartLevels
      ensures knownSessions == {} && voiceIds == {} && excludeIds == {}
    {
      voiceLevel, systemLevel := FullLevel, FullLevel;
      this.voiceApps, this.excludeApps := voiceApps, excludeApps;
      knownSessions, voiceIds, excludeIds := {}, {}, {};
    }

    function CurrentLevels(): Levels
      reads this
    {
      Levels(voiceLevel, systemLevel)
    }

    /** How `set_volume_levels` routes sessions given the ids classified so far. */
    function Routing(): Classifier
      reads this
    {
      ByPid(voiceIds, excludeIds)
    }

    /** `set_volume_levels`: one pass over the live sessions, deciding by process id. */
    method SetVolumeLevels(voice: Byte, system: Byte, sessions: seq<Session>) returns (calls: seq<VolumeCall>)
      ensures calls == Calls(sessions, ByPid(voiceIds, excludeIds), Levels(voice, system))
    {
      calls := [];
      for i := 0 to |sessions|
        invariant calls == Calls(sessions[..i], ByPid(voiceIds, excludeIds), Levels(voice, system))
      {
        var session := sessions[i];
        if session.hasProcess {
          if session.pid in voiceIds {
            calls := calls + [SetMasterVolume(session.pid, voice)];
          } else if session.pid in excludeIds {
            // excluded: volume left alone
          } else {
            calls := calls + [SetMasterVolume(session.pid, system)];
          }
        }
        assert sessions[..i + 1][..i] == sessions[..i];
      }
      assert sessions[..|sessions|] == sessions;
    }

    /**
     * The body of `usb_reader`'s loop for one read: an accepted report replaces both
     * levels and applies them; a rejected one, a timeout or another USB error changes
     * nothing; a disconnect or a report too short to index ends the loop.
     */
    method HandleRead(event: ReadOutcome, sessions: seq<Session>) returns (calls: seq<VolumeCall>, control: Control)
      modifies this`voiceLevel, this`systemLevel
      ensures var step := ReaderStep(old(CurrentLevels()), event);
        CurrentLevels() == step.levels && control == step.control &&
        calls == if step.apply then Calls(sessions, Routing(), step.levels) else []
    {
      calls, control := [], Continue;
      match event
      case Report(data) =>
        if |data| <= VoiceOffset {
          control := Faulted;  // indexing byte 2 raises; the thread's handler ends the loop
          return;
        }
        var voice, system := data[VoiceOffset], data[SystemOffset];
        if voice == FullLevel || system == FullLevel {
          voiceLevel, systemLevel := voice, system;
          calls := SetVolumeLevels(voiceLevel, systemLevel, sessions);
        }
      case UsbError(errno) =>
        if errno == ErrTimedOut {
          // expected with a non-blocking read
        } else if errno == ErrNoDevice {
          control := Disconnected;
        } else {
          // logged; the loop goes on
        }
    }

    /** `usb_reader` over a series of reads, until the exit event or the loop's end. */
    method UsbReader(events: seq<ReadOutcome>, sessions: seq<Session>) returns (calls: seq<VolumeCall>, control: Control)
      modifies this`voiceLevel, this`systemLevel
      ensures var run := RunReader(old(CurrentLevels()), events);
        CurrentLevels() == run.levels && control == run.control &&
        calls == CallsPerApply(sessions, Routing(), run.applied)
    {
      ghost var start := CurrentLevels();
      ghost var applied: seq<Levels> := [];
      calls, control := [], Continue;
      var i := 0;
      while i < |events|
        invariant 0 <= i <= |events|
        invariant RunReader(start, events) == After(applied, i, RunReader(CurrentLevels(), events[i..]))
        invariant calls == CallsPerApply(sessions, Routing(), applied)
      {
        ghost var before := CurrentLevels();
        ghost var step := ReaderStep(before, events[i]);
        var c, next := HandleRead(events[i], sessions);
        if !next.Continue? {
          ReaderStops(events, i, applied, before);
          control := next;
          break;
        }
        ReaderContinues(events, i, applied, before);
        if step.apply {
          CallsPerApplyPush(sessions, Routing(), applied, step.levels);
          applied := applied + [step.levels];
        } else {
          assert applied + [] == applied;
        }
        calls := calls + c;
        i := i + 1;
      }
      if control.Continue? {
        ReaderExhausted(events, applied, CurrentLevels());
      }
    }

    /** The classification loop of a monitoring cycle, over the new `(name, pid)` pairs. */
    method ClassifyArrivals(arrived: set<Key>)
      modifies this`voiceIds, this`excludeIds
      ensures Routing() == Classify(old(voiceIds), old(excludeIds), arrived, voiceApps, excludeApps)
    {
      var rest := arrived;
      while rest != {}
        invariant rest <= arrived
        invariant voiceIds == old(voiceIds) + VoicePids(arrived - rest, voiceApps, excludeApps)
        invariant excludeIds == old(excludeIds) + ExcludePids(arrived - rest, voiceApps, excludeApps)
        decreases rest
      {
        var key :| key in rest;
        var (name, pid) := key;
        if name in voiceApps {
          voiceIds := voiceIds + {pid};
        } else if name in excludeApps {
          excludeIds := excludeIds + {pid};
        }
        assert (arrived - rest) + {key} == arrived - (rest - {key});
        assert VoicePids((arrived - rest) + {key}, voiceApps, excludeApps) ==
          VoicePids(arrived - rest, voiceApps, excludeApps) + VoicePids({key}, voiceApps, excludeApps);
        assert ExcludePids((arrived - rest) + {key}, voiceApps, excludeApps) ==
          ExcludePids(arrived - rest, voiceApps, excludeApps) + ExcludePids({key}, voiceApps, excludeApps);
        rest := rest - {key};
      }
      assert arrived - {} == arrived;
    }

    /**
     * One cycle of `monitor_new_sessions`: new `(name, pid)` pairs are classified (voice
     * first, then excluded), the levels are applied if there were any, and the known set
     * becomes the snapshot. A cycle whose enumeration raised changes nothing.
     */
    method MonitorStep(snapshot: Snapshot, live: seq<Session>) returns (calls: seq<VolumeCall>)
      modifies this`knownSessions, this`voiceIds, this`excludeIds
      ensures snapshot.ProcessVanished? ==>
        knownSessions == old(knownSessions) && Routing() == old(Routing()) && calls == []
      ensures snapshot.Listed? ==>
        var arrived := SessionKeys(snapshot.sessions) - old(knownSessions);
        knownSessions == SessionKeys(snapshot.sessions) &&
        Routing() == Classify(old(voiceIds), old(excludeIds), arrived, voiceApps, excludeApps) &&
        calls == if arrived == {} then [] else Calls(live, Routing(), CurrentLevels())
    {
      calls := [];
      match snapshot
      case ProcessVanished =>
        // NoSuchProcess: retry at the next cycle
      case Listed(sessions) =>
        var current := SessionKeys(sessions);
        var arrived := current - knownSessions;
        if arrived != {} {
          ClassifyArrivals(arrived);
          calls := SetVolumeLevels(voiceLevel, systemLevel, live);
        }
        knownSessions := current;
    }

    /**
     * `monitor_new_sessions` over a series of cycles, starting from the snapshot taken
     * before the loop, which is not treated as new. That snapshot is taken outside the
     * loop's handler: when its enumeration raises, the monitoring ends at once.
     */
    method MonitorNewSessions(initial: Snapshot, snapshots: seq<Snapshot>, live: seq<Session>)
      returns (calls: seq<VolumeCall>)
      modifies this`knownSessions, this`voiceIds, this`excludeIds
      ensures initial.ProcessVanished? ==>
        knownSessions == old(knownSessions) && Routing() == old(Routing()) && calls == []
      ensures initial.Listed? ==> var k0, polls := SessionKeys(initial.sessions), Polls(snapshots);
        knownSessions == KnownAfter(k0, polls) &&
        Routing() == Classify(old(voiceIds), old(excludeIds), Arrivals(k0, polls), voiceApps, excludeApps) &&
        calls == MonitorCalls(k0, old(voiceIds), old(excludeIds), polls, voiceApps, excludeApps, live, CurrentLevels())
    {
      calls := [];
      if initial.ProcessVanished? {
        return;
      }
      calls := MonitorCycles(SessionKeys(initial.sessions), snapshots, live);
    }

    /** The loop of `monitor_new_sessions`, from the known set the initial snapshot gives. */
    method MonitorCycles(k0: set<Key>, snapshots: seq<Snapshot>, live: seq<Session>)
      returns (calls: seq<VolumeCall>)
      modifies this`knownSessions, this`voiceIds, this`excludeIds
      ensures var polls := Polls(snapshots);
        knownSessions == KnownAfter(k0, polls) &&
        Routing() == Classify(old(voiceIds), old(excludeIds), Arrivals(k0, polls), voiceApps, excludeApps) &&
        calls == MonitorCalls(k0, old(voiceIds), old(excludeIds), polls, voiceApps, excludeApps, live, CurrentLevels())
    {
      ghost var polls := Polls(snapshots);
      ghost var v0, e0 := voiceIds, excludeIds;
      knownSessions, calls := k0, [];
      for i := 0 to |snapshots|
        invariant knownSessions == KnownAfter(k0, polls[..i])
        invariant Routing() == Classify(v0, e0, Arrivals(k0, polls[..i]), voiceApps, excludeApps)
        invariant calls == MonitorCalls(k0, v0, e0, polls[..i], voiceApps, excludeApps, live, CurrentLevels())
      {
        ghost var front, upto := polls[..i], polls[..i + 1];
        ghost var arrived := NewAt(k0, upto);
        ghost var before := Arrivals(k0, front);
        assert polls[i] == ToPoll(snapshots[i]);
        assert arrived == (if polls[i].Seen? then polls[i].current - KnownAfter(k0, front) else {}) &&
          KnownAfter(k0, upto) == (if polls[i].Seen? then polls[i].current else KnownAfter(k0, front)) &&
          Arrivals(k0, upto) == before + arrived by {
          NextCycle(k0, polls, i);
        }
        MonitorCallsUnfold(k0, v0, e0, polls, i, voiceApps, excludeApps, live, CurrentLevels());
        var c := MonitorStep(snapshots[i], live);
        if snapshots[i].Listed? {
          ClassifyUnion(v0, e0, before, arrived, voiceApps, excludeApps);
        } else {
          assert before + arrived == before;
        }
        calls := calls + c;
      }
      assert polls[..|snapshots|] == polls;
    }
  }
}
