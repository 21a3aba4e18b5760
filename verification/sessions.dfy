/**
 * Audio sessions and the per-session volume decision of `set_volume_levels`.
 * The audio session provider is abstracted to a list of session records; each
 * `SetMasterVolume(level / 100)` call the program issues becomes a `VolumeCall`
 * carrying the session's process id and the level as an integer percent.
 */
module Sessions {
  import opened Dial

  /** One audio session: its process name and id, and whether a process owns it. */
  datatype Session = Session(name: string, pid: int, hasProcess: bool)

  /** One volume-set call on a session, with the level in percent. */
  datatype VolumeCall = SetMasterVolume(pid: int, percent: Byte)

  /** One enumeration of the live sessions, or NoSuchProcess raised while reading a process name. */
  datatype Snapshot = Listed(sessions: seq<Session>) | ProcessVanished

  /** What `set_volume_levels` does with one session. */
  datatype Route = ToVoice | ToSystem | Untouched

  /** Voice membership is checked before exclusion: a member of both is a voice session. */
  function Precedence(inVoice: bool, inExclude: bool): (r: Route)
    ensures r == ToVoice <==> inVoice
    ensures r == Untouched <==> !inVoice && inExclude
  {
    if inVoice then ToVoice else if inExclude then Untouched else ToSystem
  }

  /**
   * How a variant decides a session's route: coremix.py looks up the process id in
   * the ids it classified, chatmix.py looks up the process name in the configured lists.
   */
  datatype Classifier =
    | ByPid(voiceIds: set<int>, excludeIds: set<int>)
    | ByName(voiceApps: set<string>, excludeApps: set<string>)

  function RouteOf(c: Classifier, s: Session): Route {
    match c
    case ByPid(voiceIds, excludeIds) => Precedence(s.pid in voiceIds, s.pid in excludeIds)
    case ByName(voiceApps, excludeApps) => Precedence(s.name in voiceApps, s.name in excludeApps)
  }

  /** The calls issued for one session. */
  function CallFor(s: Session, route: Route, levels: Levels): seq<VolumeCall> {
    if !s.hasProcess then []
    else
      match route
      case ToVoice => [SetMasterVolume(s.pid, levels.voice)]
      case ToSystem => [SetMasterVolume(s.pid, levels.system)]
      case Untouched => []
  }

  /** How many sessions a pass serves: those with a process that are not left untouched. */
  function Served(sessions: seq<Session>, c: Classifier): (n: nat)
    ensures n <= |sessions|
  {
    if sessions == [] then 0
    else
      var s := sessions[|sessions| - 1];
      Served(sessions[..|sessions| - 1], c) + if s.hasProcess && RouteOf(c, s) != Untouched then 1 else 0
  }

  /** The calls one pass of `set_volume_levels` issues, in session order. */
  function Calls(sessions: seq<Session>, c: Classifier, levels: Levels): (r: seq<VolumeCall>)
    ensures |r| == Served(sessions, c)
  {
    if sessions == [] then []
    else
      var s := sessions[|sessions| - 1];
      Calls(sessions[..|sessions| - 1], c, levels) + CallFor(s, RouteOf(c, s), levels)
  }

  /** Reference definition of a call that a pass must issue for session `s`. */
  predicate Serves(s: Session, route: Route, levels: Levels, call: VolumeCall) {
    s.hasProcess && call.pid == s.pid &&
    ((route == ToVoice && call.percent == levels.voice) || (route == ToSystem && call.percent == levels.system))
  }

  /**
   * A pass issues a call exactly when some session with a process is served by it:
   * voice sessions get the voice level, system sessions the system level, and
   * excluded sessions and sessions without a process get nothing.
   */
  lemma {:induction false} CallsExactly(sessions: seq<Session>, c: Classifier, levels: Levels, call: VolumeCall)
    ensures call in Calls(sessions, c, levels) <==>
      exists i :: 0 <= i < |sessions| && Serves(sessions[i], RouteOf(c, sessions[i]), levels, call)
    decreases |sessions|
  {
    if sessions != [] {
      var n := |sessions| - 1;
      var front := sessions[..n];
      CallsExactly(front, c, levels, call);
      if call in Calls(sessions, c, levels) {
        if call in Calls(front, c, levels) {
          var i :| 0 <= i < |front| && Serves(front[i], RouteOf(c, front[i]), levels, call);
          assert sessions[i] == front[i];
        } else {
          assert Serves(sessions[n], RouteOf(c, sessions[n]), levels, call);
        }
      } else {
        forall i | 0 <= i < |sessions| ensures !Serves(sessions[i], RouteOf(c, sessions[i]), levels, call) {
          if i < n {
            assert sessions[i] == front[i];
          }
        }
      }
    }
  }

  /** How many sessions of the pass `call` serves. */
  function ServedBy(sessions: seq<Session>, c: Classifier, levels: Levels, call: VolumeCall): nat {
    if sessions == [] then 0
    else
      var s := sessions[|sessions| - 1];
      ServedBy(sessions[..|sessions| - 1], c, levels, call) + if Serves(s, RouteOf(c, s), levels, call) then 1 else 0
  }

  /**
   * Each call occurs in a pass once per session it serves: two sessions of one process
   * routed the same way give that process's call twice.
   */
  lemma {:induction false} CallsCount(sessions: seq<Session>, c: Classifier, levels: Levels, call: VolumeCall)
    ensures multiset(Calls(sessions, c, levels))[call] == ServedBy(sessions, c, levels, call)
    decreases |sessions|
  {
    if sessions != [] {
      var front := sessions[..|sessions| - 1];
      var s := sessions[|sessions| - 1];
      CallsCount(front, c, levels, call);
      assert multiset(Calls(sessions, c, levels)) ==
        multiset(Calls(front, c, levels)) + multiset(CallFor(s, RouteOf(c, s), levels));
    }
  }

  /** A session with a process that the classifier routes to voice receives the voice level. */
  lemma VoiceSessionGetsVoiceLevel(sessions: seq<Session>, c: Classifier, levels: Levels, i: nat)
    requires i < |sessions| && sessions[i].hasProcess && RouteOf(c, sessions[i]) == ToVoice
    ensures SetMasterVolume(sessions[i].pid, levels.voice) in Calls(sessions, c, levels)
  {
    CallsExactly(sessions, c, levels, SetMasterVolume(sessions[i].pid, levels.voice));
  }

  /** No call touches a process id whose every session is excluded or has no process. */
  lemma UntouchedPidGetsNoCall(sessions: seq<Session>, c: Classifier, levels: Levels, pid: int, percent: Byte)
    requires forall i :: 0 <= i < |sessions| && sessions[i].pid == pid && sessions[i].hasProcess ==>
      RouteOf(c, sessions[i]) == Untouched
    ensures SetMasterVolume(pid, percent) !in Calls(sessions, c, levels)
  {
    CallsExactly(sessions, c, levels, SetMasterVolume(pid, percent));
  }

  /** The calls of several passes, one per level pair handed to the applier. */
  function CallsPerApply(sessions: seq<Session>, c: Classifier, applied: seq<Levels>): seq<VolumeCall>
  {
    if applied == [] then []
    else CallsPerApply(sessions, c, applied[..|applied| - 1]) + Calls(sessions, c, applied[|applied| - 1])
  }

  /** One more pass appends its calls. */
  lemma CallsPerApplyPush(sessions: seq<Session>, c: Classifier, applied: seq<Levels>, levels: Levels)
    ensures CallsPerApply(sessions, c, applied + [levels]) == CallsPerApply(sessions, c, applied) + Calls(sessions, c, levels)
  {
    assert (applied + [levels])[..|applied|] == applied;
  }
}
