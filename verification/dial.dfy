/**
 * The headset's chat-mix dial: decoding one HID report into a voice level and a
 * system level, and the reaction of the USB reader loop to each read outcome.
 * Both variants of the program (coremix.py and chatmix.py) share this logic.
 */
module Dial {

  /** One unsigned byte of a HID report. */
  newtype Byte = x: int | 0 <= x < 256

  /** The level the dial reports on the side that is not turned down. */
  const FullLevel: Byte := 100

  /** errno of a read that timed out (ETIMEDOUT): the expected steady state of a non-blocking read. */
  const ErrTimedOut: int := 110

  /** errno of a read from a device that is gone (ENODEV). */
  const ErrNoDevice: int := 19

  /** Offsets of the two levels inside a report. */
  const SystemOffset: nat := 1
  const VoiceOffset: nat := 2

  /** The pair of levels the program keeps; both fields always change together. */
  datatype Levels = Levels(voice: Byte, system: Byte)

  /** The levels before any report has been accepted. */
  const StartLevels: Levels := Levels(FullLevel, FullLevel)

  /** The headset sometimes sends garbled readings; a genuine one has one side at 100. */
  predicate Plausible(l: Levels) {
    l.voice == FullLevel || l.system == FullLevel
  }

  /** What one read of the interrupt endpoint produces. */
  datatype ReadOutcome = Report(data: seq<Byte>) | UsbError(errno: int)

  /** The decoder's verdict on a report. */
  datatype Decoded =
    | Accepted(levels: Levels)
    | Ignored   // neither level is 100: discarded as noise
    | TooShort  // fewer than three bytes: indexing byte 2 raises

  function Decode(data: seq<Byte>): (r: Decoded)
    ensures r.TooShort? <==> |data| <= VoiceOffset
    ensures r.Accepted? ==>
      r.levels.voice == data[VoiceOffset] && r.levels.system == data[SystemOffset] && Plausible(r.levels)
    ensures r.Ignored? ==>
      |data| > VoiceOffset && data[VoiceOffset] != FullLevel && data[SystemOffset] != FullLevel
  {
    if |data| <= VoiceOffset then TooShort
    else
      var l := Levels(data[VoiceOffset], data[SystemOffset]);
      if Plausible(l) then Accepted(l) else Ignored
  }

  /** Whether the reader loop goes on after a read. */
  datatype Control =
    | Continue
    | Disconnected  // errno 19: the loop breaks
    | Faulted       // an exception escapes the loop (a report too short to index)

  /** The effect of one read: the levels afterwards, whether volumes are applied, and the loop's fate. */
  datatype Step = Step(levels: Levels, apply: bool, control: Control)

  /** One iteration of the USB reader loop. */
  function ReaderStep(levels: Levels, event: ReadOutcome): (r: Step)
    ensures r.apply <==> event.Report? && Decode(event.data).Accepted?
    ensures r.apply ==> r.levels == Decode(event.data).levels
    ensures !r.apply ==> r.levels == levels
    ensures r.control == Disconnected <==> event == UsbError(ErrNoDevice)
    ensures r.control == Faulted <==> event.Report? && |event.data| <= VoiceOffset
  {
    match event
    case Report(data) =>
      (match Decode(data)
       case Accepted(l) => Step(l, true, Continue)
       case Ignored => Step(levels, false, Continue)
       case TooShort => Step(levels, false, Faulted))
    case UsbError(errno) =>
      if errno == ErrTimedOut then Step(levels, false, Continue)
      else if errno == ErrNoDevice then Step(levels, false, Disconnected)
      else Step(levels, false, Continue)  // any other USB error is logged and the loop goes on
  }

  /** Whether a read outcome ends the reader loop. */
  predicate Stops(event: ReadOutcome) {
    event == UsbError(ErrNoDevice) || (event.Report? && |event.data| <= VoiceOffset)
  }

  /**
   * The outcome of running the reader over a series of reads: final levels, the levels
   * handed to the volume applier in order, how many reads were taken, and why it ended
   * (Continue: every read was taken and the exit event ended the loop).
   */
  datatype Run = Run(levels: Levels, applied: seq<Levels>, consumed: nat, control: Control)

  function RunReader(levels: Levels, events: seq<ReadOutcome>): (r: Run)
    ensures r.consumed <= |events|
    ensures r.control.Continue? ==> r.consumed == |events|
    ensures !r.control.Continue? ==> 0 < r.consumed
    decreases |events|
  {
    if events == [] then Run(levels, [], 0, Continue)
    else
      var s := ReaderStep(levels, events[0]);
      if !s.control.Continue? then Run(s.levels, [], 1, s.control)
      else
        var rest := RunReader(s.levels, events[1..]);
        Run(rest.levels, (if s.apply then [s.levels] else []) + rest.applied, 1 + rest.consumed, rest.control)
  }

  /** A run preceded by `n` reads that applied `applied` and did not stop the loop. */
  function After(applied: seq<Levels>, n: nat, r: Run): Run {
    Run(r.levels, applied + r.applied, n + r.consumed, r.control)
  }

  /** Reference definition: the levels of the accepted reports among `events`, in order. */
  function AcceptedLevels(events: seq<ReadOutcome>): seq<Levels> {
    if events == [] then []
    else
      var e := events[|events| - 1];
      AcceptedLevels(events[..|events| - 1])
        + (if e.Report? && Decode(e.data).Accepted? then [Decode(e.data).levels] else [])
  }

  lemma {:induction false} AcceptedLevelsAppend(a: seq<ReadOutcome>, b: seq<ReadOutcome>)
    ensures AcceptedLevels(a + b) == AcceptedLevels(a) + AcceptedLevels(b)
    decreases |b|
  {
    if b == [] {
      assert a + b == a;
    } else {
      var b' := b[..|b| - 1];
      assert (a + b)[..|a + b| - 1] == a + b';
      assert (a + b)[|a + b| - 1] == b[|b| - 1];
      AcceptedLevelsAppend(a, b');
    }
  }

  /** The reader applies exactly the accepted reports it reads, in the order they arrive. */
  lemma {:induction false} RunAppliesAcceptedReports(levels: Levels, events: seq<ReadOutcome>)
    ensures RunReader(levels, events).applied == AcceptedLevels(events[..RunReader(levels, events).consumed])
    decreases |events|
  {
    if events != [] {
      var s := ReaderStep(levels, events[0]);
      var e := events[0];
      assert AcceptedLevels([e]) == AcceptedLevels([]) + (if e.Report? && Decode(e.data).Accepted? then [Decode(e.data).levels] else []);
      if !s.control.Continue? {
        assert events[..1] == [e];
      } else {
        var rest := RunReader(s.levels, events[1..]);
        RunAppliesAcceptedReports(s.levels, events[1..]);
        assert events[..1 + rest.consumed] == [e] + events[1..][..rest.consumed];
        AcceptedLevelsAppend([e], events[1..][..rest.consumed]);
      }
    }
  }

  /** Every level pair handed to the volume applier is a plausible reading. */
  lemma {:induction false} RunAppliesOnlyPlausible(levels: Levels, events: seq<ReadOutcome>)
    ensures forall i :: 0 <= i < |RunReader(levels, events).applied| ==> Plausible(RunReader(levels, events).applied[i])
    decreases |events|
  {
    if events != [] {
      var s := ReaderStep(levels, events[0]);
      if s.control.Continue? {
        RunAppliesOnlyPlausible(s.levels, events[1..]);
      }
    }
  }

  /** The kept levels are always those of the last accepted report, or the initial ones if none was. */
  lemma {:induction false} RunKeepsLastAccepted(levels: Levels, events: seq<ReadOutcome>)
    ensures var r := RunReader(levels, events);
      r.levels == if r.applied == [] then levels else r.applied[|r.applied| - 1]
    decreases |events|
  {
    if events != [] {
      var s := ReaderStep(levels, events[0]);
      if s.control.Continue? {
        RunKeepsLastAccepted(s.levels, events[1..]);
      }
    }
  }

  /** The loop stops at the first disconnect or short report and at nothing else. */
  lemma {:induction false} RunStopsAtFirstStop(levels: Levels, events: seq<ReadOutcome>)
    ensures var r := RunReader(levels, events);
      (forall i :: 0 <= i < r.consumed - 1 ==> !Stops(events[i])) &&
      (r.control.Continue? <==> forall i :: 0 <= i < |events| ==> !Stops(events[i])) &&
      (!r.control.Continue? ==> Stops(events[r.consumed - 1]))
    decreases |events|
  {
    if events != [] {
      var s := ReaderStep(levels, events[0]);
      if s.control.Continue? {
        RunStopsAtFirstStop(s.levels, events[1..]);
        forall i | 1 <= i < |events| ensures events[i] == events[1..][i - 1] { }
      }
    }
  }

  /** The first read of a non-empty run, unfolded. */
  lemma RunReaderUnfold(levels: Levels, events: seq<ReadOutcome>)
    requires events != []
    ensures var s := ReaderStep(levels, events[0]);
      RunReader(levels, events) ==
        if s.control.Continue? then After(if s.apply then [s.levels] else [], 1, RunReader(s.levels, events[1..]))
        else Run(levels, [], 1, s.control)
  {
  }

  /**
   * Reads `i` onwards after `i` reads that applied `applied`: a read that does not stop
   * the loop moves its level pair, if applied, to the reads already taken.
   */
  lemma ReaderContinues(events: seq<ReadOutcome>, i: nat, applied: seq<Levels>, levels: Levels)
    requires i < |events| && ReaderStep(levels, events[i]).control.Continue?
    ensures var s := ReaderStep(levels, events[i]);
      After(applied, i, RunReader(levels, events[i..])) ==
      After(applied + (if s.apply then [s.levels] else []), i + 1, RunReader(s.levels, events[i + 1..]))
  {
    var s := ReaderStep(levels, events[i]);
    assert events[i..][0] == events[i] && events[i..][1..] == events[i + 1..];
    RunReaderUnfold(levels, events[i..]);
    var rest := RunReader(s.levels, events[i + 1..]);
    var done := if s.apply then [s.levels] else [];
    assert applied + (done + rest.applied) == (applied + done) + rest.applied;
  }

  /** A read that stops the loop ends the run there, with the levels it found. */
  lemma ReaderStops(events: seq<ReadOutcome>, i: nat, applied: seq<Levels>, levels: Levels)
    requires i < |events| && !ReaderStep(levels, events[i]).control.Continue?
    ensures After(applied, i, RunReader(levels, events[i..])) ==
      Run(levels, applied, i + 1, ReaderStep(levels, events[i]).control)
  {
    assert events[i..][0] == events[i];
    RunReaderUnfold(levels, events[i..]);
    assert applied + [] == applied;
  }

  /** Once every read is taken, the run ends with the exit event. */
  lemma ReaderExhausted(events: seq<ReadOutcome>, applied: seq<Levels>, levels: Levels)
    ensures After(applied, |events|, RunReader(levels, events[|events|..])) == Run(levels, applied, |events|, Continue)
  {
    assert events[|events|..] == [];
    assert applied + [] == applied;
  }
}
