/**
 * The output sequencer: the GLUT idle callback `OnIdle` and the keyboard
 * callback `OnKeyPress`, which drive the per-frame loop through the globals
 * `fps`, `framenum`, `t_start` and `t_end`.
 *
 * Each idle call takes the next input frame. An empty frame ends the run
 * ("Finished writing", exit code 0). Otherwise the frame counter and the
 * frames-per-second counter advance, and when at least five seconds have
 * passed since the last report, `fps / 5` is printed and the counter and the
 * start time are reset. ESC also ends the run with exit code 0.
 *
 * The clock is a parameter: `OnIdle` reads `time(NULL)` twice, once into
 * `t_end` and, when it reports, once more into `t_start`; `now` and `later`
 * are those two readings. `exit` ends the process, so in the model a call
 * after termination changes nothing.
 */
module Sequencer {

  /** The two states of the run; `exit` takes the process from Running to Terminated. */
  datatype Phase = Running | Terminated(exitCode: int)

  /** What one callback prints. */
  datatype Report =
    | FrameLine(frame: nat)          // "Frame: n"
    | FpsLine(frame: nat, fps: int)  // "Frame: n fps: f"
    | Finished                       // "Finished writing", then exit(0)
    | Silent                         // nothing

  /** The globals the callbacks update. */
  datatype Counters = Counters(phase: Phase, fps: int, framenum: nat, tStart: int, tEnd: int)

  datatype Step = Step(next: Counters, report: Report)

  /** An unsigned char as the keyboard callback receives it. */
  type Key = k: int | 0 <= k < 256

  const EscKey: Key := 27

  /** Seconds between two throughput reports. */
  const ReportPeriod: int := 5

  /** C's `/` on `int`, which truncates toward zero: the remainder `a - q * b` has the
      numerator's sign and is smaller than `b` in magnitude. */
  function CDiv(a: int, b: int): (q: int)
    requires b > 0
    ensures a >= 0 ==> 0 <= a - q * b < b
    ensures a < 0 ==> -b < a - q * b <= 0
  {
    if a >= 0 then a / b else -((-a) / b)
  }

  /** Truncation, not Dafny's Euclidean division: -7 / 5 is -1 in C, where `(-7) / 5` is -2. */
  lemma CDivTruncatesNegative()
    ensures CDiv(-7, 5) == -1 && -7 / 5 == -2
  {
  }

  /** The globals when `main` enters the GLUT loop: `framenum` and `t_end` statically 0,
      `t_start = time(NULL)` and `fps = 0`. */
  function Start(now: int): (c: Counters)
    ensures c.phase == Running && c.fps == 0 && c.framenum == 0 && c.tStart == now
  {
    Counters(Running, 0, 0, now, 0)
  }

  /** `OnIdle` with the next frame empty or not and the two clock readings. */
  function Idle(c: Counters, frameEmpty: bool, now: int, later: int): (s: Step)
    // after exit nothing runs
    ensures c.phase.Terminated? ==> s == Step(c, Silent)
    // end of the video: terminate with 0 before any counter changes
    ensures c.phase.Running? && frameEmpty ==> s == Step(c.(phase := Terminated(0)), Finished)
    // a frame: both counters advance by one and the pre-increment frame number is printed
    ensures c.phase.Running? && !frameEmpty ==>
      s.next.phase == Running && s.next.framenum == c.framenum + 1 && s.next.tEnd == now &&
      (s.report.FrameLine? || s.report.FpsLine?) && s.report.frame == c.framenum
    // five seconds or more since the last report: report fps / 5, then reset
    ensures c.phase.Running? && !frameEmpty && now - c.tStart >= ReportPeriod ==>
      s.next.fps == 0 && s.next.tStart == later && s.report.FpsLine? && s.report.fps == CDiv(c.fps + 1, 5)
    // otherwise keep counting from the same start time
    ensures c.phase.Running? && !frameEmpty && now - c.tStart < ReportPeriod ==>
      s.next.fps == c.fps + 1 && s.next.tStart == c.tStart && s.report.FrameLine?
  {
    if c.phase.Terminated? then Step(c, Silent)
    else if frameEmpty then Step(c.(phase := Terminated(0)), Finished)
    else
      var fps := c.fps + 1;
      if now - c.tStart >= ReportPeriod then
        Step(Counters(Running, 0, c.framenum + 1, later, now), FpsLine(c.framenum, CDiv(fps, 5)))
      else
        Step(Counters(Running, fps, c.framenum + 1, c.tStart, now), FrameLine(c.framenum))
  }

  /** `OnKeyPress`: ESC ends the run with 0; any other key only requests a redisplay. */
  function KeyPress(c: Counters, key: Key): (s: Step)
    ensures c.phase.Running? && key == EscKey ==> s == Step(c.(phase := Terminated(0)), Finished)
    ensures c.phase.Terminated? || key != EscKey ==> s.next == c && s.report == Silent
  {
    if c.phase.Running? && key == EscKey then Step(c.(phase := Terminated(0)), Finished)
    else Step(c, Silent)
  }

  /** What the event loop delivers. */
  datatype Event = IdleCall(frameEmpty: bool, now: int, later: int) | KeyCall(key: Key)

  function Apply(c: Counters, e: Event): Step
  {
    match e
    case IdleCall(empty, now, later) => Idle(c, empty, now, later)
    case KeyCall(key) => KeyPress(c, key)
  }

  datatype Trace = Trace(final: Counters, reports: seq<Report>)

  /** The callbacks run one after the other on a sequence of events. */
  function Run(c: Counters, events: seq<Event>): (t: Trace)
    ensures |t.reports| == |events|
    decreases |events|
  {
    if events == [] then Trace(c, [])
    else
      var s := Apply(c, events[0]);
      var rest := Run(s.next, events[1..]);
      Trace(rest.final, [s.report] + rest.reports)
  }

  /** The counters agree with each other: `fps` counts frames since the last report, each of
      which got a frame number, and the only exit status is 0. */
  predicate Valid(c: Counters)
  {
    0 <= c.fps <= c.framenum && (c.phase.Terminated? ==> c.phase.exitCode == 0)
  }

  lemma StartIsValid(now: int)
    ensures Valid(Start(now))
  {
  }

  /** Every callback keeps the counters consistent. */
  lemma {:induction false} RunPreservesValid(c: Counters, events: seq<Event>)
    requires Valid(c)
    ensures Valid(Run(c, events).final)
    decreases |events|
  {
    if events != [] {
      var s := Apply(c, events[0]);
      assert Valid(s.next);
      RunPreservesValid(s.next, events[1..]);
    }
  }

  /** Termination is one-way: once terminated, the counters never change again and nothing
      more is printed. */
  lemma {:induction false} TerminationIsFinal(c: Counters, events: seq<Event>)
    requires c.phase.Terminated?
    ensures Run(c, events).final == c
    ensures forall i :: 0 <= i < |events| ==> Run(c, events).reports[i] == Silent
    decreases |events|
  {
    if events != [] {
      TerminationIsFinal(c, events[1..]);
      var t := Run(c, events);
      forall i | 0 <= i < |events| ensures t.reports[i] == Silent {
        if i > 0 { assert t.reports[i] == Run(c, events[1..]).reports[i - 1]; }
      }
    }
  }

  /** Running two sequences of events is running their concatenation. */
  lemma {:induction false} RunAppend(c: Counters, a: seq<Event>, b: seq<Event>)
    ensures Run(c, a + b) == Trace(Run(Run(c, a).final, b).final, Run(c, a).reports + Run(Run(c, a).final, b).reports)
    decreases |a|
  {
    if a == [] {
      assert a + b == b;
    } else {
      assert (a + b)[0] == a[0];
      assert (a + b)[1..] == a[1..] + b;
      var s := Apply(c, a[0]);
      RunAppend(s.next, a[1..], b);
    }
  }

  /** Every event is an idle call that receives a frame. */
  predicate AllFrames(events: seq<Event>)
  {
    forall i :: 0 <= i < |events| ==> events[i].IdleCall? && !events[i].frameEmpty
  }

  /** K frames in a row advance the frame counter by exactly K and print the frame numbers
      in order, each the pre-increment value. */
  lemma {:induction false} FramesAdvance(c: Counters, frames: seq<Event>)
    requires c.phase.Running? && AllFrames(frames)
    ensures Run(c, frames).final.phase == Running
    ensures Run(c, frames).final.framenum == c.framenum + |frames|
    ensures forall i :: 0 <= i < |frames| ==>
      var r := Run(c, frames).reports[i];
      (r.FrameLine? || r.FpsLine?) && r.frame == c.framenum + i
    decreases |frames|
  {
    if frames != [] {
      var s := Apply(c, frames[0]);
      assert AllFrames(frames[1..]) by {
        forall i | 0 <= i < |frames[1..]| ensures frames[1..][i].IdleCall? && !frames[1..][i].frameEmpty {
          assert frames[1..][i] == frames[i + 1];
        }
      }
      FramesAdvance(s.next, frames[1..]);
      var t := Run(c, frames);
      forall i | 0 <= i < |frames|
        ensures (t.reports[i].FrameLine? || t.reports[i].FpsLine?) && t.reports[i].frame == c.framenum + i
      {
        if i > 0 { assert t.reports[i] == Run(s.next, frames[1..]).reports[i - 1]; }
      }
    }
  }

  /** A video of K frames followed by its end marker: exactly K frames are counted, the run
      terminates with 0 and prints "Finished writing", and nothing happens afterwards. */
  lemma EndOfStream(c: Counters, frames: seq<Event>, now: int, later: int, after: seq<Event>)
    requires c.phase.Running? && AllFrames(frames)
    ensures var t := Run(c, frames + [IdleCall(true, now, later)] + after);
      t.final.phase == Terminated(0) &&
      t.final.framenum == c.framenum + |frames| &&
      t.reports[|frames|] == Finished &&
      (forall i :: 0 <= i < |frames| ==> (t.reports[i].FrameLine? || t.reports[i].FpsLine?)) &&
      (forall i :: |frames| < i < |t.reports| ==> t.reports[i] == Silent)
  {
    var endMark := [IdleCall(true, now, later)];
    FramesAdvance(c, frames);
    var p := Run(c, frames);
    RunAppend(c, frames, endMark + after);
    assert frames + endMark + after == frames + (endMark + after);
    var q := Run(p.final, endMark + after);
    assert (endMark + after)[0] == IdleCall(true, now, later);
    assert (endMark + after)[1..] == after;
    var done := p.final.(phase := Terminated(0));
    TerminationIsFinal(done, after);
    assert q == Trace(done, [Finished] + Run(done, after).reports);
    var t := Run(c, frames + endMark + after);
    assert t.reports == p.reports + q.reports;
    forall i | |frames| < i < |t.reports| ensures t.reports[i] == Silent {
      assert t.reports[i] == Run(done, after).reports[i - |frames| - 1];
    }
  }

  /** Every event is a frame that arrives less than five seconds after `t0`. */
  predicate QuietFrames(events: seq<Event>, t0: int)
  {
    AllFrames(events) && forall i :: 0 <= i < |events| ==> events[i].now - t0 < ReportPeriod
  }

  /** Frames arriving within five seconds of the last report only add to `fps`. */
  lemma {:induction false} QuietFramesCount(c: Counters, frames: seq<Event>)
    requires c.phase.Running? && QuietFrames(frames, c.tStart)
    ensures Run(c, frames).final.phase == Running
    ensures Run(c, frames).final.fps == c.fps + |frames|
    ensures Run(c, frames).final.tStart == c.tStart
    ensures Run(c, frames).final.framenum == c.framenum + |frames|
    decreases |frames|
  {
    if frames != [] {
      var s := Apply(c, frames[0]);
      assert QuietFrames(frames[1..], c.tStart) by {
        forall i | 0 <= i < |frames[1..]|
          ensures frames[1..][i].IdleCall? && !frames[1..][i].frameEmpty && frames[1..][i].now - c.tStart < ReportPeriod
        {
          assert frames[1..][i] == frames[i + 1];
        }
      }
      QuietFramesCount(s.next, frames[1..]);
    }
  }

  /** The throughput report: after K - 1 frames within five seconds of the last report, the
      frame that arrives five or more seconds after it prints the running count divided by
      five (C division), then starts a new window at the second clock reading. */
  lemma FpsReport(c: Counters, quiet: seq<Event>, now: int, later: int)
    requires c.phase.Running? && QuietFrames(quiet, c.tStart) && now - c.tStart >= ReportPeriod
    ensures var t := Run(c, quiet + [IdleCall(false, now, later)]);
      t.reports[|quiet|] == FpsLine(c.framenum + |quiet|, CDiv(c.fps + |quiet| + 1, 5)) &&
      t.final.fps == 0 && t.final.tStart == later && t.final.tEnd == now &&
      t.final.framenum == c.framenum + |quiet| + 1
  {
    QuietFramesCount(c, quiet);
    RunAppend(c, quiet, [IdleCall(false, now, later)]);
  }

  /** The report is an integer average: a first frame that arrives five seconds or more
      after the start prints frame 0 with fps 1 / 5 == 0. */
  lemma SlowFirstFrameReportsZero(t0: int, now: int, later: int)
    requires now - t0 >= ReportPeriod
    ensures Idle(Start(t0), false, now, later).report == FpsLine(0, 0)
  {
  }

  /** `OnIdle` and `OnKeyPress` over the globals they update. */
  class OutputSequencer {
    var phase: Phase
    var fps: int
    var framenum: nat
    var tStart: int
    var tEnd: int

    function Snapshot(): Counters
      reads this
    {
      Counters(phase, fps, framenum, tStart, tEnd)
    }

    /** The globals as `main` leaves them before entering the loop. */
    constructor (now: int)
      ensures Snapshot() == Start(now)
    {
      phase, fps, framenum, tStart, tEnd := Running, 0, 0, now, 0;
    }

    method OnIdle(frameEmpty: bool, now: int, later: int) returns (report: Report)
      modifies this
      ensures Step(Snapshot(), report) == Idle(old(Snapshot()), frameEmpty, now, later)
    {
      if phase.Terminated? {
        return Silent;
      }
      if frameEmpty {
        phase := Terminated(0);
        return Finished;
      }
      fps := fps + 1;
      tEnd := now;
      if tEnd - tStart >= ReportPeriod {
        report := FpsLine(framenum, CDiv(fps, 5));
        framenum := framenum + 1;
        tStart := later;
        fps := 0;
      } else {
        report := FrameLine(framenum);
        framenum := framenum + 1;
      }
    }

    method OnKeyPress(key: Key) returns (report: Report)
      modifies this
      ensures Step(Snapshot(), report) == KeyPress(old(Snapshot()), key)
    {
      report := Silent;
      if phase.Running? && key == EscKey {
        phase := Terminated(0);
        report := Finished;
      }
    }
  }
}
