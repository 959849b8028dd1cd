/** Properties of whole runs of `log_state` and `log_event` calls: the frame
    budget, the throttle, the file-mode discipline and the ordering of frames. */
module Traces {
  import opened Options
  import opened Snapshot
  import opened Logger

  /** The call is to `log_state` and the caller's frame is available. */
  predicate Sampling(c: Call) {
    c.StateCall? && c.caller.Some?
  }

  /** The two writes go to the same log file. */
  predicate SameFile(a: Write, b: Write) {
    a.StateWrite? == b.StateWrite?
  }

  /** The "initialized" flag of the file `w` goes to. */
  function Initialized(s: LoggerState, w: Write): bool {
    if w.StateWrite? then s.stateLogInitialized else s.eventLogInitialized
  }

  /** Splitting off the last call of a run. */
  lemma RunLast(s: LoggerState, calls: seq<Call>)
    requires |calls| > 0
    ensures Run(s, calls) ==
      (Step(Run(s, calls[..|calls| - 1]).0, calls[|calls| - 1]).0,
       Run(s, calls[..|calls| - 1]).1 + Step(Run(s, calls[..|calls| - 1]).0, calls[|calls| - 1]).1)
  {
  }

  /** The frame counter never passes the budget plus one, because the budget
      is checked before the increment (logger.py:43-47). */
  lemma {:induction false} FrameCountBound(s: LoggerState, calls: seq<Call>)
    requires s.frameCount <= FrameBudget + 1
    ensures Run(s, calls).0.frameCount <= FrameBudget + 1
  {
    if |calls| > 0 {
      FrameCountBound(s, calls[..|calls| - 1]);
    }
  }

  /** Once the counter is past the budget, `log_state` is inert: the counter and
      the state file's flag stay put and only event writes appear (logger.py:43-44). */
  lemma {:induction false} ExhaustedBudget(s: LoggerState, calls: seq<Call>)
    requires s.frameCount > FrameBudget
    ensures Run(s, calls).0.frameCount == s.frameCount
    ensures Run(s, calls).0.stateLogInitialized == s.stateLogInitialized
    ensures forall i :: 0 <= i < |Run(s, calls).1| ==> Run(s, calls).1[i].EventWrite?
  {
    if |calls| > 0 {
      ExhaustedBudget(s, calls[..|calls| - 1]);
    }
  }

  /** Every frame stamped during a run lies between the counter before and the
      counter after it, and frames never decrease across the two files
      (logger.py:47, 132, 154). */
  lemma {:induction false} FramesNonDecreasing(s: LoggerState, calls: seq<Call>)
    ensures s.frameCount <= Run(s, calls).0.frameCount
    ensures forall i :: 0 <= i < |Run(s, calls).1| ==>
      s.frameCount <= Run(s, calls).1[i].Frame() <= Run(s, calls).0.frameCount
    ensures forall i, j :: 0 <= i < j < |Run(s, calls).1| ==>
      Run(s, calls).1[i].Frame() <= Run(s, calls).1[j].Frame()
  {
    if |calls| > 0 {
      var p := calls[..|calls| - 1];
      FramesNonDecreasing(s, p);
      RunLast(s, calls);
    }
  }

  /** A file's flag is set exactly when it was set before the run or the run
      wrote to that file (logger.py:142, 164). */
  lemma {:induction false} InitializedFlags(s: LoggerState, calls: seq<Call>)
    ensures Run(s, calls).0.stateLogInitialized <==>
      s.stateLogInitialized || exists i :: 0 <= i < |Run(s, calls).1| && Run(s, calls).1[i].StateWrite?
    ensures Run(s, calls).0.eventLogInitialized <==>
      s.eventLogInitialized || exists i :: 0 <= i < |Run(s, calls).1| && Run(s, calls).1[i].EventWrite?
  {
    if |calls| > 0 {
      var p := calls[..|calls| - 1];
      InitializedFlags(s, p);
      RunLast(s, calls);
      var (t, ws) := Run(s, p);
      var (u, w) := Step(t, calls[|calls| - 1]);
      var all := Run(s, calls).1;
      assert all == ws + w && Run(s, calls).0 == u;
      assert forall i :: 0 <= i < |ws| ==> all[i] == ws[i];
      assert |w| <= 1;
      assert u.stateLogInitialized == (t.stateLogInitialized || (|w| == 1 && w[0].StateWrite?));
      assert u.eventLogInitialized == (t.eventLogInitialized || (|w| == 1 && w[0].EventWrite?));
      if |w| == 1 {
        assert all[|ws|] == w[0];
      }
    }
  }

  /** Each file's first write truncates and every later write to it appends,
      independently of the other file (logger.py:138-142, 160-164). */
  lemma {:induction false} WriteModes(s: LoggerState, calls: seq<Call>)
    ensures forall i :: 0 <= i < |Run(s, calls).1| ==>
      (Run(s, calls).1[i].mode == Truncate <==>
        !Initialized(s, Run(s, calls).1[i]) &&
        forall j :: 0 <= j < i ==> !SameFile(Run(s, calls).1[j], Run(s, calls).1[i]))
  {
    if |calls| > 0 {
      var p := calls[..|calls| - 1];
      WriteModes(s, p);
      InitializedFlags(s, p);
      RunLast(s, calls);
      var (t, ws) := Run(s, p);
      var w := Step(t, calls[|calls| - 1]).1;
      var all := Run(s, calls).1;
      assert all == ws + w;
      assert forall i :: 0 <= i < |ws| ==> all[i] == ws[i];
      if |w| > 0 {
        var x := w[0];
        assert |w| == 1 && all[|ws|] == x;
        assert x.mode == Truncate <==> !Initialized(t, x);
        assert Initialized(t, x) <==>
          Initialized(s, x) || exists j :: 0 <= j < |ws| && SameFile(ws[j], x);
      }
    }
  }

  /** The number of `log_state` calls in a run. */
  function StateCalls(calls: seq<Call>): nat {
    if |calls| == 0 then 0
    else StateCalls(calls[..|calls| - 1]) + (if calls[|calls| - 1].StateCall? then 1 else 0)
  }

  /** The writes that go to the state file, in order. */
  function StateWrites(ws: seq<Write>): (r: seq<Write>)
    ensures |r| <= |ws|
    ensures forall i :: 0 <= i < |r| ==> r[i].StateWrite? && r[i] in ws
  {
    if |ws| == 0 then []
    else StateWrites(ws[..|ws| - 1]) + (if ws[|ws| - 1].StateWrite? then [ws[|ws| - 1]] else [])
  }

  /** From module load, a run whose `log_state` calls all see the caller's frame,
      interleaved with any `log_event` calls, advances the counter to
      min(n, 961) for n state calls and writes floor(min(n, 960) / 60) state
      records, stamped 60, 120, ... in order (logger.py:43-49, 132). */
  lemma {:induction false} SamplingFromStart(calls: seq<Call>)
    requires forall i :: 0 <= i < |calls| ==> calls[i].EventCall? || Sampling(calls[i])
    ensures Run(Start, calls).0.frameCount == Min(StateCalls(calls), FrameBudget + 1)
    ensures |StateWrites(Run(Start, calls).1)| == Min(StateCalls(calls), FrameBudget) / FPS
    ensures forall i :: 0 <= i < |StateWrites(Run(Start, calls).1)| ==>
      StateWrites(Run(Start, calls).1)[i].Frame() == FPS * (i + 1)
  {
    if |calls| > 0 {
      var n := |calls|;
      var p := calls[..n - 1];
      SamplingFromStart(p);
      RunLast(Start, calls);
      var ws := Run(Start, p).1;
      var w := Step(Run(Start, p).0, calls[n - 1]).1;
      if |w| == 1 {
        assert (ws + w)[..|ws|] == ws;
      } else {
        assert ws + w == ws;
      }
    }
  }
}
