/**
 * The server-sent-event loop of job_progress_sse in backend/main.py. Wall-clock
 * time is a poll counter: the loop sleeps 0.2 s and adds 0.2 to `waited` until
 * it reaches 150, and that floating-point sum reaches 150 on the 750th addition.
 * A job's event log only grows, so each poll is described by how much of the
 * log it sees.
 */
module Stream {
  import opened Wrappers
  import opened Jobs

  const PollBudget := 750

  /** The error the stream ends with when it forwarded no terminal event. */
  const TimeoutEvent := ErrorEvent("Request timed out")

  /**
   * What one pass of the loop finds: whether the job is still registered when
   * its events are read, how many events of the log it sees then, and whether
   * the status check after forwarding finds the job registered and no longer
   * running.
   */
  datatype Poll = Poll(present: bool, seen: nat, stopped: bool)

  /** The part of the log a poll sees, `events_list`. */
  function Visible(log: seq<Event>, p: Poll): (r: seq<Event>)
    ensures r <= log
  {
    if p.seen <= |log| then log[..p.seen] else log
  }

  /** `range(last_sent, len(events_list))`: empty when the cursor is already past the end. */
  function Pending(events: seq<Event>, last: nat): (r: seq<Event>)
    ensures last <= |events| ==> r == events[last..]
  {
    if last <= |events| then events[last..] else []
  }

  predicate NoTerminal(s: seq<Event>) {
    forall i :: 0 <= i < |s| ==> !Terminal(s[i])
  }

  /** The events up to and including the first terminal one (all of them when there is none). */
  function UpToTerminal(s: seq<Event>): (r: seq<Event>)
    ensures r <= s
    ensures NoTerminal(s) ==> r == s
    ensures !NoTerminal(s) ==> |r| > 0 && Terminal(r[|r| - 1]) && NoTerminal(r[..|r| - 1])
    decreases |s|
  {
    if |s| == 0 then []
    else if Terminal(s[0]) then [s[0]]
    else
      var rest := UpToTerminal(s[1..]);
      assert forall i :: 1 <= i < |s| ==> s[i] == s[1..][i - 1];
      assert !NoTerminal(s) ==> !NoTerminal(s[1..]) by {
        if !NoTerminal(s) {
          var i :| 0 <= i < |s| && Terminal(s[i]);
          assert s[1..][i - 1] == s[i];
        }
      }
      var r := [s[0]] + rest;
      assert !NoTerminal(s) ==> r[..|r| - 1] == [s[0]] + rest[..|rest| - 1];
      r
  }

  /**
   * The lines the stream sends from poll `k` on with the cursor at `last`: the
   * unsent events in order, stopping right after a terminal one; a job no longer
   * registered, a status that left "running" or an exhausted budget ends it with
   * the timeout error.
   */
  function StreamFrom(log: seq<Event>, poll: nat -> Poll, k: nat, last: nat): seq<Event>
    decreases PollBudget - k
  {
    if k >= PollBudget then [TimeoutEvent]
    else
      var p := poll(k);
      if !p.present then [TimeoutEvent]
      else
        var events := Visible(log, p);
        var fwd := Pending(events, last);
        if !NoTerminal(fwd) then UpToTerminal(fwd)
        else if p.stopped then fwd + [TimeoutEvent]
        else fwd + StreamFrom(log, poll, k + 1, |events|)
  }

  /** The whole stream of a subscriber. */
  function StreamOf(log: seq<Event>, poll: nat -> Poll): seq<Event> {
    StreamFrom(log, poll, 0, 0)
  }

  /** The inner `for` loop: forward the unsent events, stopping after a terminal one. */
  method Forward(events: seq<Event>, last: nat) returns (sent: seq<Event>, finished: bool)
    ensures finished <==> !NoTerminal(Pending(events, last))
    ensures sent == if finished then UpToTerminal(Pending(events, last)) else Pending(events, last)
  {
    sent := [];
    if last > |events| {
      return [], false;
    }
    ghost var fwd := events[last..];
    var i := last;
    while i < |events|
      invariant last <= i <= |events|
      invariant sent == events[last..i] && NoTerminal(sent)
      invariant sent == fwd[..i - last]
      decreases |events| - i
    {
      var ev := events[i];
      sent := sent + [ev];
      assert sent == fwd[..i + 1 - last];
      if Terminal(ev) {
        UpToTerminalAt(fwd, i - last);
        return sent, true;
      }
      i := i + 1;
    }
    assert sent == fwd;
    finished := false;
  }

  /** The first terminal event of `s` is at index `j`. */
  lemma {:induction false} UpToTerminalAt(s: seq<Event>, j: int)
    requires 0 <= j < |s| && Terminal(s[j]) && NoTerminal(s[..j])
    ensures !NoTerminal(s) && UpToTerminal(s) == s[..j + 1]
    decreases j
  {
    if j > 0 {
      assert !Terminal(s[0]) by {
        assert s[..j][0] == s[0];
      }
      assert NoTerminal(s[1..][..j - 1]) by {
        var u := s[1..][..j - 1];
        forall i | 0 <= i < j - 1 ensures !Terminal(u[i]) {
          assert u[i] == s[..j][i + 1];
        }
      }
      UpToTerminalAt(s[1..], j - 1);
      assert [s[0]] + s[1..][..j] == s[..j + 1];
    }
  }

  /** event_stream: poll, forward, stop after a terminal event, or time out. */
  method EventStream(log: seq<Event>, poll: nat -> Poll) returns (out: seq<Event>)
    ensures out == StreamOf(log, poll)
  {
    var lastSent: nat := 0;
    var waited: nat := 0;
    out := [];
    while waited < PollBudget
      invariant 0 <= waited <= PollBudget
      invariant out + StreamFrom(log, poll, waited, lastSent) == StreamOf(log, poll)
      decreases PollBudget - waited
    {
      var p := poll(waited);
      waited := waited + 1;
      if !p.present {
        break;
      }
      var eventsList := Visible(log, p);
      var sent, finished := Forward(eventsList, lastSent);
      out := out + sent;
      if finished {
        return;
      }
      lastSent := |eventsList|;
      if p.stopped {
        break;
      }
    }
    out := out + [TimeoutEvent];
  }

  // ---------------------------------------------------------------------------
  // What a subscriber receives
  // ---------------------------------------------------------------------------

  /** Each poll sees at least as much of the log as the one before. */
  ghost predicate Growing(poll: nat -> Poll) {
    forall k: nat :: poll(k).seen <= poll(k + 1).seen
  }

  /**
   * The stream's shape against the part of the log from the cursor on: a
   * prefix of it, so in index order and nothing twice, that either ends with
   * its first terminal event or has none and is followed by the timeout error.
   */
  predicate Shaped(out: seq<Event>, tail: seq<Event>) {
    && |out| > 0
    && NoTerminal(out[..|out| - 1])
    && ((out <= tail && Terminal(out[|out| - 1])) || (out[..|out| - 1] <= tail && out[|out| - 1] == TimeoutEvent))
  }

  /** Events without a terminal one in front of a shaped stream keep it shaped. */
  lemma ShapedCons(fwd: seq<Event>, out: seq<Event>, tail: seq<Event>)
    requires NoTerminal(fwd) && Shaped(out, tail)
    ensures Shaped(fwd + out, fwd + tail)
  {
    var r := fwd + out;
    assert r[..|r| - 1] == fwd + out[..|out| - 1];
    assert NoTerminal(r[..|r| - 1]) by {
      forall i | 0 <= i < |r| - 1 ensures !Terminal(r[i]) {
        if i >= |fwd| {
          assert r[i] == out[..|out| - 1][i - |fwd|];
        }
      }
    }
    assert r[|r| - 1] == out[|out| - 1];
  }

  /** What the stream sends from poll `k` on, against the log from the cursor on. */
  lemma {:induction false} StreamFromShaped(log: seq<Event>, poll: nat -> Poll, k: nat, last: nat)
    requires Growing(poll)
    requires last <= |log|
    requires k < PollBudget && poll(k).present ==> last <= |Visible(log, poll(k))|
    ensures Shaped(StreamFrom(log, poll, k, last), log[last..])
    decreases PollBudget - k
  {
    if k < PollBudget && poll(k).present {
      var p := poll(k);
      var events := Visible(log, p);
      var v := |events|;
      var fwd := Pending(events, last);
      assert log[last..] == fwd + log[v..];
      if !NoTerminal(fwd) {
      } else if p.stopped {
        var out := fwd + [TimeoutEvent];
        assert out[..|out| - 1] == fwd;
      } else {
        assert poll(k).seen <= poll(k + 1).seen;
        StreamFromShaped(log, poll, k + 1, v);
        ShapedCons(fwd, StreamFrom(log, poll, k + 1, v), log[v..]);
      }
    }
  }

  /**
   * A subscriber receives the log's events from index 0 in order, none twice,
   * and the stream stops right after the first terminal event; when none was
   * forwarded it ends with the "Request timed out" error instead.
   */
  lemma StreamPrefixOfLog(log: seq<Event>, poll: nat -> Poll)
    requires Growing(poll)
    ensures var out := StreamOf(log, poll);
      && |out| > 0 && NoTerminal(out[..|out| - 1])
      && ((out <= log && Terminal(out[|out| - 1])) || (out[..|out| - 1] <= log && out[|out| - 1] == TimeoutEvent))
  {
    StreamFromShaped(log, poll, 0, 0);
    assert log[0..] == log;
  }

  /** A log without a terminal event always ends the stream with the timeout error. */
  lemma StreamTimesOut(log: seq<Event>, poll: nat -> Poll)
    requires Growing(poll) && NoTerminal(log)
    ensures var out := StreamOf(log, poll);
      |out| > 0 && out[|out| - 1] == TimeoutEvent && out[..|out| - 1] <= log
  {
    StreamPrefixOfLog(log, poll);
    var out := StreamOf(log, poll);
    assert !(out <= log && Terminal(out[|out| - 1])) by {
      if out <= log {
        assert out[|out| - 1] == log[|out| - 1];
      }
    }
  }

  /**
   * A subscriber that connects late gets every event already buffered at its
   * first poll, from index 0, up to the first terminal one.
   */
  lemma LateSubscriber(log: seq<Event>, poll: nat -> Poll)
    requires poll(0).present
    ensures UpToTerminal(Visible(log, poll(0))) <= StreamOf(log, poll)
  {
    var events := Visible(log, poll(0));
    assert Pending(events, 0) == events;
  }

  /** job_progress_sse's check before streaming: an unknown job id is a 404. */
  function OpenStream(jobs: map<string, Job>, jobId: string): (r: Option<HttpError>)
    ensures r.Some? <==> jobId !in jobs
  {
    if jobId !in jobs then Some(HttpError(404, "Job not found")) else None
  }
}
