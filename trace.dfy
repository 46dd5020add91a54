/**
 * What the emitters do that can be observed from outside: taking and clearing the
 * process-wide flag `g_io_atomic_lock`, and whole `write`s to standard output and
 * standard error. A trace is the sequence of those events in the order they happen.
 */
module Trace {
  import opened Bytes

  datatype Option<T> = None | Some(value: T)

  datatype Stream = Stdout | Stderr

  datatype Event =
    | Acquire                                  // the test-and-set loop finally wins the flag
    | Release                                  // atomic_flag_clear
    | Write(fd: Stream, bytes: seq<byte>)      // one write(fd, ...) of these bytes

  /** The flag after one event when it was `held` before; None when the event breaks the
      discipline: taking a held flag, clearing a free one, or writing without holding it. */
  function Step(held: bool, e: Event): Option<bool>
  {
    match e
    case Acquire => if held then None else Some(true)
    case Release => if held then Some(false) else None
    case Write(_, _) => if held then Some(true) else None
  }

  /** The flag after a whole trace, starting from `s`. */
  function Run(s: Option<bool>, t: seq<Event>): Option<bool>
    decreases |t|
  {
    if t == [] || s.None? then s else Run(Step(s.value, t[0]), t[1..])
  }

  /** Bytes that reached stream `fd`, in order. */
  function Output(t: seq<Event>, fd: Stream): seq<byte>
    decreases |t|
  {
    if t == [] then []
    else (if t[0].Write? && t[0].fd == fd then t[0].bytes else []) + Output(t[1..], fd)
  }

  lemma {:induction false} RunAppend(s: Option<bool>, t: seq<Event>, u: seq<Event>)
    ensures Run(s, t + u) == Run(Run(s, t), u)
    decreases |t|
  {
    if t == [] {
      assert t + u == u;
    } else if s.None? {
      RunOfNone(u);
    } else {
      assert (t + u)[1..] == t[1..] + u;
      RunAppend(Step(s.value, t[0]), t[1..], u);
    }
  }

  /** Once the discipline is broken, no later event repairs it. */
  lemma {:induction false} RunOfNone(t: seq<Event>)
    ensures Run(None, t) == None
  {
  }

  lemma {:induction false} OutputAppend(t: seq<Event>, u: seq<Event>, fd: Stream)
    ensures Output(t + u, fd) == Output(t, fd) + Output(u, fd)
    decreases |t|
  {
    if t == [] {
      assert t + u == u;
    } else {
      assert (t + u)[1..] == t[1..] + u;
      OutputAppend(t[1..], u, fd);
    }
  }

  /** In a trace that keeps the discipline, every write happens while the flag is held. */
  lemma WritesHoldLock(s: Option<bool>, t: seq<Event>, i: nat)
    requires Run(s, t).Some? && i < |t| && t[i].Write?
    ensures Run(s, t[..i]) == Some(true)
  {
    var rest := t[i..];
    assert t == t[..i] + rest;
    RunAppend(s, t[..i], rest);
    var mid := Run(s, t[..i]);
    if mid.None? {
      RunOfNone(rest);
    }
  }

  /** In a trace that keeps the discipline from a free flag, every write comes after an Acquire. */
  lemma WriteFollowsAcquire(t: seq<Event>, i: nat)
    requires Run(Some(false), t).Some? && i < |t| && t[i].Write?
    ensures exists k :: 0 <= k < i && t[k] == Acquire
  {
    WritesHoldLock(Some(false), t, i);
    if forall k :: 0 <= k < i ==> t[k] != Acquire {
      NoAcquireStaysFree(t[..i]);
      assert false;
    }
  }

  lemma {:induction false} NoAcquireStaysFree(t: seq<Event>)
    requires forall k :: 0 <= k < |t| ==> t[k] != Acquire
    ensures Run(Some(false), t) != Some(true)
    decreases |t|
  {
    if t != [] {
      match t[0]
      case Release =>
        RunOfNone(t[1..]);
      case Write(_, _) =>
        RunOfNone(t[1..]);
    }
  }
}
