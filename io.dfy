/**
 * The emitters of `src/io.c` (vx_printf, vx_warn, vx_errlog, vx_log, vx_dbglog) as one
 * routine parameterised by a severity descriptor: take the flag, build the line in a
 * fixed-capacity stack buffer, fall back to an exactly sized heap buffer when it does
 * not fit, write it with one `write`, and clear the flag on every way out.
 */
module Io {
  import opened Bytes
  import opened LibC
  import opened Trace
  import opened Severity

  /** The `fmt` argument with its variadic arguments: NULL, or a template denoting a rendering. */
  datatype Format = Null | Template(rendering: Rendering)

  /** The way out of one call. */
  datatype Exit =
    | NullFormat    // fmt == NULL: return before touching the flag
    | PrefixFault   // prefix_len < 0 || prefix_len >= sizeof(buf)
    | FormatFault   // msg_len < 0
    | Fast          // the line fits the stack buffer
    | OutOfMemory   // the heap buffer could not be allocated
    | Slow          // the line was built in the heap buffer
    | Disabled      // vx_dbglog compiled without DEBUG

  /** The index of the byte after prefix and message: where the fast and slow paths put '\n',
      and one less than the size of the heap buffer. Computed without wrap-around. */
  function TotalLen(prefixLen: nat, msgLen: nat): (t: nat)
    ensures IsI32(prefixLen) && IsI32(msgLen) ==> (TotalLenAsWritten(prefixLen, msgLen) == t <==> IsI32(t))
  {
    prefixLen + msgLen
  }

  /** The way out that the inputs decide; `Slow` stands for both outcomes of the allocation. */
  function Planned(d: Descriptor, capacity: nat, fmt: Format): (e: Exit)
    ensures e != OutOfMemory && e != Disabled
    ensures e == NullFormat <==> fmt.Null?
    ensures e == Fast || e == Slow ==> fmt.Template? && fmt.rendering.Rendered? && |fmt.rendering.text| <= I32_MAX
    ensures e == Fast ==> |Line(d, fmt.rendering.text)| <= capacity
    ensures e == Slow ==> |Text(d.prefix)| < capacity <= |Text(d.prefix)| + |fmt.rendering.text|
  {
    if fmt.Null? then NullFormat
    else
      var prefixLen := Measure(Rendered(Text(d.prefix)));
      if prefixLen < 0 || prefixLen >= capacity then PrefixFault
      else
        var msgLen := Measure(fmt.rendering);
        if msgLen < 0 then FormatFault
        else if TotalLen(prefixLen, msgLen) < capacity then Fast
        else Slow
  }

  /** The way out a call may take: the planned one, or out of memory instead of the slow path. */
  predicate Admissible(planned: Exit, exit: Exit)
  {
    exit == planned || (planned == Slow && exit == OutOfMemory)
  }

  /** A way out that writes the line, or sizes a heap buffer for it, has a rendered message. */
  predicate HasLine(fmt: Format, exit: Exit)
  {
    (exit.Fast? || exit.Slow? || exit.OutOfMemory?) ==> fmt.Template? && fmt.rendering.Rendered?
  }

  /** What one call that leaves by `exit` does, as seen from outside. */
  function Events(d: Descriptor, fmt: Format, exit: Exit): (e: seq<Event>)
    requires HasLine(fmt, exit)
    ensures e == [] <==> exit.NullFormat? || exit.Disabled?
    ensures e != [] ==> e[0] == Event.Acquire && e[|e| - 1] == Event.Release
    ensures forall i :: 0 < i < |e| - 1 ==> e[i].Write?
    ensures |e| == 3 <==> exit.Fast? || exit.Slow? || exit.OutOfMemory?
    ensures |e| <= 3
  {
    match exit
    case NullFormat => []
    case Disabled => []
    case PrefixFault => [Acquire, Release]
    case FormatFault => [Acquire, Release]
    case Fast => [Acquire, Write(d.stream, Line(d, fmt.rendering.text)), Release]
    case Slow => [Acquire, Write(d.stream, Line(d, fmt.rendering.text)), Release]
    case OutOfMemory => [Acquire, Write(d.oomStream, Text(d.oom)), Release]
  }

  /** The heap blocks one call that leaves by `exit` requests, by size: one of exactly
      `total_len + 1` bytes on the slow path, whether or not it is granted, and none otherwise. */
  function Requests(d: Descriptor, fmt: Format, exit: Exit): seq<nat>
    requires HasLine(fmt, exit)
  {
    if exit.Slow? || exit.OutOfMemory? then [TotalLen(|Text(d.prefix)|, |fmt.rendering.text|) + 1] else []
  }

  /** A line that fits the stack buffer never allocates; a line that does not gets a block of
      exactly its own length plus the terminating byte, larger than the stack buffer. */
  lemma AllocatesOnlyWhenTooLong(d: Descriptor, capacity: nat, fmt: Format, exit: Exit)
    requires Admissible(Planned(d, capacity, fmt), exit)
    requires HasLine(fmt, exit)
    ensures Requests(d, fmt, exit) == [] <==> Planned(d, capacity, fmt) != Slow
    ensures Planned(d, capacity, fmt) == Slow ==>
      var r, line := Requests(d, fmt, exit), Line(d, fmt.rendering.text);
      |r| == 1 && capacity < r[0] && r[0] == |line| + (if d.newline then 0 else 1)
  {
  }

  /** The events of each way out, one by one. */
  lemma EventsOf(d: Descriptor, fmt: Format, exit: Exit)
    requires HasLine(fmt, exit)
    ensures exit.NullFormat? || exit.Disabled? ==> Events(d, fmt, exit) == []
    ensures exit.PrefixFault? || exit.FormatFault? ==> Events(d, fmt, exit) == [Event.Acquire, Event.Release]
    ensures exit.Fast? || exit.Slow? ==>
      Events(d, fmt, exit) == [Event.Acquire, Event.Write(d.stream, Line(d, fmt.rendering.text)), Event.Release]
    ensures exit.OutOfMemory? ==>
      Events(d, fmt, exit) == [Event.Acquire, Event.Write(d.oomStream, Text(d.oom)), Event.Release]
  {
  }

  /** The path decision in the source's own terms. */
  lemma PlannedCases(d: Descriptor, capacity: nat, fmt: Format)
    requires capacity <= I32_MAX && fmt.Template?
    ensures var p, r := |Text(d.prefix)|, fmt.rendering;
      && (Planned(d, capacity, fmt) == PrefixFault <==> p >= capacity)
      && (Planned(d, capacity, fmt) == FormatFault <==>
            p < capacity && (r.Failed? || |r.text| > I32_MAX))
      && (Planned(d, capacity, fmt) == Fast <==>
            p < capacity && r.Rendered? && |r.text| <= I32_MAX && p + |r.text| < capacity)
      && (Planned(d, capacity, fmt) == Slow <==>
            p < capacity && r.Rendered? && |r.text| <= I32_MAX && p + |r.text| >= capacity)
  {
  }

  /** The slow path emits exactly what the fast path emits with a stack buffer large enough:
      the output does not depend on the capacity. */
  lemma SlowMatchesUnboundedFast(d: Descriptor, small: nat, large: nat, fmt: Format)
    requires Planned(d, small, fmt) == Slow
    requires large > |Line(d, fmt.rendering.text)|
    ensures Planned(d, large, fmt) == Fast
    ensures Events(d, fmt, Slow) == Events(d, fmt, Fast)
  {
  }

  /** A call that keeps the discipline leaves the flag as it found it: free. */
  lemma CallReleasesLock(d: Descriptor, fmt: Format, exit: Exit)
    requires HasLine(fmt, exit)
    ensures Run(Some(false), Events(d, fmt, exit)) == Some(false)
  {
    var e := Events(d, fmt, exit);
    if |e| == 2 {
      assert Run(Some(false), e) == Run(Some(true), e[1..]);
      assert Run(Some(true), e[1..]) == Run(Some(false), e[1..][1..]);
      assert e[1..][1..] == [];
    } else if |e| == 3 {
      assert Run(Some(false), e) == Run(Some(true), e[1..]);
      assert Run(Some(true), e[1..]) == Run(Some(true), e[1..][1..]);
      assert Run(Some(true), e[1..][1..]) == Run(Some(false), e[1..][1..][1..]);
      assert e[1..][1..][1..] == [];
    }
  }

  /** What each stream receives from one call. */
  lemma CallOutput(d: Descriptor, fmt: Format, exit: Exit, fd: Stream)
    requires HasLine(fmt, exit)
    ensures Output(Events(d, fmt, exit), fd) ==
      if (exit.Fast? || exit.Slow?) && fd == d.stream then Line(d, fmt.rendering.text)
      else if exit.OutOfMemory? && fd == d.oomStream then Text(d.oom)
      else []
  {
    var e := Events(d, fmt, exit);
    EventsOf(d, fmt, exit);
    if |e| == 2 {
      assert Output(e, fd) == Output(e[1..], fd);
      assert e[1..][1..] == [];
      assert Output(e[1..], fd) == Output(e[1..][1..], fd);
    } else if |e| == 3 {
      assert Output(e, fd) == Output(e[1..], fd);
      assert e[1..][1..][1..] == [];
      assert Output(e[1..][1..], fd) == [];
    }
  }

  /** What each stream holds after one more call. */
  lemma ReceivedAfterCall(t: seq<Event>, d: Descriptor, fmt: Format, exit: Exit, fd: Stream)
    requires HasLine(fmt, exit)
    ensures Output(t + Events(d, fmt, exit), fd) == Output(t, fd) +
      if (exit.Fast? || exit.Slow?) && fd == d.stream then Line(d, fmt.rendering.text)
      else if exit.OutOfMemory? && fd == d.oomStream then Text(d.oom)
      else []
  {
    OutputAppend(t, Events(d, fmt, exit), fd);
    CallOutput(d, fmt, exit, fd);
  }

  /** The heap buffer of exactly `total_len + 1` bytes after `memcpy(big, prefix, prefix_len)`
      and `vsnprintf(big + prefix_len, msg_len + 1, fmt, args)` holds the same line. */
  lemma SlowPathBuffer(big: seq<byte>, prefix: seq<byte>, msg: seq<byte>)
    requires |big| == |prefix| + |msg| + 1
    ensures var b := Snprinted(Memcpied(big, prefix, |prefix|), |prefix|, |msg| + 1, msg);
      b[..|prefix| + |msg|] == prefix + msg && b[|prefix| + |msg|] == NUL
  {
    var b1 := Memcpied(big, prefix, |prefix|);
    var b2 := Snprinted(b1, |prefix|, |msg| + 1, msg);
    SnprintedStores(b1, |prefix|, |msg| + 1, msg);
    assert b2[..|prefix|] == prefix;
    assert b2[..|prefix| + |msg|] == b2[..|prefix|] + b2[|prefix|..|prefix| + |msg|];
  }

  /** Replacing the NUL after the line by '\n' and taking the line with or without it. */
  lemma Terminated(b: seq<byte>, line: seq<byte>, d: Descriptor)
    requires |line| < |b| && b[..|line|] == line
    ensures d.newline ==> b[|line| := LF][..|line| + 1] == line + [LF]
    ensures !d.newline ==> b[..|line|] == line
  {
    if d.newline {
      assert b[|line| := LF][..|line| + 1] == b[..|line|] + [LF];
    }
  }

  /** `total_len = prefix_len + msg_len` as the source computes it, in `i32`: the sum wraps
      around (the C standard calls the overflow undefined; two's-complement hardware wraps). */
  function TotalLenAsWritten(prefixLen: int, msgLen: int): (t: int)
    requires IsI32(prefixLen) && IsI32(msgLen)
    ensures IsI32(t)
    ensures (t - (prefixLen + msgLen)) % 0x1_0000_0000 == 0
    ensures IsI32(prefixLen + msgLen) ==> t == prefixLen + msgLen
  {
    WrapI32(prefixLen + msgLen)
  }

  /** vx_warn, whose prefix is 26 bytes long (WarnLine), with a message whose length
      `vsnprintf` still reports (the template "%2147483640d", say): the wrapped total is
      negative, so `total_len < (i32) sizeof(buf)` selects the fast path although the line
      does not fit, and `buf[total_len] = '\n'` writes far before the buffer. */
  lemma AsWrittenTotalLenOverflows(capacity: nat)
    requires capacity <= I32_MAX
    ensures var t := TotalLenAsWritten(26, 2147483640);
      t < 0 && t < capacity && TotalLen(26, 2147483640) >= capacity
  {
    assert (26 + 2147483640 - I32_MIN) % 0x1_0000_0000 == 18;
  }

  /** With the total computed without wrap-around, the fast path is taken only when the line
      and its terminating byte, `total_len + 1` bytes, fit the stack buffer, so its '\n' lands
      inside it; and the slow path only when they do not. */
  lemma TotalLenInBounds(d: Descriptor, capacity: nat, fmt: Format)
    requires Planned(d, capacity, fmt) in {Fast, Slow}
    ensures var p, m := |Text(d.prefix)|, |fmt.rendering.text|;
      && |Line(d, fmt.rendering.text)| + (if d.newline then 0 else 1) == TotalLen(p, m) + 1
      && (Planned(d, capacity, fmt) == Fast ==> TotalLen(p, m) < capacity)
      && (Planned(d, capacity, fmt) == Slow ==> capacity <= TotalLen(p, m))
  {
  }

  /** The input of the overflow, under the unwrapped total: vx_warn's 26-byte prefix and a
      2147483640-byte message take the slow path for every stack buffer that holds the prefix. */
  lemma OverflowInputTakesSlowPath(capacity: nat, m: seq<byte>)
    requires 27 <= capacity <= I32_MAX && |m| == 2147483640
    ensures Planned(Severity.Warn, capacity, Template(Rendered(m))) == Slow
  {
    WarnLine(m);
  }

  /** `snprintf(buf, sizeof(buf), "%s", prefix)`: the prefix at the start of the stack buffer,
      its length returned. */
  method PutPrefix(buf: array<byte>, prefix: CString) returns (prefixLen: int)
    requires buf.Length > 0
    modifies buf
    ensures prefixLen == Measure(Rendered(Text(prefix)))
    ensures 0 <= prefixLen < buf.Length ==> buf[..prefixLen] == Text(prefix)
  {
    ghost var buf0 := buf[..];
    prefixLen := Vsnprintf(buf, 0, buf.Length, Rendered(Text(prefix)));
    if 0 <= prefixLen < buf.Length {
      SnprintedStores(buf0, 0, buf.Length, Text(prefix));
    }
  }

  /** `vsnprintf(buf + prefix_len, sizeof(buf) - prefix_len, fmt, args)`: the message after the
      prefix, as much of it as fits, and its full length returned. When the whole message fits,
      the buffer starts with prefix and message. */
  method PutMessage(buf: array<byte>, prefixLen: nat, r: Rendering) returns (msgLen: int)
    requires prefixLen < buf.Length
    modifies buf
    ensures msgLen == Measure(r)
    ensures 0 <= msgLen && prefixLen + msgLen < buf.Length ==>
      buf[..prefixLen + msgLen] == old(buf[..prefixLen]) + r.text
  {
    ghost var withPrefix := buf[..];
    msgLen := Vsnprintf(buf, prefixLen, buf.Length - prefixLen, r);
    if 0 <= msgLen && prefixLen + msgLen < buf.Length {
      SnprintedStores(withPrefix, prefixLen, buf.Length - prefixLen, r.text);
      assert buf[..prefixLen] == withPrefix[..prefixLen] by {
        forall j | 0 <= j < prefixLen ensures buf[j] == withPrefix[j] {
          SnprintedFrame(withPrefix, prefixLen, buf.Length - prefixLen, r.text, j);
        }
      }
      assert buf[..prefixLen + msgLen] == buf[..prefixLen] + buf[prefixLen..prefixLen + msgLen];
    }
  }

  /**
   * The process-wide state the emitters share: the flag `g_io_atomic_lock`, and what has
   * happened on it and on the two streams. The capacity `VX_PATH_MAX` of the stack buffer
   * and the build switch `DEBUG` are fixed when the logger is made.
   */
  class Logger {
    const capacity: nat
    const debug: bool
    var locked: bool
    ghost var trace: seq<Event>
    /** The size of every heap block requested from `vx_malloc`, in order. */
    ghost var allocs: seq<nat>

    ghost predicate Valid()
      reads this
    {
      1 <= capacity <= I32_MAX && Run(Some(false), trace) == Some(locked)
    }

    /** Everything written to `fd` so far. */
    ghost function Received(fd: Stream): seq<byte>
      reads this
    {
      Output(trace, fd)
    }

    /** Stream `fd` received exactly `bytes` since the pre-state. */
    twostate predicate Appended(fd: Stream, bytes: seq<byte>)
      reads this
    {
      Received(fd) == old(Received(fd)) + bytes
    }

    constructor (capacity: nat, debug: bool)
      requires 1 <= capacity <= I32_MAX
      ensures Valid() && !locked && trace == [] && allocs == []
      ensures this.capacity == capacity && this.debug == debug
    {
      this.capacity := capacity;
      this.debug := debug;
      locked := false;
      trace := [];
      allocs := [];
    }

    /** The test-and-set loop, from the single caller's view: the flag is free and becomes held. */
    method Acquire()
      requires Valid() && !locked
      modifies this
      ensures Valid() && locked && trace == old(trace) + [Event.Acquire]
      ensures allocs == old(allocs)
    {
      RunAppend(Some(false), trace, [Event.Acquire]);
      locked := true;
      trace := trace + [Event.Acquire];
    }

    /** `atomic_flag_clear(&g_io_atomic_lock)`. */
    method Release()
      requires Valid() && locked
      modifies this
      ensures Valid() && !locked && trace == old(trace) + [Event.Release]
      ensures allocs == old(allocs)
    {
      RunAppend(Some(false), trace, [Event.Release]);
      locked := false;
      trace := trace + [Event.Release];
    }

    /** One `write(fd, bytes, |bytes|)` (or `fprintf(stderr, ...)`) made while holding the flag. */
    method Write(fd: Stream, bytes: seq<byte>)
      requires Valid() && locked
      modifies this
      ensures Valid() && locked && trace == old(trace) + [Event.Write(fd, bytes)]
      ensures allocs == old(allocs)
    {
      RunAppend(Some(false), trace, [Event.Write(fd, bytes)]);
      trace := trace + [Event.Write(fd, bytes)];
    }

    /** The end of both paths: `buf[total_len] = '\n'` when the severity ends its line,
        then the one `write` of the line from the start of the buffer. */
    method WriteLine(d: Descriptor, a: array<byte>, totalLen: nat, ghost msg: seq<byte>)
      requires Valid() && locked
      requires totalLen < a.Length && a[..totalLen] == Text(d.prefix) + msg
      modifies this, a
      ensures Valid() && locked && trace == old(trace) + [Event.Write(d.stream, Line(d, msg))]
      ensures allocs == old(allocs)
    {
      Terminated(a[..], Text(d.prefix) + msg, d);
      if d.newline {
        a[totalLen] := LF;
        Write(d.stream, a[..totalLen + 1]);
      } else {
        assert Line(d, msg) == Text(d.prefix) + msg;
        Write(d.stream, a[..totalLen]);
      }
    }

    /** The common body of the five emitters. */
    method Emit(d: Descriptor, fmt: Format) returns (exit: Exit)
      requires Valid() && !locked
      modifies this
      ensures Valid() && !locked
      ensures Admissible(Planned(d, capacity, fmt), exit) && HasLine(fmt, exit)
      ensures trace == old(trace) + Events(d, fmt, exit)
      ensures allocs == old(allocs) + Requests(d, fmt, exit)
    {
      if fmt.Null? {
        return NullFormat;
      }
      Acquire();
      var buf := new byte[capacity];
      var prefixLen := PutPrefix(buf, d.prefix);
      if prefixLen < 0 || prefixLen >= capacity {
        PlannedCases(d, capacity, fmt);
        Release();
        EventsOf(d, fmt, PrefixFault);
        return PrefixFault;
      }
      exit := EmitMessage(d, fmt, buf, prefixLen);
      Release();
      EventsOf(d, fmt, exit);
    }

    /** Everything after the prefix is in the stack buffer: the message, then the fast path,
        or the slow path when the line does not fit. */
    method EmitMessage(d: Descriptor, fmt: Format, buf: array<byte>, prefixLen: nat) returns (exit: Exit)
      requires Valid() && locked && fmt.Template?
      requires buf.Length == capacity && prefixLen == |Text(d.prefix)| < capacity
      requires buf[..prefixLen] == Text(d.prefix)
      modifies this, buf
      ensures Valid() && locked
      ensures Admissible(Planned(d, capacity, fmt), exit) && HasLine(fmt, exit)
      ensures exit == FormatFault || exit == Fast || exit == Slow || exit == OutOfMemory
      ensures exit == FormatFault ==> trace == old(trace)
      ensures exit == Fast || exit == Slow ==> trace == old(trace) + [Event.Write(d.stream, Line(d, fmt.rendering.text))]
      ensures exit == OutOfMemory ==> trace == old(trace) + [Event.Write(d.oomStream, Text(d.oom))]
      ensures allocs == old(allocs) + Requests(d, fmt, exit)
    {
      PlannedCases(d, capacity, fmt);
      var msgLen := PutMessage(buf, prefixLen, fmt.rendering);
      if msgLen < 0 {
        return FormatFault;
      }
      var totalLen := TotalLen(prefixLen, msgLen);
      if totalLen < capacity {
        WriteLine(d, buf, totalLen, fmt.rendering.text);
        return Fast;
      }
      exit := EmitFromHeap(d, fmt, prefixLen, msgLen);
    }

    /** The fallback when the line does not fit: an allocation of exactly `total_len + 1` bytes,
        or the severity's fixed notice when there is none. */
    method EmitFromHeap(d: Descriptor, fmt: Format, prefixLen: nat, msgLen: nat) returns (exit: Exit)
      requires Valid() && locked
      requires fmt.Template? && fmt.rendering.Rendered?
      requires prefixLen == |Text(d.prefix)| && msgLen == |fmt.rendering.text| <= I32_MAX
      modifies this
      ensures Valid() && locked
      ensures exit == Slow || exit == OutOfMemory
      ensures exit == Slow ==> trace == old(trace) + [Event.Write(d.stream, Line(d, fmt.rendering.text))]
      ensures exit == OutOfMemory ==> trace == old(trace) + [Event.Write(d.oomStream, Text(d.oom))]
      ensures allocs == old(allocs) + [TotalLen(prefixLen, msgLen) + 1]
    {
      var totalLen := TotalLen(prefixLen, msgLen);
      allocs := allocs + [totalLen + 1];
      var big := Malloc(totalLen + 1);
      if big == null {
        Write(d.oomStream, Text(d.oom));
        return OutOfMemory;
      }
      ghost var big0 := big[..];
      Memcpy(big, d.prefix, prefixLen);
      assert big[..] == Memcpied(big0, Text(d.prefix), prefixLen);
      var _ := Vsnprintf(big, prefixLen, msgLen + 1, fmt.rendering);
      SlowPathBuffer(big0, Text(d.prefix), fmt.rendering.text);
      WriteLine(d, big, totalLen, fmt.rendering.text);
      return Slow;
    }

    /** vx_printf: the rendered message alone, with no prefix and no newline, on standard output;
        its allocation failure is reported on standard error. */
    method Printf(fmt: Format) returns (exit: Exit)
      requires Valid() && !locked
      modifies this
      ensures Valid() && !locked
      ensures Admissible(Planned(Plain, capacity, fmt), exit) && HasLine(fmt, exit) && exit != PrefixFault
      ensures trace == old(trace) + Events(Plain, fmt, exit)
      ensures allocs == old(allocs) + Requests(Plain, fmt, exit)
      ensures (exit.Fast? || exit.Slow?) ==> Appended(Stdout, fmt.rendering.text) && Appended(Stderr, [])
      ensures exit.OutOfMemory? ==> Appended(Stdout, []) && Appended(Stderr, Text(Plain.oom))
      ensures exit.NullFormat? || exit.FormatFault? ==> Appended(Stdout, []) && Appended(Stderr, [])
    {
      PlainLine([]);
      exit := Emit(Plain, fmt);
      ghost var msg := if fmt.Template? && fmt.rendering.Rendered? then fmt.rendering.text else [];
      PlainLine(msg);
      ReceivedAfterCall(old(trace), Plain, fmt, exit, Stdout);
      ReceivedAfterCall(old(trace), Plain, fmt, exit, Stderr);
    }

    /** vx_warn: the orange `[warning]: ` prefix, the message and '\n' on standard error. */
    method Warn(fmt: Format) returns (exit: Exit)
      requires Valid() && !locked
      modifies this
      ensures Valid() && !locked
      ensures Admissible(Planned(Severity.Warn, capacity, fmt), exit) && HasLine(fmt, exit)
      ensures trace == old(trace) + Events(Severity.Warn, fmt, exit)
      ensures allocs == old(allocs) + Requests(Severity.Warn, fmt, exit)
      ensures (exit.Fast? || exit.Slow?) ==>
        Appended(Stderr, WarnPrefix + fmt.rendering.text + [LF]) && Appended(Stdout, [])
      ensures exit.OutOfMemory? ==> Appended(Stderr, Text(Severity.Warn.oom)) && Appended(Stdout, [])
      ensures exit.NullFormat? || exit.PrefixFault? || exit.FormatFault? ==> Appended(Stderr, []) && Appended(Stdout, [])
    {
      exit := Emit(Severity.Warn, fmt);
      ghost var msg := if fmt.Template? && fmt.rendering.Rendered? then fmt.rendering.text else [];
      WarnLine(msg);
      ReceivedAfterCall(old(trace), Severity.Warn, fmt, exit, Stdout);
      ReceivedAfterCall(old(trace), Severity.Warn, fmt, exit, Stderr);
    }

    /** vx_errlog: the red `[error]: ` prefix, the message and '\n' on standard error. */
    method ErrLog(fmt: Format) returns (exit: Exit)
      requires Valid() && !locked
      modifies this
      ensures Valid() && !locked
      ensures Admissible(Planned(Error, capacity, fmt), exit) && HasLine(fmt, exit)
      ensures trace == old(trace) + Events(Error, fmt, exit)
      ensures allocs == old(allocs) + Requests(Error, fmt, exit)
      ensures (exit.Fast? || exit.Slow?) ==>
        Appended(Stderr, ErrorPrefix + fmt.rendering.text + [LF]) && Appended(Stdout, [])
      ensures exit.OutOfMemory? ==> Appended(Stderr, Text(Error.oom)) && Appended(Stdout, [])
      ensures exit.NullFormat? || exit.PrefixFault? || exit.FormatFault? ==> Appended(Stderr, []) && Appended(Stdout, [])
    {
      exit := Emit(Error, fmt);
      ghost var msg := if fmt.Template? && fmt.rendering.Rendered? then fmt.rendering.text else [];
      ErrorLine(msg);
      ReceivedAfterCall(old(trace), Error, fmt, exit, Stdout);
      ReceivedAfterCall(old(trace), Error, fmt, exit, Stderr);
    }

    /** vx_log: the green `[log]: ` prefix, the message and '\n' on standard error. */
    method Log(fmt: Format) returns (exit: Exit)
      requires Valid() && !locked
      modifies this
      ensures Valid() && !locked
      ensures Admissible(Planned(Severity.Log, capacity, fmt), exit) && HasLine(fmt, exit)
      ensures trace == old(trace) + Events(Severity.Log, fmt, exit)
      ensures allocs == old(allocs) + Requests(Severity.Log, fmt, exit)
      ensures (exit.Fast? || exit.Slow?) ==>
        Appended(Stderr, LogPrefix + fmt.rendering.text + [LF]) && Appended(Stdout, [])
      ensures exit.OutOfMemory? ==> Appended(Stderr, Text(Severity.Log.oom)) && Appended(Stdout, [])
      ensures exit.NullFormat? || exit.PrefixFault? || exit.FormatFault? ==> Appended(Stderr, []) && Appended(Stdout, [])
    {
      exit := Emit(Severity.Log, fmt);
      ghost var msg := if fmt.Template? && fmt.rendering.Rendered? then fmt.rendering.text else [];
      LogLine(msg);
      ReceivedAfterCall(old(trace), Severity.Log, fmt, exit, Stdout);
      ReceivedAfterCall(old(trace), Severity.Log, fmt, exit, Stderr);
    }

    /** vx_dbglog: without DEBUG it does nothing at all, whatever the argument and whatever
        the state of the flag; with DEBUG, the pink `[debug]: ` line on standard error. */
    method DbgLog(fmt: Format) returns (exit: Exit)
      requires Valid() && (debug ==> !locked)
      modifies this
      ensures !debug ==> exit == Disabled && unchanged(this)
      ensures debug ==> Valid() && !locked
      ensures debug ==> Admissible(Planned(Severity.Debug, capacity, fmt), exit) && HasLine(fmt, exit)
      ensures debug ==> trace == old(trace) + Events(Severity.Debug, fmt, exit)
      ensures debug ==> allocs == old(allocs) + Requests(Severity.Debug, fmt, exit)
      ensures debug && (exit.Fast? || exit.Slow?) ==>
        Appended(Stderr, DebugPrefix + fmt.rendering.text + [LF]) && Appended(Stdout, [])
      ensures debug && exit.OutOfMemory? ==> Appended(Stderr, Text(Severity.Debug.oom)) && Appended(Stdout, [])
      ensures exit.NullFormat? || exit.PrefixFault? || exit.FormatFault? || exit.Disabled? ==>
        Appended(Stderr, []) && Appended(Stdout, [])
    {
      if !debug {
        return Disabled;
      }
      exit := Emit(Severity.Debug, fmt);
      ghost var msg := if fmt.Template? && fmt.rendering.Rendered? then fmt.rendering.text else [];
      DebugLine(msg);
      ReceivedAfterCall(old(trace), Severity.Debug, fmt, exit, Stdout);
      ReceivedAfterCall(old(trace), Severity.Debug, fmt, exit, Stderr);
    }
  }
}
