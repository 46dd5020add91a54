/**
 * The five severity descriptors of `src/io.c`: the colour prefix each emitter copies into
 * its buffer, the stream it writes to, whether it ends the line, and the fixed line it
 * writes instead when the heap buffer cannot be allocated.
 */
module Severity {
  import opened Bytes
  import opened Trace

  datatype Descriptor = Descriptor(
    prefix: CString,     // copied into the buffer by snprintf(buf, sizeof(buf), "%s", prefix)
    stream: Stream,      // where the message goes
    newline: bool,       // whether '\n' replaces the terminating NUL
    oomStream: Stream,   // where the out-of-memory notice goes
    oom: CString)        // the out-of-memory notice

  /** `\033[38;5;<colour>m[<name>]: \033[0m` */
  function ColourPrefix(colour: string, name: string): (p: seq<byte>)
    requires IsAscii(colour) && IsAscii(name)
    ensures NUL !in p
  {
    [ESC] + Ascii("[38;5;" + colour + "m[" + name + "]: ") + [ESC] + Ascii("[0m")
  }

  /** The prefixes of vx_warn (orange), vx_errlog (red), vx_log (green) and vx_dbglog (pink). */
  const WarnPrefix: seq<byte> := ColourPrefix("202", "warning")
  const ErrorPrefix: seq<byte> := ColourPrefix("160", "error")
  const LogPrefix: seq<byte> := ColourPrefix("40", "log")
  const DebugPrefix: seq<byte> := ColourPrefix("167", "debug")

  // Each notice literal below is written as a concatenation of short pieces; together they
  // spell the literal of the source byte for byte.

  /** vx_printf: no prefix, standard output, no newline; its allocation failure is reported
      on standard error by `fprintf(stderr, "%s():%d: ...", __func__, __LINE__)`. */
  const Plain: Descriptor := Descriptor(
    Literal([]), Stdout, false,
    Stderr, Literal(Ascii("vx_printf()" + ":51: faile" + "d to alloc" + "ate memory" + " for buffe" + "r")))

  const Warn: Descriptor := Descriptor(
    Literal(WarnPrefix), Stderr, true,
    Stderr, Literal(Ascii("[warning]: " + "out of mem" + "ory while " + "formatting" + " warning m" + "sg\n")))

  const Error: Descriptor := Descriptor(
    Literal(ErrorPrefix), Stderr, true,
    Stderr, Literal(Ascii("[error]: " + "out of mem" + "ory while " + "formatting" + " error" + "\n")))

  const Log: Descriptor := Descriptor(
    Literal(LogPrefix), Stderr, true,
    Stderr, Literal(Ascii("[log]: " + "out of mem" + "ory while " + "formatting" + " debug log" + "\n")))

  const Debug: Descriptor := Descriptor(
    Literal(DebugPrefix), Stderr, true,
    Stderr, Literal(Ascii("[debug]: " + "out of mem" + "ory while " + "formatting" + " debug log" + "\n")))

  /** The complete line a descriptor produces for a rendered message. */
  function Line(d: Descriptor, msg: seq<byte>): (l: seq<byte>)
    ensures var p := Text(d.prefix);
      && |l| == |p| + |msg| + (if d.newline then 1 else 0)
      && l[..|p|] == p && l[|p|..|p| + |msg|] == msg
      && (d.newline ==> l[|l| - 1] == LF)
  {
    Text(d.prefix) + msg + (if d.newline then [LF] else [])
  }

  /** vx_printf writes the message alone: no prefix, no newline. */
  lemma PlainLine(msg: seq<byte>)
    ensures Line(Plain, msg) == msg
    ensures Text(Plain.prefix) == []
  {
    TextOfLiteral([]);
  }

  /** A coloured emitter writes its colour prefix, the message and '\n'. */
  lemma ColouredLine(d: Descriptor, colour: string, name: string, msg: seq<byte>)
    requires IsAscii(colour) && IsAscii(name)
    requires d.prefix == Literal(ColourPrefix(colour, name)) && d.newline
    ensures Line(d, msg) == ColourPrefix(colour, name) + msg + [LF]
    ensures |Text(d.prefix)| == 16 + |colour| + |name|
  {
    TextOfLiteral(ColourPrefix(colour, name));
  }

  /** The four coloured emitters, with the prefix literal of each source line byte for byte. */
  lemma WarnLine(msg: seq<byte>)
    ensures Line(Warn, msg) == WarnPrefix + msg + [LF] && |Text(Warn.prefix)| == 26
  {
    ColouredLine(Warn, "202", "warning", msg);
  }

  lemma ErrorLine(msg: seq<byte>)
    ensures Line(Error, msg) == ErrorPrefix + msg + [LF] && |Text(Error.prefix)| == 24
  {
    ColouredLine(Error, "160", "error", msg);
  }

  lemma LogLine(msg: seq<byte>)
    ensures Line(Log, msg) == LogPrefix + msg + [LF] && |Text(Log.prefix)| == 21
  {
    ColouredLine(Log, "40", "log", msg);
  }

  lemma DebugLine(msg: seq<byte>)
    ensures Line(Debug, msg) == DebugPrefix + msg + [LF] && |Text(Debug.prefix)| == 24
  {
    ColouredLine(Debug, "167", "debug", msg);
  }

  lemma AsciiAppend(a: string, b: string)
    requires IsAscii(a) && IsAscii(b)
    ensures IsAscii(a + b)
  {
    forall i | 0 <= i < |a + b| ensures 0 < (a + b)[i] as int < 128 {
      if i >= |a| {
        assert (a + b)[i] == b[i - |a|];
      }
    }
  }

  /** The text `strlen` sees in a notice literal made of six ASCII pieces is all of its bytes. */
  lemma NoticeText(a: string, b: string, c: string, e: string, f: string, g: string)
    requires IsAscii(a) && IsAscii(b) && IsAscii(c) && IsAscii(e) && IsAscii(f) && IsAscii(g)
    ensures Text(Literal(Ascii(a + b + c + e + f + g))) == Ascii(a + b + c + e + f + g)
  {
    AsciiAppend(a, b);
    AsciiAppend(a + b, c);
    AsciiAppend(a + b + c, e);
    AsciiAppend(a + b + c + e, f);
    AsciiAppend(a + b + c + e + f, g);
    TextOfLiteral(Ascii(a + b + c + e + f + g));
  }

  /** vx_printf's notice, as its `fprintf` renders `%s():%d:` at line 51: no newline. */
  lemma PlainNotice()
    ensures Text(Plain.oom) == Ascii("vx_printf()" + ":51: faile" + "d to alloc" + "ate memory" + " for buffe" + "r")
  {
    NoticeText("vx_printf()", ":51: faile", "d to alloc", "ate memory", " for buffe", "r");
  }

  /** vx_warn's notice, ending its line. */
  lemma WarnNotice()
    ensures Text(Warn.oom) == Ascii("[warning]: " + "out of mem" + "ory while " + "formatting" + " warning m" + "sg\n")
  {
    NoticeText("[warning]: ", "out of mem", "ory while ", "formatting", " warning m", "sg\n");
  }

  /** vx_errlog's notice, ending its line. */
  lemma ErrorNotice()
    ensures Text(Error.oom) == Ascii("[error]: " + "out of mem" + "ory while " + "formatting" + " error" + "\n")
  {
    NoticeText("[error]: ", "out of mem", "ory while ", "formatting", " error", "\n");
  }

  /** vx_log's notice, which names "debug log" as the source does. */
  lemma LogNotice()
    ensures Text(Log.oom) == Ascii("[log]: " + "out of mem" + "ory while " + "formatting" + " debug log" + "\n")
  {
    NoticeText("[log]: ", "out of mem", "ory while ", "formatting", " debug log", "\n");
  }

  /** vx_dbglog's notice, ending its line. */
  lemma DebugNotice()
    ensures Text(Debug.oom) == Ascii("[debug]: " + "out of mem" + "ory while " + "formatting" + " debug log" + "\n")
  {
    NoticeText("[debug]: ", "out of mem", "ory while ", "formatting", " debug log", "\n");
  }
}
