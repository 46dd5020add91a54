# Emitters of `src/io.c`, modelled in Dafny

The five output routines of `src/io.c` are `vx_printf`, `vx_warn`, `vx_errlog`, `vx_log` and `vx_dbglog`.
Each builds one line in a stack buffer of `VX_PATH_MAX` bytes and writes it with a single `write`.
When the line does not fit, it uses a heap buffer of exactly `total_len + 1` bytes.
When that allocation fails, it writes a fixed notice instead.
All of this happens while holding the process-wide flag `g_io_atomic_lock`.

The model has one routine, `Io.Logger.Emit`, parameterised by a severity descriptor (`Severity.Descriptor`).
A descriptor holds the prefix literal, the target stream, whether a `'\n'` replaces the terminating NUL, and the out-of-memory notice with its stream.
The five emitters are thin methods that call `Emit` with their own descriptor.
`vx_printf` is the descriptor with the empty prefix `""`, standard output and no newline.
Its allocation failure goes through `fprintf(stderr, ...)`, which is modelled as a write of the rendered text.

What can be observed from outside is a trace of events (`Trace.Event`): taking the flag, clearing it, and whole writes to a stream.
- `Logger.Valid()` says the trace keeps the lock discipline: the flag is never taken while held, never cleared while free, and never written under without being held.
- `Logger.Received(fd)` is everything that reached a stream.
- `Io.Events` states, for each way out of a call (`Io.Exit`), what the call adds to the trace.
- `Io.Planned` says which way out the inputs select.

The byte operations are array methods: `LibC.Vsnprintf`, `LibC.Memcpy` and `LibC.Malloc`.
Each is tied to a function on the buffer's contents (`Snprinted`, `Memcpied`).
`Emit` works on real arrays: the stack buffer of capacity `VX_PATH_MAX`, and the heap buffer of `total_len + 1` bytes.

Parameters of the model:
- The stack capacity `VX_PATH_MAX` comes from `limits.h`, which is not part of this model. It is a constructor argument with `1 <= capacity <= I32_MAX`.
- The build switch `DEBUG` is a second constructor argument.
- A format with its variadic arguments is `Io.Format`: `Null`, or a template that denotes a `LibC.Rendering`, which is either its full text or an encoding failure.
- Whether `malloc` succeeds is chosen nondeterministically. The ghost log `Logger.allocs` records the size of every block requested, and `Io.Requests` gives the requests of each way out.

## Model

| member | source | states |
|---|---|---|
| `Bytes.WrapI32` | include/defs.h:10 | two's-complement wrap into the `i32` range: the result is in range, congruent to the input modulo 2^32, and equal to it when it is already in range |
| `Bytes.Ascii` | src/io.c:78 | the bytes of a C string literal, one per character, with no NUL when the characters are ASCII |
| `Bytes.StrLen` | src/io.c:119 | `strlen`: the index of the first NUL, with no NUL before it |
| `Bytes.TextOfLiteral` | src/io.c:118-119 | `strlen` of a literal without NUL is its written length, and its text is exactly its bytes |
| `LibC.Snprinted` | src/io.c:82 | the `snprintf` window write keeps the buffer's length |
| `LibC.Measure` | src/io.c:92-95 | `vsnprintf`'s return value: between -1 and `INT_MAX`; non-negative only for a rendered text, and then its full length; the full length whenever that fits an `int` |
| `LibC.SnprintedFrame` | src/io.c:92 | a `vsnprintf` into `buf + off` of size `size` changes no byte outside `buf[off..off+size]` |
| `LibC.SnprintedStores` | src/io.c:92 | it stores the first `min(len, size-1)` bytes of the text at `off`, followed by a NUL |
| `LibC.Memcpied` | src/io.c:124 | `memcpy` replaces the first `n` bytes and keeps the buffer's length |
| `LibC.Vsnprintf` | src/io.c:92 | returns the full length of the text, or -1 on failure or for a text longer than `INT_MAX`; on success the array is the window write of the text; on failure nothing outside the window changes |
| `LibC.Memcpy` | src/io.c:124 | the array afterwards is `Memcpied` of its old contents |
| `LibC.Malloc` | src/io.c:114 | `vx_malloc(n)` returns NULL or a fresh block of exactly `n` bytes |
| `Trace.RunAppend` | src/io.c:11 | the lock discipline checked over `t + u` is the discipline over `t`, continued over `u` |
| `Trace.RunOfNone` | src/io.c:11 | once the discipline is broken, no later event repairs it |
| `Trace.OutputAppend` | src/io.c:108 | what a stream receives from `t + u` is what it receives from `t`, then from `u` |
| `Trace.WritesHoldLock` | src/io.c:73-76 | in a trace that keeps the discipline, every write happens while the flag is held |
| `Trace.WriteFollowsAcquire` | src/io.c:73-76 | in a disciplined trace that starts with the flag free, every write comes after a successful test-and-set |
| `Trace.NoAcquireStaysFree` | src/io.c:11 | a trace with no test-and-set never leaves the free flag held |
| `Severity.ColourPrefix` | src/io.c:78 | the colour prefix `ESC[38;5;<colour>m[<name>]: ESC[0m` contains no NUL |
| `Severity.Line` | src/io.c:101-108 | the line a descriptor writes: prefix text, then the message, then `'\n'` if the severity ends its lines; its length is exactly the sum of those |
| `Severity.PlainLine` | src/io.c:40-45 | vx_printf's line is the message alone, with no prefix and no newline |
| `Severity.ColouredLine` | src/io.c:101-108 | a coloured emitter writes its prefix, the message and `'\n'`; a prefix is `16 + ` the colour's and name's lengths |
| `Severity.WarnLine` | src/io.c:78 | vx_warn's line is its orange prefix, the message and `'\n'`; the prefix is 26 bytes |
| `Severity.ErrorLine` | src/io.c:149 | vx_errlog's line is its red prefix, the message and `'\n'`; the prefix is 24 bytes |
| `Severity.LogLine` | src/io.c:220 | vx_log's line is its green prefix, the message and `'\n'`; the prefix is 21 bytes |
| `Severity.DebugLine` | src/io.c:293 | vx_dbglog's line is its pink prefix, the message and `'\n'`; the prefix is 24 bytes |
| `Severity.NoticeText` | src/io.c:118-119 | `strlen` of a notice literal made of ASCII pieces covers all of its bytes, so `write(fd, oom, strlen(oom))` writes the whole literal |
| `Severity.PlainNotice` | src/io.c:51 | vx_printf's descriptor writes, when out of memory, exactly `vx_printf():51: failed to allocate memory for buffer`, the text `fprintf` renders, without a newline |
| `Severity.WarnNotice` | src/io.c:118-119 | vx_warn's descriptor writes, when out of memory, exactly `[warning]: out of memory while formatting warning msg` and `'\n'` |
| `Severity.ErrorNotice` | src/io.c:189-190 | vx_errlog's descriptor writes, when out of memory, exactly `[error]: out of memory while formatting error` and `'\n'` |
| `Severity.LogNotice` | src/io.c:261-262 | vx_log's descriptor writes, when out of memory, exactly `[log]: out of memory while formatting debug log` and `'\n'` |
| `Severity.DebugNotice` | src/io.c:334-335 | vx_dbglog's descriptor writes, when out of memory, exactly `[debug]: out of memory while formatting debug log` and `'\n'` |
| `Io.TotalLen` | src/io.c:101 | the corrected total: it agrees with the as-written `i32` sum exactly when it lies in the `i32` range |
| `Io.Planned` | src/io.c:68-105 | the way out the inputs select: never out of memory by itself; NULL format exactly for a NULL `fmt`; both paths only for a rendered message of at most `INT_MAX` bytes; the fast path only when the whole line fits the stack buffer; the slow path only when the prefix fits and prefix plus message do not |
| `Io.Events` | src/io.c:66-135 | what one call adds to the trace: nothing exactly for a NULL format (and vx_dbglog without `DEBUG`); otherwise it starts by taking the flag and ends by clearing it, with nothing but writes in between, and one write exactly on the fast, slow and out-of-memory paths |
| `Io.PlannedCases` | src/io.c:84-105 | the prefix fault happens iff `prefix_len >= capacity`; the format fault iff the message fails or is longer than `INT_MAX`; the fast path iff `prefix_len + msg_len < capacity`; the slow path iff it is not |
| `Io.AllocatesOnlyWhenTooLong` | src/io.c:105-114 | a call requests no heap block unless its line does not fit the stack buffer; then it requests exactly one, of the line's length plus the terminating byte, larger than the stack buffer |
| `Io.SlowMatchesUnboundedFast` | src/io.c:113-131 | the slow path writes exactly the bytes that the fast path of a large enough stack buffer would write |
| `Io.CallReleasesLock` | src/io.c:84-134 | every way out of a call, starting from a free flag, keeps the discipline and leaves the flag free |
| `Io.CallOutput` | src/io.c:108-131 | what each stream receives from one call: the line on the descriptor's stream for both paths, the notice on its stream when out of memory, nothing otherwise |
| `Io.ReceivedAfterCall` | src/io.c:108-131 | what a stream holds after one more call: what it held, followed by what `CallOutput` says |
| `Io.SlowPathBuffer` | src/io.c:124-127 | after `memcpy` of the prefix and `vsnprintf(big + prefix_len, msg_len + 1, ...)`, the `total_len + 1` heap bytes hold prefix, message and a NUL at `total_len` |
| `Io.Terminated` | src/io.c:107-108 | replacing the NUL at `total_len` by `'\n'` and writing `total_len + 1` bytes writes the line and its newline |
| `Io.TotalLenAsWritten` | src/io.c:101 | the `i32` sum `prefix_len + msg_len` as written: in the `i32` range, congruent to the true sum modulo 2^32, and equal to it whenever the sum fits |
| `Io.AsWrittenTotalLenOverflows` | src/io.c:101-107 | for vx_warn with a 2147483640-byte message, the wrapped total is negative and below the capacity, so the fast path is taken although the line does not fit |
| `Io.TotalLenInBounds` | src/io.c:105-130 | with the unwrapped total, `total_len + 1` is the length of the line plus, without a newline, its terminating NUL; the fast path is taken only when `total_len < capacity`, so its `'\n'` lies inside the stack buffer, and the slow path only when `total_len >= capacity` |
| `Io.OverflowInputTakesSlowPath` | src/io.c:101-114 | with the corrected total, vx_warn with a 2147483640-byte message takes the slow path for every stack buffer that holds the prefix |
| `Io.PutPrefix` | src/io.c:82 | returns the prefix length and, when it fits, leaves the prefix at the start of the buffer |
| `Io.PutMessage` | src/io.c:90-93 | returns the message length and, when the whole message fits, leaves prefix and message in the buffer |
| `Io.Logger.constructor` | src/io.c:11 | the flag starts free and nothing has been written |
| `Io.Logger.Acquire` | src/io.c:73-76 | the test-and-set loop takes the free flag |
| `Io.Logger.Release` | src/io.c:86 | `atomic_flag_clear` frees the held flag |
| `Io.Logger.Write` | src/io.c:108 | one `write` of a whole buffer, made while the flag is held |
| `Io.Logger.WriteLine` | src/io.c:105-111 | the end of both paths: one write of the descriptor's line to its stream |
| `Io.Logger.Emit` | src/io.c:66-135 | the common body: the flag is free again on every way out; the way out is the planned one, or out of memory instead of the slow path; the trace grows by exactly that way out's events, and the allocation log by exactly its requests |
| `Io.Logger.EmitMessage` | src/io.c:90-134 | after the prefix: a failed message writes nothing; the fast and slow paths write the line once; out of memory writes the notice; only the slow path requests a block |
| `Io.Logger.EmitFromHeap` | src/io.c:113-134 | the heap fallback requests exactly one block of `total_len + 1` bytes and writes the line, or the fixed notice when the allocation fails |
| `Io.Logger.Printf` | src/io.c:15-64 | vx_printf: a NULL format does nothing; of a rendered message it writes exactly those bytes to standard output, with no prefix or newline; allocation failure puts the `fprintf` notice on standard error; it never faults on a prefix |
| `Io.Logger.Warn` | src/io.c:66-135 | vx_warn: the orange prefix, message and `'\n'` on standard error; the warning notice when out of memory; nothing on either stream for a NULL format or a fault |
| `Io.Logger.ErrLog` | src/io.c:137-206 | vx_errlog, the same with the red `[error]: ` prefix and its notice |
| `Io.Logger.Log` | src/io.c:208-278 | vx_log, the same with the green `[log]: ` prefix and its notice |
| `Io.Logger.DbgLog` | src/io.c:280-354 | vx_dbglog: without `DEBUG` it changes nothing, whatever the flag's state; with `DEBUG`, the pink `[debug]: ` line, as for the others |

## Left out

- The `nanosleep` back-off inside the test-and-set loop, and any interleaving of threads. `Acquire` models one caller that finds the flag free; the lock discipline is a property of each call's trace.
- How `vsnprintf` interprets a format. A template is modelled by what it renders to, or by failure, and the same template renders the same way on both passes.
- The return value of `write`. Short and failed writes are not modelled; a write delivers all its bytes.
- `vx_free`, which has no observable effect here.
- `fprintf` in vx_printf's out-of-memory branch is modelled as one write of its rendered text, `vx_printf():51: failed to allocate memory for buffer`, with no trailing newline, as in the source.
- vx_log's notice really says "debug log" (src/io.c:261). The model keeps that text.
- `vx_clear_term`, `vx_isdir`, `vx_isfile` and `vx_getcwd` in include/io.h are outside this model, as are the type aliases and helpers of include/defs.h other than the `i32` width.
- `limits.h` is not part of this model; `VX_PATH_MAX` is a constructor parameter.
- LibC.Vsnprintf: on failure, the model promises only that nothing outside the window changes. The window's contents after a failed call are left unspecified, which is weaker than any particular C library.
- Io.Logger.Printf: the contract states the out-of-memory notice as the text of the descriptor's literal; the `Severity.*Notice` lemmas spell it out byte by byte.
- Io.Logger.Warn: the contract states the out-of-memory notice as the text of the descriptor's literal; the `Severity.*Notice` lemmas spell it out byte by byte.
- Io.Logger.ErrLog: the contract states the out-of-memory notice as the text of the descriptor's literal; the `Severity.*Notice` lemmas spell it out byte by byte.
- Io.Logger.Log: the contract states the out-of-memory notice as the text of the descriptor's literal; the `Severity.*Notice` lemmas spell it out byte by byte.
- Io.Logger.DbgLog: the contract states the out-of-memory notice as the text of the descriptor's literal; the `Severity.*Notice` lemmas spell it out byte by byte.
- Io.Logger.Emit: vx_printf never calls `snprintf` for a prefix (src/io.c:27-31); the model builds its stack buffer the same way as the other emitters, with the empty prefix. This only adds a NUL at `buf[0]` that `vsnprintf` then overwrites, which cannot be observed.
- Io.Logger.Emit: the total length is computed without `i32` wrap-around (the corrected definition, see Findings). The as-written wrap is modelled separately.

## Findings

| source | as written | input that shows it | evidently intended | confidence | as-written member | corrected member |
|---|---|---|---|---|---|---|
| src/io.c:101 (and 172, 243, 316) | `i32 total_len = prefix_len + msg_len` overflows when `msg_len` is close to `INT_MAX`; the negative total passes `total_len < (i32) sizeof(buf)`, and `buf[total_len] = '\n'` writes far outside the stack buffer | `vx_warn("%2147483640d", 1)`: prefix 26, message 2147483640 bytes, wrapped total -2147483630 | compute the total without overflow and take the slow path, or fail, when it does not fit | not executed | `Io.AsWrittenTotalLenOverflows` | `Io.OverflowInputTakesSlowPath` |

