# FreeRDS named-pipe transport, modelled in Dafny

A FreeRDS session process talks to the session manager over a named pipe.
`libxrdp/protocol/transport.c` holds the helpers for this:
- `freerds_named_pipe_write` sends a whole buffer. It calls `WriteFile` again and again on the part not yet sent.
- `freerds_named_pipe_read` makes one `ReadFile` call.
- `freerds_named_pipe_clean` removes the stale socket file behind a session's pipe.
- `freerds_named_pipe_connect` waits for the pipe and then opens it.

Both `clean` and `connect` derive the pipe's name from the session id and an endpoint string. The name is `\\.\pipe\FreeRDS_`, then the session id cast to `int` and printed with `%d`, then `_`, then the endpoint.

This project models these helpers and proves what they guarantee. It has three files:

- `wintypes.dfy` (module `WinTypes`) defines the Win32 value types the helpers use: `BYTE`, `DWORD`, the C `int`, and `CString` for a `const char*` argument (characters without NUL). It also defines the `DWORD`-to-`int` conversion, which turns values above `INT_MAX` into negative numbers. The conversion is the explicit `(int)` cast of the session id in `clean` and `connect`, and the implicit conversion of the `DWORD` byte count that `read` and `write` return as `int`.
- `pipe_name.dfy` (module `PipeName`) models `%d` formatting and the pipe name. Its partner is a parser that reads a name back. The round trip shows that two different (session id, endpoint) pairs never get the same pipe, as long as both names fit the 256-byte buffer they are printed into.
- `transport.dfy` (module `Transport`) models the four helpers.
  - The write loop is a `method` with a `while` loop over the source's own variables. It is proved equal to a recursive specification, `WriteLoop`, and the write properties are lemmas about `WriteLoop`.
  - Read is a method that fills the caller's `array` through a pipe object that logs each `ReadFile` call.
  - Clean works on a `FileSystem` object that it changes in place.
  - Connect makes its operating-system calls on a pipe-server object that logs them.

The operating system is an environment passed in as parameters:
- `WriteFile` replies come from a script, in call order. Once the script runs out, every call fails. A reported count above the request is taken as the whole request, because `WriteFile` never reports more bytes than it was given.
- `ReadFile` acts on a pipe object. The object holds the replies to its calls, in call order. Each reply is success or failure, plus the bytes waiting in the pipe. Once the replies run out, every call fails. The object also logs each call with the length it asked for.
- `PathFileExistsA` and `DeleteFileA` act on a `FileSystem` object. That object holds a set of files and the set of files `DeleteFileA` cannot remove.
- `WaitNamedPipeA` and `CreateFileA` are methods of a pipe-server object. The object fixes their outcomes and logs each call, in order.
- `GetNamedPipeUnixDomainSocketFilePathA` is a function parameter.

Some of the helpers' results are easy to misread. The model follows the code in each case:
- Clean returns 1 when the socket file existed, whether or not the deletion succeeded. Its result says whether the file was there, not whether it was removed.
- A successful write returns the byte count of its last `WriteFile` call, not the total.
- A write of zero bytes returns an uninitialised variable. The model returns `None` for it.
- Both write and read return a `DWORD` count converted to `int`. A count of 4294967295 therefore comes back as -1, the failure value (`WriteSuccessReadsAsFailure`).

## Model

| member | source | states |
|---|---|---|
| `WinTypes.ToInt32` | libxrdp/protocol/transport.c:87 | the `(int)` cast of a `DWORD` keeps values up to `INT_MAX`, turns larger ones negative, and agrees with the value modulo 2^32 |
| `WinTypes.ToInt32Inverse` | libxrdp/protocol/transport.c:87 | the cast of the session id to `int` loses no information: casting back gives the same `DWORD` |
| `PipeName.Decimal` | libxrdp/protocol/transport.c:87 | `%d` of a non-negative number is a decimal numeral without leading zeros whose value is that number |
| `PipeName.FormatInt` | libxrdp/protocol/transport.c:87 | the text `%d` prints for any `int`, negative ones included, reads back as that `int` and never contains `_`, so the first `_` after the prefix ends it |
| `PipeName.Name` | libxrdp/protocol/transport.c:87 | the pipe name built by `clean` and `connect` reads back as exactly the session id and endpoint it was built from |
| `PipeName.NameInjective` | libxrdp/protocol/transport.c:84-87 | two different (session id, endpoint) pairs whose names both fit the 256-byte `pipeName` buffer never share a pipe name |
| `PipeName.NameExample` | libxrdp/protocol/transport.c:87 | session 5 with endpoint `rdp` gets the pipe `\\.\pipe\FreeRDS_5_rdp` |
| `PipeName.NameOfLargeSessionId` | libxrdp/protocol/transport.c:87 | session id 4294967295 is printed as `-1`, because of the cast to `int` |
| `Transport.WriteFile` | libxrdp/protocol/transport.c:65 | one `WriteFile` call never reports more bytes than it was handed, and it succeeds exactly when the scripted reply for that call does |
| `Transport.NamedPipeWrite` | libxrdp/protocol/transport.c:55-78 | the write loop returns exactly the status and makes exactly the `WriteFile` calls (same buffers, same order) that the specification `WriteLoop` gives for the data and the pipe's replies; the loop ends because every pass that goes on shrinks `length` |
| `Transport.WriteLoopShape` | libxrdp/protocol/transport.c:61-75 | no call is made exactly when there is nothing to send; the first call gets the whole buffer; each call gets a non-empty buffer strictly shorter than the one before; there are at most as many calls as bytes; the pipe gets a prefix of the data |
| `Transport.WriteLoopStep` | libxrdp/protocol/transport.c:65-74 | one pass of the loop: a call that fails or writes nothing ends the run with -1 after that call; an accepted call of `n` bytes leaves the rest of the run to the loop resumed `n` bytes further on, with `n` as the last count |
| `Transport.WriteLoopResumesWherePreviousStopped` | libxrdp/protocol/transport.c:65-74 | each `WriteFile` call after the first is handed the previous call's buffer without the bytes that call reported as written |
| `Transport.ResumesAt` | libxrdp/protocol/transport.c:65-74 | the same, call by call: buffer `i` is buffer `i - 1` minus the count of call `i - 1` |
| `Transport.WriteLoopOffersUnsentSuffix` | libxrdp/protocol/transport.c:65-74 | each `WriteFile` call is handed a suffix of the data, and the bytes before that suffix are the first bytes the pipe receives, in order; which suffix each call gets exactly is stated by `ResumesAt` |
| `Transport.WriteLoopStopsAtFirstRefusal` | libxrdp/protocol/transport.c:67-70 | every call except the last succeeded with a positive count, so the loop makes no call after the first one that fails or writes zero bytes |
| `Transport.WriteLoopStatus` | libxrdp/protocol/transport.c:61-77 | if any data is left unsent, the result is -1 after a last call that failed or wrote zero bytes, so a partial write is never reported as a success; if all of it was sent, the result is the `int` cast of the last call's count, and that call took its whole buffer; if there was nothing to send, the result is the previous count (uninitialised at the start) |
| `Transport.WriteLoopCompletes` | libxrdp/protocol/transport.c:61-75 | when every `WriteFile` call succeeds with a positive count, the pipe receives the whole buffer |
| `Transport.WriteReturnsLastCount` | libxrdp/protocol/transport.c:72-77 | over a pipe that accepts every call, the write sends all the data and returns the last call's count, which is less than the total whenever more than one call was needed |
| `Transport.WriteSuccessReadsAsFailure` | libxrdp/protocol/transport.c:77 | a single successful call that writes 4294967295 bytes sends everything, yet the helper returns -1 |
| `Transport.ReadPipe.ReadFile` | libxrdp/protocol/transport.c:41 | `ReadFile` uses up one reply and adds itself to the pipe's call log; it copies into the buffer as many waiting bytes as fit in `length`, only when it succeeds, and leaves the rest of the buffer unchanged |
| `Transport.NamedPipeRead` | libxrdp/protocol/transport.c:33-53 | exactly one `ReadFile` call, asked for `length` bytes: the pipe's call log grows by that one call and one reply is used up; the result is -1 when the call fails or reads no bytes, and the buffer is then unchanged, and also when it reads 4294967295 bytes (the `int` cast of that count); otherwise the result is the `int` cast of the count read, that count lies between 1 and `length`, and the buffer's first bytes are the bytes read |
| `Transport.FileSystem.PathFileExists` | libxrdp/protocol/transport.c:91 | the existence test is true exactly when the path is among the files |
| `Transport.FileSystem.DeleteFile` | libxrdp/protocol/transport.c:93 | deletion removes an existing, deletable file and nothing else, and reports whether it did |
| `Transport.NamedPipeClean` | libxrdp/protocol/transport.c:80-100 | clean returns 1 exactly when the socket file behind the session's pipe existed before the call, otherwise 0, whatever the deletion reports; the file set loses that one path when it existed and could be deleted, and is otherwise unchanged |
| `Transport.CleanTwice` | libxrdp/protocol/transport.c:80-100 | after one clean the socket file is gone unless it could not be deleted, so a second clean returns 0 unless the deletion failed |
| `Transport.PipeServer.WaitNamedPipeA` | libxrdp/protocol/transport.c:109 | the wait reports the server's outcome for that name and time-out, and adds exactly that call to the log |
| `Transport.PipeServer.CreateFileA` | libxrdp/protocol/transport.c:115-116 | opening returns the server's handle for that name, and adds exactly that call to the log |
| `Transport.NamedPipeConnect` | libxrdp/protocol/transport.c:102-125 | connect's calls, as the server's log shows, start with a wait on the session's pipe name with the caller's time-out, unchanged; if the wait fails it returns null and never calls `CreateFileA`; otherwise it calls `CreateFileA` once on the same name and returns that handle unless it is null or `INVALID_HANDLE_VALUE`, in which case it returns null |

## Left out

- sesman/thread.c is not part of this model. It creates and detaches threads, handles signal masks and uses the locked socket hand-off slot. That is concurrency plumbing with no logic to prove.
- xrdp/xrdp.h is not part of this model. It only declares the cache, window-manager, region, painter and module interfaces, and none of their bodies are available.
- PipeName.Name: the name is the full formatted text. What `sprintf_s` does with a name too long for the 256-byte `pipeName` buffer is library behaviour and is not modelled.
- PipeName.NameInjective: holds only for names shorter than 256 characters. Longer names are not what `sprintf_s` leaves in the buffer, so the model makes no claim about them.
- The `fprintf(stderr, …)` diagnostics in `connect` are output only and are not modelled.
- The `free(filename)` in `clean` is memory management and is not modelled.
- The real-time behaviour of `WaitNamedPipeA`'s time-out is not modelled. The wait's outcome is a function parameter, and the model only records that the caller's time-out is passed on unchanged.
- `GetNamedPipeUnixDomainSocketFilePathA` is a total function from pipe names to paths. The case where it returns NULL is not modelled.
- The other arguments of `CreateFileA` are constants: read and write access, no sharing, `OPEN_EXISTING`. The call log records only the name.
- A failing `WriteFile` call delivers no bytes to the pipe in the model. A failing `ReadFile` call leaves the buffer untouched. The code never looks at either case, since it returns -1 at once.
- The endpoint is a `CString`: the characters of the C string before its terminating NUL, so it contains no NUL.
- Characters are Dafny characters, not C `char` bytes.
- The write helper only reads its buffer, so the buffer is a `seq<byte>`. The `data` pointer becomes an offset into it.
- The read helper updates its local `length` and `data` after the call, but nothing uses them. The model leaves those updates out.
