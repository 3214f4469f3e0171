/** The named-pipe helpers a session process uses to talk to the session
    manager: read, write, clean and connect. The operating-system calls they
    make are modelled as environments: scripted replies for `WriteFile`; a
    pipe object with scripted replies and a call log for `ReadFile`; a file
    system object for `PathFileExistsA` and `DeleteFileA`; a pipe server
    object with a call log for `WaitNamedPipeA` and `CreateFileA`; and a
    function parameter for `GetNamedPipeUnixDomainSocketFilePathA`. */
module Transport {
  import opened WinTypes
  import PipeName

  // ---------------------------------------------------------------------
  // Write
  // ---------------------------------------------------------------------

  /** What `WriteFile` reports for one call: whether it succeeded, and how
      many bytes the pipe took. */
  datatype WriteReply = WriteReply(success: bool, count: nat)

  /** The reply to the `k`-th `WriteFile` call on the pipe, when it is handed
      `buf`. The script gives the replies in call order; a count above the
      request stands for the whole request, since `WriteFile` never reports
      more bytes than it was given; once the script is used up every call
      fails. */
  function WriteFile(script: seq<WriteReply>, k: nat, buf: seq<byte>): (r: WriteReply)
    ensures r.count <= |buf|
    ensures r.success <==> k < |script| && script[k].success
  {
    if k < |script| then WriteReply(script[k].success, Min(script[k].count, |buf|))
    else WriteReply(false, 0)
  }

  /** A reply that lets the write loop go on: success with at least one
      byte written. */
  predicate Accepted(r: WriteReply) {
    r.success && r.count > 0
  }

  /** What one run of the write helper does: the value it returns (None for
      the uninitialised variable returned when there is nothing to write),
      the buffer handed to each `WriteFile` call in order, and the bytes the
      pipe took. */
  datatype WriteRun = WriteRun(status: Option<int>, offered: seq<seq<byte>>, sent: seq<byte>)

  /** The value the helper returns from `NumberOfBytesWritten`, a `DWORD`
      converted to `int`, or the uninitialised variable. */
  function Returned(last: Option<Dword>): Option<int> {
    match last
    case None => None
    case Some(n) => Some(ToInt32(n))
  }

  /** The write loop from the point where `rest` is still to be sent, the
      next `WriteFile` call is the `k`-th and `last` holds the count of the
      previous one. */
  function WriteLoop(script: seq<WriteReply>, k: nat, rest: seq<byte>, last: Option<Dword>): WriteRun
    requires |rest| < DwordLimit
    decreases |rest|
  {
    if |rest| == 0 then WriteRun(Returned(last), [], [])
    else
      var r := WriteFile(script, k, rest);
      if !Accepted(r) then WriteRun(Some(-1), [rest], [])
      else
        var tail := WriteLoop(script, k + 1, rest[r.count..], Some(r.count));
        WriteRun(tail.status, [rest] + tail.offered, rest[..r.count] + tail.sent)
  }

  /** A whole call of the write helper on `data`. */
  function Write(script: seq<WriteReply>, data: seq<byte>): WriteRun
    requires |data| < DwordLimit
  {
    WriteLoop(script, 0, data, None)
  }

  /** `freerds_named_pipe_write`: calls `WriteFile` on the unsent part of
      `data` until all of it has gone, and returns -1 at the first call that
      fails or writes nothing. It returns the count of the LAST call, not the
      total, and when `data` is empty it returns an uninitialised variable
      (None here). */
  method NamedPipeWrite(script: seq<WriteReply>, data: seq<byte>) returns (status: Option<int>, offered: seq<seq<byte>>)
    requires |data| < DwordLimit
    ensures status == Write(script, data).status
    ensures offered == Write(script, data).offered
  {
    ghost var whole := Write(script, data);
    var length: Dword := |data|;
    var pos := 0;
    var total: Dword := 0;
    var written: Option<Dword> := None;
    var k := 0;
    offered := [];
    while length > 0
      invariant pos + length == |data| && total == pos
      invariant k == |offered|
      invariant offered + WriteLoop(script, k, data[pos..], written).offered == whole.offered
      invariant WriteLoop(script, k, data[pos..], written).status == whole.status
      decreases length
    {
      var r := WriteFile(script, k, data[pos..]);
      WriteLoopStep(script, k, data, pos, written, offered, whole);
      offered := offered + [data[pos..]];
      k := k + 1;
      if !r.success || r.count == 0 {
        return Some(-1), offered;
      }
      total := total + r.count;
      length := length - r.count;
      pos := pos + r.count;
      written := Some(r.count);
    }
    assert data[pos..] == [];
    status := Returned(written);
  }

  /** One pass of the write loop at offset `pos`, after the calls in
      `done` of the run `whole`: a refused call ends the run with -1, an
      accepted one leaves what follows the written bytes to the next pass. */
  lemma WriteLoopStep(script: seq<WriteReply>, k: nat, data: seq<byte>, pos: nat, last: Option<Dword>,
                      done: seq<seq<byte>>, whole: WriteRun)
    requires pos < |data| < DwordLimit
    requires done + WriteLoop(script, k, data[pos..], last).offered == whole.offered
    requires WriteLoop(script, k, data[pos..], last).status == whole.status
    ensures var r := WriteFile(script, k, data[pos..]);
      && (!Accepted(r) ==> done + [data[pos..]] == whole.offered && whole.status == Some(-1))
      && (Accepted(r) ==>
            var next := WriteLoop(script, k + 1, data[pos + r.count..], Some(r.count));
            (done + [data[pos..]]) + next.offered == whole.offered && next.status == whole.status)
  {
    var r := WriteFile(script, k, data[pos..]);
    assert data[pos..][r.count..] == data[pos + r.count..];
    if Accepted(r) {
      var next := WriteLoop(script, k + 1, data[pos + r.count..], Some(r.count));
      assert WriteLoop(script, k, data[pos..], last).offered == [data[pos..]] + next.offered;
    }
  }

  /** The calls of the write loop: none exactly when there is nothing to
      send, the first is handed everything, each is handed a non-empty part
      of the data strictly shorter than the one before it (so there are at
      most as many calls as bytes), and the pipe takes a prefix of the data. */
  lemma {:induction false} WriteLoopShape(script: seq<WriteReply>, k: nat, rest: seq<byte>, last: Option<Dword>)
    requires |rest| < DwordLimit
    ensures var run := WriteLoop(script, k, rest, last);
      && (run.offered == [] <==> rest == [])
      && (run.offered != [] ==> run.offered[0] == rest)
      && run.sent <= rest
      && |run.offered| <= |rest|
      && (forall i :: 0 <= i < |run.offered| ==> 0 < |run.offered[i]| <= |rest|)
      && (forall i :: 0 < i < |run.offered| ==> |run.offered[i]| < |run.offered[i - 1]|)
    decreases |rest|
  {
    if |rest| > 0 {
      var r := WriteFile(script, k, rest);
      if Accepted(r) {
        var rest' := rest[r.count..];
        WriteLoopShape(script, k + 1, rest', Some(r.count));
        var tail := WriteLoop(script, k + 1, rest', Some(r.count));
        var run := WriteLoop(script, k, rest, last);
        assert run.offered == [rest] + tail.offered;
        assert rest == rest[..r.count] + rest';
        forall i | 1 <= i < |run.offered|
          ensures |run.offered[i]| < |run.offered[i - 1]|
        {
          assert run.offered[i] == tail.offered[i - 1];
        }
      }
    }
  }

  /** Every buffer in `offered` is a suffix of `rest` whose preceding bytes
      all appear, in order, at the start of `sent`. */
  predicate HandsOutUnsentSuffixes(offered: seq<seq<byte>>, sent: seq<byte>, rest: seq<byte>) {
    forall i :: 0 <= i < |offered| ==>
      && |offered[i]| <= |rest|
      && offered[i] == rest[|rest| - |offered[i]|..]
      && rest[..|rest| - |offered[i]|] <= sent
  }

  /** The buffers handed out one after the other, starting at the `k`-th
      call: each buffer after the first is what is left of the one before it
      once the bytes the previous `WriteFile` call reported are dropped. */
  predicate Resumes(script: seq<WriteReply>, k: nat, offered: seq<seq<byte>>)
    decreases |offered|
  {
    |offered| <= 1 ||
    (offered[1] == offered[0][WriteFile(script, k, offered[0]).count..] && Resumes(script, k + 1, offered[1..]))
  }

  /** Each `WriteFile` call after the first starts right after the bytes the
      previous call wrote; with `WriteLoopShape` (the first call gets all the
      data) this fixes every buffer handed out. */
  lemma {:induction false} WriteLoopResumesWherePreviousStopped(script: seq<WriteReply>, k: nat, rest: seq<byte>, last: Option<Dword>)
    requires |rest| < DwordLimit
    ensures Resumes(script, k, WriteLoop(script, k, rest, last).offered)
    decreases |rest|
  {
    if |rest| > 0 {
      var r := WriteFile(script, k, rest);
      if Accepted(r) {
        var rest' := rest[r.count..];
        WriteLoopResumesWherePreviousStopped(script, k + 1, rest', Some(r.count));
        WriteLoopShape(script, k + 1, rest', Some(r.count));
        var tail := WriteLoop(script, k + 1, rest', Some(r.count));
        assert ([rest] + tail.offered)[1..] == tail.offered;
      }
    }
  }

  /** `Resumes` call by call: buffer `i` is buffer `i - 1` without the bytes
      call `k + i - 1` wrote. */
  lemma {:induction false} ResumesAt(script: seq<WriteReply>, k: nat, offered: seq<seq<byte>>, i: nat)
    requires Resumes(script, k, offered)
    requires 0 < i < |offered|
    ensures offered[i] == offered[i - 1][WriteFile(script, k + i - 1, offered[i - 1]).count..]
    decreases i
  {
    if i > 1 {
      ResumesAt(script, k + 1, offered[1..], i - 1);
    }
  }

  /** Each `WriteFile` call is handed a suffix of the data, and the bytes
      before that suffix are the first bytes the pipe receives, in order.
      Exactly which suffix each call gets follows from `ResumesAt`. */
  lemma {:induction false} WriteLoopOffersUnsentSuffix(script: seq<WriteReply>, k: nat, rest: seq<byte>, last: Option<Dword>)
    requires |rest| < DwordLimit
    ensures var run := WriteLoop(script, k, rest, last);
      HandsOutUnsentSuffixes(run.offered, run.sent, rest)
    decreases |rest|
  {
    if |rest| > 0 {
      var r := WriteFile(script, k, rest);
      if Accepted(r) {
        var rest' := rest[r.count..];
        WriteLoopOffersUnsentSuffix(script, k + 1, rest', Some(r.count));
        var tail := WriteLoop(script, k + 1, rest', Some(r.count));
        HandsOutNextSuffix(rest, r.count, tail.offered, tail.sent);
      }
    }
  }

  /** One accepted call of `c` bytes, followed by calls that hand out the
      unsent suffixes of what is left, hands out the unsent suffixes of the
      whole. */
  lemma HandsOutNextSuffix(rest: seq<byte>, c: nat, offered: seq<seq<byte>>, sent: seq<byte>)
    requires c <= |rest|
    requires HandsOutUnsentSuffixes(offered, sent, rest[c..])
    ensures HandsOutUnsentSuffixes([rest] + offered, rest[..c] + sent, rest)
  {
    var all := [rest] + offered;
    forall i | 0 <= i < |all|
      ensures |all[i]| <= |rest|
      ensures all[i] == rest[|rest| - |all[i]|..]
      ensures rest[..|rest| - |all[i]|] <= rest[..c] + sent
    {
      if i > 0 {
        var o := offered[i - 1];
        assert all[i] == o;
        assert o == rest[c..][|rest| - c - |o|..];
        assert rest[..|rest| - |o|] == rest[..c] + rest[c..][..|rest| - c - |o|];
      }
    }
  }

  /** Every call but the last got a reply that lets the loop go on. */
  predicate AcceptedBeforeLast(script: seq<WriteReply>, k: nat, offered: seq<seq<byte>>) {
    forall i :: 0 <= i < |offered| - 1 ==> Accepted(WriteFile(script, k + i, offered[i]))
  }

  /** The loop stops at the first refused call: every call but the last was
      accepted, and the one after a refusal is never made. */
  lemma {:induction false} WriteLoopStopsAtFirstRefusal(script: seq<WriteReply>, k: nat, rest: seq<byte>, last: Option<Dword>)
    requires |rest| < DwordLimit
    ensures AcceptedBeforeLast(script, k, WriteLoop(script, k, rest, last).offered)
    decreases |rest|
  {
    if |rest| > 0 {
      var r := WriteFile(script, k, rest);
      if Accepted(r) {
        var rest' := rest[r.count..];
        WriteLoopStopsAtFirstRefusal(script, k + 1, rest', Some(r.count));
        var tail := WriteLoop(script, k + 1, rest', Some(r.count));
        assert AcceptedBeforeLast(script, k + 1, tail.offered);
        var run := WriteLoop(script, k, rest, last);
        assert run.offered == [rest] + tail.offered;
        forall i | 0 <= i < |run.offered| - 1
          ensures Accepted(WriteFile(script, k + i, run.offered[i]))
        {
          if i > 0 {
            assert run.offered[i] == tail.offered[i - 1];
            assert Accepted(WriteFile(script, (k + 1) + (i - 1), tail.offered[i - 1]));
            assert k + i == (k + 1) + (i - 1);
          }
        }
      }
    }
  }

  /** What the helper returns. Nothing to write: the count of the previous
      call (uninitialised at the start). Everything sent: the count of the
      last call, which took the whole buffer it was handed. Anything left
      unsent: -1, after a final call that failed or wrote nothing. */
  lemma {:induction false} WriteLoopStatus(script: seq<WriteReply>, k: nat, rest: seq<byte>, last: Option<Dword>)
    requires |rest| < DwordLimit
    ensures var run := WriteLoop(script, k, rest, last);
      && (run.offered == [] <==> rest == [])
      && (rest == [] ==> run.status == Returned(last))
      && (rest != [] && run.sent == rest ==>
            var n := |run.offered| - 1;
            && Accepted(WriteFile(script, k + n, run.offered[n]))
            && WriteFile(script, k + n, run.offered[n]).count == |run.offered[n]|
            && |run.offered[n]| <= |rest|
            && run.status == Some(ToInt32(|run.offered[n]|)))
      && (run.sent != rest ==>
            var n := |run.offered| - 1;
            && run.offered != []
            && !Accepted(WriteFile(script, k + n, run.offered[n]))
            && run.status == Some(-1))
    decreases |rest|
  {
    WriteLoopShape(script, k, rest, last);
    if |rest| > 0 {
      var r := WriteFile(script, k, rest);
      if Accepted(r) {
        var rest' := rest[r.count..];
        WriteLoopStatus(script, k + 1, rest', Some(r.count));
        var tail := WriteLoop(script, k + 1, rest', Some(r.count));
        var run := WriteLoop(script, k, rest, last);
        assert run.offered == [rest] + tail.offered;
        assert rest == rest[..r.count] + rest';
        assert run.sent == rest <==> tail.sent == rest';
        if rest' != [] {
          var n := |tail.offered| - 1;
          assert run.offered[n + 1] == tail.offered[n];
          assert k + (n + 1) == (k + 1) + n;
        }
      }
    }
  }

  /** A script whose calls all succeed with at least one byte, for as many
      calls as there are bytes to send. */
  predicate Cooperative(script: seq<WriteReply>, k: nat, length: nat) {
    && k + length <= |script|
    && forall i :: k <= i < k + length ==> script[i].success && script[i].count > 0
  }

  /** When every `WriteFile` call succeeds with a positive count, the whole
      buffer reaches the pipe. */
  lemma {:induction false} WriteLoopCompletes(script: seq<WriteReply>, k: nat, rest: seq<byte>, last: Option<Dword>)
    requires |rest| < DwordLimit
    requires Cooperative(script, k, |rest|)
    ensures WriteLoop(script, k, rest, last).sent == rest
    decreases |rest|
  {
    if |rest| > 0 {
      var r := WriteFile(script, k, rest);
      assert script[k].success && script[k].count > 0;
      assert Accepted(r);
      var rest' := rest[r.count..];
      CooperativeLater(script, k, |rest|, |rest'|);
      WriteLoopCompletes(script, k + 1, rest', Some(r.count));
      assert rest == rest[..r.count] + rest';
    }
  }

  lemma CooperativeLater(script: seq<WriteReply>, k: nat, length: nat, length': nat)
    requires Cooperative(script, k, length)
    requires length' < length
    ensures Cooperative(script, k + 1, length')
  {
    forall i | k + 1 <= i < k + 1 + length'
      ensures script[i].success && script[i].count > 0
    {
      assert k <= i < k + length;
    }
  }

  /** A write over a pipe that accepts every call sends the whole buffer and
      returns the count of the last `WriteFile` call, which is not the total
      once more than one call was needed. */
  lemma WriteReturnsLastCount(script: seq<WriteReply>, data: seq<byte>)
    requires 0 < |data| < DwordLimit
    requires Cooperative(script, 0, |data|)
    ensures var run := Write(script, data); var n := |run.offered| - 1;
      && run.sent == data
      && 0 <= n < |script|
      && |run.offered[n]| <= |data|
      && WriteFile(script, n, run.offered[n]).count == |run.offered[n]|
      && run.status == Some(ToInt32(|run.offered[n]|))
      && (n > 0 ==> |run.offered[n]| < |data|)
  {
    WriteLoopCompletes(script, 0, data, None);
    WriteLoopStatus(script, 0, data, None);
    WriteLoopShape(script, 0, data, None);
    var run := Write(script, data);
    var n := |run.offered| - 1;
    if n > 0 {
      assert |run.offered[n]| < |run.offered[n - 1]| <= |data|;
    }
  }

  /** The quirk of the cast to `int`: a single successful call that writes
      4294967295 bytes makes the helper return -1, the value that otherwise
      means failure. */
  lemma WriteSuccessReadsAsFailure(script: seq<WriteReply>, data: seq<byte>)
    requires |data| == DwordLimit - 1
    requires |script| > 0 && script[0].success && script[0].count >= |data|
    ensures Write(script, data).sent == data
    ensures Write(script, data).status == Some(-1)
  {
    var r := WriteFile(script, 0, data);
    assert r.count == |data|;
    assert data[r.count..] == [];
    assert data[..r.count] == data;
    assert WriteLoop(script, 1, [], Some(r.count)) == WriteRun(Some(-1), [], []);
  }

  // ---------------------------------------------------------------------
  // Read
  // ---------------------------------------------------------------------

  /** What one `ReadFile` call reports: whether it succeeded, and the bytes
      waiting in the pipe. */
  datatype ReadReply = ReadReply(success: bool, available: seq<byte>)

  /** A `ReadFile` call, recorded with the number of bytes it was asked for. */
  datatype ReadCall = ReadFileCall(length: Dword)

  /** The reply the next `ReadFile` call gets: the first scripted one, or a
      failure once the script is used up. */
  function NextReply(replies: seq<ReadReply>): (r: ReadReply)
    ensures replies == [] ==> !r.success
    ensures replies != [] ==> r == replies[0]
  {
    if replies == [] then ReadReply(false, []) else replies[0]
  }

  /** The reading end of the pipe: the replies its remaining `ReadFile`
      calls will get, in call order, and the log of the calls made on it. */
  class ReadPipe {
    var replies: seq<ReadReply>
    var calls: seq<ReadCall>

    constructor (replies: seq<ReadReply>)
      ensures this.replies == replies && calls == []
    {
      this.replies := replies;
      calls := [];
    }

    /** `ReadFile` into the caller's buffer: it uses up the next reply and
        logs the call; on success it copies as many of the waiting bytes as
        fit in `length`. */
    method ReadFile(data: array<byte>, length: Dword) returns (success: bool, count: Dword)
      requires length <= data.Length
      modifies this, data
      ensures replies == if old(replies) == [] then [] else old(replies)[1..]
      ensures calls == old(calls) + [ReadFileCall(length)]
      ensures var reply := NextReply(old(replies));
        && success == reply.success
        && count == (if success then Min(|reply.available|, length) else 0)
        && data[..count] == reply.available[..count]
      ensures data[count..] == old(data[count..])
    {
      var reply := NextReply(replies);
      replies := if replies == [] then [] else replies[1..];
      calls := calls + [ReadFileCall(length)];
      success := reply.success;
      count := if success then Min(|reply.available|, length) else 0;
      forall i | 0 <= i < count {
        data[i] := reply.available[i];
      }
    }
  }

  /** `freerds_named_pipe_read`: one `ReadFile` call, no loop to fill the
      buffer; -1 when it fails or reads nothing, otherwise the count read
      (converted to `int`). The pipe's log shows the single call. */
  method NamedPipeRead(pipe: ReadPipe, data: array<byte>, length: Dword) returns (status: int)
    requires length <= data.Length
    modifies pipe, data
    ensures pipe.calls == old(pipe.calls) + [ReadFileCall(length)]
    ensures pipe.replies == if old(pipe.replies) == [] then [] else old(pipe.replies)[1..]
    ensures var reply := NextReply(old(pipe.replies));
      var n := if reply.success then Min(|reply.available|, length) else 0;
      && (n == 0 <==> !reply.success || reply.available == [] || length == 0)
      && (n == 0 ==> status == -1 && data[..] == old(data[..]))
      && (n > 0 ==> n <= length && status == ToInt32(n))
      && (n > 0 && length <= MaxInt32 ==> 0 < status <= length)
      && data[..n] == reply.available[..n]
      && data[n..] == old(data[n..])
  {
    var total: Dword := 0;
    var success, numberOfBytesRead := pipe.ReadFile(data, length);
    if !success || numberOfBytesRead == 0 {
      return -1;
    }
    total := total + numberOfBytesRead;
    status := ToInt32(total);
  }

  // ---------------------------------------------------------------------
  // Clean
  // ---------------------------------------------------------------------

  /** The files of the local file system, and the ones `DeleteFileA` cannot
      remove. */
  class FileSystem {
    var files: set<string>
    var undeletable: set<string>

    constructor (files: set<string>, undeletable: set<string>)
      ensures this.files == files && this.undeletable == undeletable
    {
      this.files := files;
      this.undeletable := undeletable;
    }

    /** `PathFileExistsA`. */
    method PathFileExists(path: string) returns (found: bool)
      ensures found <==> path in files
    {
      found := path in files;
    }

    /** `DeleteFileA`: removes the file unless it is missing or cannot be
        removed; reports whether it did. */
    method DeleteFile(path: string) returns (ok: bool)
      modifies this`files
      ensures ok <==> path in old(files) && path !in undeletable
      ensures files == if ok then old(files) - {path} else old(files)
    {
      ok := path in files && path !in undeletable;
      if ok {
        files := files - {path};
      }
    }
  }

  /** `freerds_named_pipe_clean`: removes the socket file behind the pipe of
      `(sessionId, endpoint)` and returns 1 when that file existed, 0
      otherwise. The status does not depend on whether the deletion
      succeeded. */
  method NamedPipeClean(fs: FileSystem, sessionId: Dword, endpoint: CString, socketPathOf: string -> string)
    returns (status: int)
    modifies fs`files
    ensures var path := socketPathOf(PipeName.Name(sessionId, endpoint));
      && status == (if path in old(fs.files) then 1 else 0)
      && fs.files == (if path in old(fs.files) && path !in fs.undeletable then old(fs.files) - {path} else old(fs.files))
  {
    status := 0;
    var pipeName := PipeName.Name(sessionId, endpoint);
    var filename := socketPathOf(pipeName);
    var found := fs.PathFileExists(filename);
    if found {
      var _ := fs.DeleteFile(filename);
      status := 1;
    }
  }

  /** Cleaning twice: the second call reports 1 again only when the file
      could not be deleted the first time. */
  method CleanTwice(fs: FileSystem, sessionId: Dword, endpoint: CString, socketPathOf: string -> string)
    returns (first: int, second: int)
    modifies fs`files
    ensures var path := socketPathOf(PipeName.Name(sessionId, endpoint));
      && first == (if path in old(fs.files) then 1 else 0)
      && second == (if path in old(fs.files) && path in fs.undeletable then 1 else 0)
      && path !in fs.files - fs.undeletable
  {
    first := NamedPipeClean(fs, sessionId, endpoint, socketPathOf);
    second := NamedPipeClean(fs, sessionId, endpoint, socketPathOf);
  }

  // ---------------------------------------------------------------------
  // Connect
  // ---------------------------------------------------------------------

  /** A `HANDLE` as `CreateFileA` returns it. */
  datatype Handle = NullHandle | InvalidHandleValue | PipeHandle(id: nat)

  /** The operating-system calls `connect` makes, in order. The other
      arguments of `CreateFileA` are constants (read and write access, no
      sharing, open an existing pipe). */
  datatype PipeCall = WaitNamedPipe(name: string, timeout: Dword) | CreateFile(name: string)

  /** The pipe server as `connect` sees it: whether a wait on a pipe name
      succeeds, what opening a pipe name returns, and the log of the calls
      made on it so far. */
  class PipeServer {
    const waitNamedPipe: (string, Dword) -> bool
    const createFile: string -> Handle
    var log: seq<PipeCall>

    constructor (waitNamedPipe: (string, Dword) -> bool, createFile: string -> Handle)
      ensures this.waitNamedPipe == waitNamedPipe && this.createFile == createFile && log == []
    {
      this.waitNamedPipe := waitNamedPipe;
      this.createFile := createFile;
      log := [];
    }

    /** `WaitNamedPipeA`: reports whether the pipe became available, and
        logs the call. */
    method WaitNamedPipeA(name: string, timeout: Dword) returns (ok: bool)
      modifies this
      ensures ok == waitNamedPipe(name, timeout)
      ensures log == old(log) + [WaitNamedPipe(name, timeout)]
    {
      ok := waitNamedPipe(name, timeout);
      log := log + [WaitNamedPipe(name, timeout)];
    }

    /** `CreateFileA` on a pipe name: returns the handle, and logs the call. */
    method CreateFileA(name: string) returns (h: Handle)
      modifies this
      ensures h == createFile(name)
      ensures log == old(log) + [CreateFile(name)]
    {
      h := createFile(name);
      log := log + [CreateFile(name)];
    }
  }

  /** `freerds_named_pipe_connect`: waits for the pipe of `(sessionId,
      endpoint)` with the caller's time-out, then opens it. Returns the
      null handle when the wait fails (without trying to open) or when the
      open yields null or `INVALID_HANDLE_VALUE`, and the opened handle
      otherwise. The server's log shows the calls made. */
  method NamedPipeConnect(server: PipeServer, sessionId: Dword, endpoint: CString, timeout: Dword)
    returns (h: Handle)
    modifies server
    ensures var name := PipeName.Name(sessionId, endpoint);
      var waited := server.waitNamedPipe(name, timeout);
      && (!waited ==> server.log == old(server.log) + [WaitNamedPipe(name, timeout)] && h == NullHandle)
      && (waited ==> server.log == old(server.log) + [WaitNamedPipe(name, timeout), CreateFile(name)])
      && (h.PipeHandle? <==> waited && server.createFile(name).PipeHandle?)
      && (h.PipeHandle? ==> h == server.createFile(name))
      && h != InvalidHandleValue
  {
    var pipeName := PipeName.Name(sessionId, endpoint);
    var waited := server.WaitNamedPipeA(pipeName, timeout);
    if !waited {
      return NullHandle;
    }
    var hNamedPipe := server.CreateFileA(pipeName);
    if hNamedPipe == NullHandle || hNamedPipe == InvalidHandleValue {
      return NullHandle;
    }
    h := hNamedPipe;
  }
}
