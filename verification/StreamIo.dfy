/**
 Reading and writing whole buffers over a stream that transfers as much as it likes per call: `read_full`, `read`
 and `write`, with the waits in between.
 */
module StreamIo {

  type Byte = x: nat | x < 256

  datatype Errno = Ok | Again | Eof | Other(code: nat)

  /** One call to the kernel: what was asked for, what was transferred, and the error that came with it. */
  datatype Call = Call(size: nat, n: nat, err: Errno)

  /** The kernel transferred less than it was asked to, and did not say why. */
  predicate Silent(c: Call) {
    c.n < c.size && c.err == Ok
  }

  /** A call that transferred only a part and says that waiting will help. */
  predicate Retried(c: Call) {
    c.n < c.size && c.err == Again
  }

  function Transferred(log: seq<Call>): nat {
    if log == [] then 0 else Transferred(log[..|log| - 1]) + log[|log| - 1].n
  }

  function Min(a: nat, b: nat): nat {
    if a < b then a else b
  }

  /** `after` is the buffer `before` with `data` written at `at`. */
  ghost predicate Filled(before: seq<Byte>, after: seq<Byte>, at: nat, data: seq<Byte>) {
    at + |data| <= |before| && after == before[..at] + data + before[at + |data|..]
  }

  lemma NothingYet(a: seq<Byte>, at: nat)
    requires at <= |a|
    ensures Filled(a, a, at, []) && Transferred([]) == 0
  {
  }

  lemma FilledOn(a: seq<Byte>, b: seq<Byte>, c: seq<Byte>, at: nat, first: seq<Byte>, second: seq<Byte>)
    requires Filled(a, b, at, first) && Filled(b, c, at + |first|, second)
    ensures Filled(a, c, at, first + second)
  {
    assert b[..at + |first|] == a[..at] + first;
    assert b[at + |first| + |second|..] == a[at + |first| + |second|..];
  }

  /** The first n of what is left after the first m. */
  lemma TakeOn(s: seq<Byte>, m: nat, n: nat)
    requires m + n <= |s|
    ensures s[..m] + s[m..][..n] == s[..m + n] && s[m..][n..] == s[m + n..]
  {
  }

  /** `after` is what had been sent `before`, and then `data[at..at + n]`. */
  ghost predicate Sent(before: seq<Byte>, after: seq<Byte>, data: seq<Byte>, at: nat, n: nat) {
    at + n <= |data| && after == before + data[at..at + n]
  }

  lemma SentOn(a: seq<Byte>, b: seq<Byte>, c: seq<Byte>, data: seq<Byte>, at: nat, m: nat, n: nat)
    requires Sent(a, b, data, at, m) && Sent(b, c, data, at + m, n)
    ensures Sent(a, c, data, at, m + n)
  {
    assert data[at..at + m] + data[at + m..at + m + n] == data[at..at + m + n];
  }

  lemma NothingSent(a: seq<Byte>, data: seq<Byte>, at: nat)
    requires at <= |data|
    ensures Sent(a, a, data, at, 0) && Transferred([]) == 0
  {
  }

  lemma TransferredOn(calls: seq<Call>, c: Call)
    ensures Transferred(calls + [c]) == Transferred(calls) + c.n
  {
    assert (calls + [c])[..|calls|] == calls;
  }

  /**
   A nonblocking descriptor. `script` is what the kernel will do, call by call: the most it transfers and the
   error it gives; after that the stream has ended.
   */
  class Stream {
    var input: seq<Byte>
    var output: seq<Byte>
    var script: seq<(nat, Errno)>
    ghost var log: seq<Call>
    ghost var waits: nat

    constructor (input: seq<Byte>, script: seq<(nat, Errno)>)
      ensures this.input == input && this.script == script && output == [] && log == [] && waits == 0
    {
      this.input, this.script, output, log, waits := input, script, [], [], 0;
    }

    method Next() returns (limit: nat, err: Errno)
      modifies this`script
      ensures if old(script) == [] then limit == 0 && err == Eof && script == []
              else old(script) == [(limit, err)] + script
    {
      limit, err := 0, Eof;
      if script != [] {
        limit, err := script[0].0, script[0].1;
        script := script[1..];
      }
    }

    /** Moves the next bytes of the input to `buf[at..]`. */
    method Read(buf: array<Byte>, at: nat, len: nat) returns (n: nat, err: Errno)
      requires at + len <= buf.Length
      modifies this`input, this`script, this`log, buf
      ensures n <= len && n <= |old(input)| && input == old(input)[n..] && log == old(log) + [Call(len, n, err)]
      ensures Filled(old(buf[..]), buf[..], at, old(input)[..n])
      ensures |script| < |old(script)| || (script == [] && err == Eof)
    {
      var limit: nat;
      limit, err := Next();
      n := Min(limit, Min(len, |input|));
      for i := 0 to n
        invariant forall j :: 0 <= j < buf.Length ==> buf[j] == if at <= j < at + i then input[j - at] else old(buf[j])
        modifies buf
      {
        buf[at + i] := input[i];
      }
      input := input[n..];
      log := log + [Call(len, n, err)];
    }

    /** Sends the first bytes of `data[at..]`. */
    method Write(data: array<Byte>, at: nat, size: nat) returns (n: nat, err: Errno)
      requires at + size <= data.Length
      modifies this`output, this`script, this`log
      ensures n <= size && Sent(old(output), output, data[..], at, n) && log == old(log) + [Call(size, n, err)]
      ensures |script| < |old(script)| || (script == [] && err == Eof)
    {
      var limit: nat;
      limit, err := Next();
      n := Min(limit, size);
      output := output + data[at..at + n];
      log := log + [Call(size, n, err)];
    }

    /** `fd::wait` */
    method Wait()
      modifies this`waits
      ensures waits == old(waits) + 1
    {
      waits := waits + 1;
    }
  }

  /** All calls but the last were partial, were followed by a wait, and are not what the result comes from. */
  ghost predicate AllRetried(calls: seq<Call>) {
    calls != [] && forall i :: 0 <= i < |calls| - 1 ==> Retried(calls[i])
  }

  /** All calls were partial and were followed by a wait. */
  ghost predicate AllWaited(calls: seq<Call>) {
    forall i :: 0 <= i < |calls| ==> Retried(calls[i])
  }

  lemma NoneYet()
    ensures AllWaited([])
  {
  }

  lemma OneMoreCall(calls: seq<Call>, c: Call)
    requires AllWaited(calls)
    ensures AllRetried(calls + [c]) && (Retried(c) ==> AllWaited(calls + [c]))
  {
  }

  /**
   Fills `buf[start..start + len]` from the stream. What was read is the next input, in order, and nothing else
   in the buffer changes. It reports success for less only if the kernel transferred less without an error.
   */
  method ReadFull(s: Stream, buf: array<Byte>, start: nat, len: nat)
    returns (rd: nat, err: Errno, ghost calls: seq<Call>)
    requires start + len <= buf.Length
    modifies s, buf
    ensures rd <= len && rd <= |old(s.input)| && s.input == old(s.input)[rd..]
    ensures Filled(old(buf[..]), buf[..], start, old(s.input)[..rd])
    ensures s.output == old(s.output) && s.log == old(s.log) + calls && AllRetried(calls)
    ensures s.waits == old(s.waits) + |calls| - 1 && rd == Transferred(calls)
    ensures err == Ok && rd < len <==> Silent(calls[|calls| - 1])
    ensures rd == len ==> err == Ok
    ensures rd < len ==> err == calls[|calls| - 1].err != Again
  {
    hide Filled, Transferred, AllRetried, AllWaited;
    rd, calls := 0, [];
    NothingYet(buf[..], start);
    NoneYet();
    var at, left := start, len;
    while true
      invariant at == start + rd && left == len - rd && rd <= |old(s.input)| && s.input == old(s.input)[rd..]
      invariant rd <= len && (calls != [] ==> rd < len)
      invariant Filled(old(buf[..]), buf[..], start, old(s.input)[..rd])
      invariant s.output == old(s.output) && s.log == old(s.log) + calls && rd == Transferred(calls)
      invariant s.waits == old(s.waits) + |calls| && AllWaited(calls)
      decreases |s.script|
    {
      var n: nat;
      ghost var before := buf[..];
      n, err := s.Read(buf, at, left);
      TakeOn(old(s.input), rd, n);
      FilledOn(old(buf[..]), before, buf[..], start, old(s.input)[..rd], old(s.input)[rd..][..n]);
      OneMoreCall(calls, Call(left, n, err));
      TransferredOn(calls, Call(left, n, err));
      calls := calls + [Call(left, n, err)];
      rd := rd + n;
      left := left - n;
      if left == 0 {
        err := Ok;
        return;
      }
      if err == Again {
        at := at + n;
        s.Wait();
      } else {
        return;
      }
    }
  }

  /**
   Reads what is there, waiting only while there is nothing. All bytes come from the last call; success with
   fewer than asked for means that some were there, or that the kernel gave nothing without an error.
   */
  method Read(s: Stream, buf: array<Byte>, start: nat, len: nat) returns (rd: nat, err: Errno, ghost calls: seq<Call>)
    requires start + len <= buf.Length
    modifies s, buf
    ensures rd <= len && rd <= |old(s.input)| && s.input == old(s.input)[rd..]
    ensures Filled(old(buf[..]), buf[..], start, old(s.input)[..rd])
    ensures s.output == old(s.output) && s.log == old(s.log) + calls && AllRetried(calls)
    ensures s.waits == old(s.waits) + |calls| - 1 && rd == Transferred(calls) == calls[|calls| - 1].n
    ensures err == Ok && rd < len <==> Silent(calls[|calls| - 1]) || (Retried(calls[|calls| - 1]) && rd > 0)
    ensures rd == len ==> err == Ok
    ensures err != Ok ==> err == calls[|calls| - 1].err != Again
  {
    hide Filled, Transferred, AllRetried, AllWaited;
    rd, calls := 0, [];
    NothingYet(buf[..], start);
    NoneYet();
    var left := len;
    while true
      invariant rd == 0 && left == len && s.input == old(s.input) && (calls != [] ==> 0 < len)
      invariant Filled(old(buf[..]), buf[..], start, [])
      invariant s.output == old(s.output) && s.log == old(s.log) + calls && Transferred(calls) == 0
      invariant s.waits == old(s.waits) + |calls| && AllWaited(calls)
      decreases |s.script|
    {
      var n: nat;
      ghost var before := buf[..];
      n, err := s.Read(buf, start, left);
      FilledOn(old(buf[..]), before, buf[..], start, [], old(s.input)[..n]);
      assert [] + old(s.input)[..n] == old(s.input)[..n];
      OneMoreCall(calls, Call(left, n, err));
      TransferredOn(calls, Call(left, n, err));
      calls := calls + [Call(left, n, err)];
      rd := rd + n;
      left := left - n;
      if left == 0 {
        err := Ok;
        return;
      }
      if err == Again {
        if rd != 0 {
          err := Ok;
          return;
        }
        s.Wait();
      } else {
        return;
      }
    }
  }

  /** Delivers `data[start..start + size]`, in order and each byte once, up to the first error. */
  method Write(s: Stream, data: array<Byte>, start: nat, size: nat)
    returns (wr: nat, err: Errno, ghost calls: seq<Call>)
    requires start + size <= data.Length
    modifies s
    ensures wr <= size && Sent(old(s.output), s.output, data[..], start, wr)
    ensures s.input == old(s.input) && s.log == old(s.log) + calls && AllRetried(calls)
    ensures s.waits == old(s.waits) + |calls| - 1 && wr == Transferred(calls)
    ensures err == Ok && wr < size <==> Silent(calls[|calls| - 1])
    ensures wr == size ==> err == Ok
    ensures wr < size ==> err == calls[|calls| - 1].err != Again
  {
    hide Transferred, Sent;
    wr, calls := 0, [];
    NothingSent(s.output, data[..], start);
    var at, left := start, size;
    while true
      invariant at == start + wr && left == size - wr && wr <= size && (calls != [] ==> wr < size)
      invariant Sent(old(s.output), s.output, data[..], start, wr)
      invariant s.input == old(s.input) && s.log == old(s.log) + calls && wr == Transferred(calls)
      invariant s.waits == old(s.waits) + |calls| && AllWaited(calls)
      decreases |s.script|
    {
      var n: nat;
      ghost var before := s.output;
      n, err := s.Write(data, at, left);
      SentOn(old(s.output), before, s.output, data[..], start, wr, n);
      OneMoreCall(calls, Call(left, n, err));
      TransferredOn(calls, Call(left, n, err));
      calls := calls + [Call(left, n, err)];
      wr := wr + n;
      left := left - n;
      if left == 0 {
        err := Ok;
        return;
      }
      if err == Again {
        at := at + n;
        s.Wait();
      } else {
        return;
      }
    }
  }
}
