/** The request body that can be read again: two buffers and what any sequence of reads sees. */
module BodyReader {
  import opened Messages

  type Byte = bv8

  /** What is left of the current pass, and what the pass has handed out. */
  datatype Buffers = Buffers(read: seq<Byte>, back: seq<Byte>)
  {
    function Whole(): seq<Byte> {
      back + read
    }

    /** The bytes that a read into a buffer of `size` returns; nothing at the end of a pass. */
    function Got(size: nat): Option<seq<Byte>> {
      if read == [] && size > 0 then None else Some(if size < |read| then read[..size] else read)
    }

    function Next(size: nat): Buffers {
      if Got(size).None? then Buffers(Whole(), [])
      else Buffers(read[|Got(size).value|..], back + Got(size).value)
    }
  }

  class ReusableReader {
    var readBuf: seq<Byte>
    var backBuf: seq<Byte>

    ghost function Model(): Buffers
      reads this
    {
      Buffers(readBuf, backBuf)
    }

    constructor (body: seq<Byte>)
      ensures Model() == Buffers(body, [])
    {
      readBuf, backBuf := body, [];
    }

    /** Moves bytes to `p` and a copy of them to the back buffer. */
    method Tee(p: array<Byte>) returns (n: nat, eof: bool)
      modifies p, this
      ensures n <= p.Length && p[n..] == old(p[n..])
      ensures eof <==> old(Model()).Got(p.Length).None?
      ensures if eof then n == 0 && Model() == old(Model())
              else Some(p[..n]) == old(Model()).Got(p.Length) && Model() == old(Model()).Next(p.Length)
    {
      if readBuf == [] {
        return 0, p.Length > 0;
      }
      n, eof := 0, false;
      while n < p.Length && n < |readBuf|
        invariant n <= p.Length && n <= |readBuf| && unchanged(this)
        invariant p[..n] == readBuf[..n]
        invariant forall k :: n <= k < p.Length ==> p[k] == old(p[k])
      {
        p[n] := readBuf[n];
        n := n + 1;
        assert p[..n] == p[..n - 1] + [readBuf[n - 1]];
      }
      assert p[n..] == old(p[n..]);
      assert p[..n] == if p.Length < |readBuf| then readBuf[..p.Length] else readBuf;
      backBuf := backBuf + p[..n];
      readBuf := readBuf[n..];
    }

    /** At the end of a pass the reader rewinds itself. */
    method Read(p: array<Byte>) returns (n: nat, eof: bool)
      modifies p, this
      ensures n <= p.Length && p[n..] == old(p[n..])
      ensures eof ==> old(Model()).Got(p.Length) == None && n == 0
      ensures !eof ==> old(Model()).Got(p.Length) == Some(p[..n])
      ensures Model() == old(Model()).Next(p.Length)
      ensures Model().Whole() == old(Model()).Whole()
    {
      n, eof := Tee(p);
      if eof {
        Reset();
      }
    }

    method Reset()
      modifies this
      ensures Model() == Buffers(old(readBuf) + old(backBuf), [])
    {
      readBuf, backBuf := readBuf + backBuf, [];
    }

    /** Reads to the end of the pass, with buffers of any sizes. */
    method ReadAll(sizes: nat -> nat) returns (bytes: seq<Byte>)
      requires forall i :: sizes(i) > 0
      modifies this
      ensures bytes == old(readBuf)
      ensures Model() == Buffers(old(Model()).Whole(), [])
    {
      bytes := [];
      var i := 0;
      while true
        invariant bytes + readBuf == old(readBuf)
        invariant Model().Whole() == old(Model()).Whole()
        decreases |readBuf|
      {
        var p := new Byte[sizes(i)];
        var n, eof := Read(p);
        if eof {
          return;
        }
        bytes := bytes + p[..n];
        i := i + 1;
      }
    }
  }

  // ----- any sequence of reads

  function After(b: Buffers, sizes: seq<nat>): Buffers {
    if sizes == [] then b else After(b, sizes[..|sizes| - 1]).Next(sizes[|sizes| - 1])
  }

  /** What the reads return. */
  function Trace(b: Buffers, sizes: seq<nat>): seq<Option<seq<Byte>>> {
    if sizes == [] then []
    else Trace(b, sizes[..|sizes| - 1]) + [After(b, sizes[..|sizes| - 1]).Got(sizes[|sizes| - 1])]
  }

  /** The bytes up to each end of the body, and the bytes since the last. */
  datatype Passes = Passes(done: seq<seq<Byte>>, current: seq<Byte>)

  function PassesOf(trace: seq<Option<seq<Byte>>>): Passes {
    if trace == [] then Passes([], [])
    else
      var p := PassesOf(trace[..|trace| - 1]);
      var last := trace[|trace| - 1];
      if last.None? then Passes(p.done + [p.current], []) else Passes(p.done, p.current + last.value)
  }

  /** Whatever the sizes of the reads, every pass returns the whole body, and the pass under way has
      returned a first part of it and will return the rest. */
  lemma {:induction false} EveryPassIsTheBody(body: seq<Byte>, sizes: seq<nat>)
    ensures
      var b := After(Buffers(body, []), sizes);
      var p := PassesOf(Trace(Buffers(body, []), sizes));
      && (forall i :: 0 <= i < |p.done| ==> p.done[i] == body)
      && p.current == b.back && p.current + b.read == body
  {
    var start := Buffers(body, []);
    if sizes != [] {
      var before := sizes[..|sizes| - 1];
      EveryPassIsTheBody(body, before);
      assert Trace(start, sizes)[..|sizes| - 1] == Trace(start, before) by {
        TraceLength(start, before);
      }
      TraceLength(start, before);
      var b := After(start, before);
      assert b.Whole() == body;
      assert Trace(start, sizes)[|sizes| - 1] == b.Got(sizes[|sizes| - 1]);
    }
  }

  lemma {:induction false} TraceLength(b: Buffers, sizes: seq<nat>)
    ensures |Trace(b, sizes)| == |sizes|
  {
    if sizes != [] {
      TraceLength(b, sizes[..|sizes| - 1]);
    }
  }
}
