/** streamFromFileToFile: open the source for reading and the destination
    for writing, choose the block size, then copy block by block through a
    byte buffer until the end of the source. Each read is a fallible call
    of the backend; any IOException (FileSystemException among them)
    becomes a SynapseException. */
module Streaming {
  import opened Java
  import opened Backend

  const DefaultStreamingBlockSize: string := "1024"

  const TransferErrorMessage: string := "Unexpected error during the file transfer"

  predicate IsDigit(c: char) { '0' <= c <= '9' }

  /** `s.matches("^\\d+$")`: one or more ASCII digits and nothing else. */
  predicate IsDigits(s: string)
  {
    |s| > 0 && forall k :: 0 <= k < |s| ==> IsDigit(s[k])
  }

  /** The block size string the stream uses: the configured one when it is
      all digits, the default "1024" otherwise (null included). */
  function ChosenBlockSize(configured: JString): (r: string)
    ensures configured.Str? && IsDigits(configured.value) ==> r == configured.value
    ensures !(configured.Str? && IsDigits(configured.value)) ==> r == DefaultStreamingBlockSize
    ensures IsDigits(r)
  {
    if configured.Null? || !IsDigits(configured.value) then
      assert IsDigits("1024") by { assert forall k :: 0 <= k < 4 ==> "1024"[k] in "0124"; }
      DefaultStreamingBlockSize
    else configured.value
  }

  /** The value of a string of decimal digits. */
  function DecimalValue(s: string): nat
    requires forall k :: 0 <= k < |s| ==> IsDigit(s[k])
  {
    if s == [] then 0
    else
      assert IsDigit(s[|s| - 1]);
      assert forall k :: 0 <= k < |s| - 1 ==> s[..|s| - 1][k] == s[k];
      DecimalValue(s[..|s| - 1]) * 10 + (s[|s| - 1] as int - '0' as int)
  }

  const IntMax: int := 0x7FFF_FFFF

  /** `new Integer(blockSize)` for the chosen block size: a value beyond
      Integer.MAX_VALUE throws NumberFormatException. */
  function BufferLength(configured: JString): (r: Result<nat>)
    ensures r.Ok? ==> r.value <= IntMax && r.value == DecimalValue(ChosenBlockSize(configured))
    ensures r.Throws? ==> r.error == NumberFormatException(ChosenBlockSize(configured))
                          && DecimalValue(ChosenBlockSize(configured)) > IntMax
  {
    var s := ChosenBlockSize(configured);
    var v := DecimalValue(s);
    if v > IntMax then Throws(NumberFormatException(s)) else Ok(v)
  }

  /** The block sizes a stream can use without looping forever: a size
      that parses to 0 gives an empty buffer, and reading into it returns 0
      forever. */
  predicate BufferUsable(configured: JString)
  {
    BufferLength(configured).Ok? ==> BufferLength(configured).value > 0
  }

  lemma DefaultBlockSize(configured: JString)
    requires !(configured.Str? && IsDigits(configured.value))
    ensures BufferLength(configured) == Ok(1024)
  {
    assert DecimalValue("1024") == 1024 by {
      assert "1024"[..3] == "102" && "102"[..2] == "10" && "10"[..1] == "1" && "1"[..0] == "";
    }
  }

  lemma ConfiguredBlockSize()
    ensures BufferLength(Str("4096")) == Ok(4096)
    ensures BufferLength(Str("0")) == Ok(0) && !BufferUsable(Str("0"))
  {
    assert IsDigits("4096") by { assert forall k :: 0 <= k < 4 ==> "4096"[k] in "0469"; }
    assert DecimalValue("4096") == 4096 by {
      assert "4096"[..3] == "409" && "409"[..2] == "40" && "40"[..1] == "4" && "4"[..0] == "";
    }
    assert IsDigits("0") && DecimalValue("0") == 0 by { assert "0"[..0] == ""; }
  }

  function Pow10(n: nat): nat { if n == 0 then 1 else 10 * Pow10(n - 1) }

  /** A digit string without a leading zero is worth at least 10^(length - 1). */
  lemma {:induction false} DecimalLowerBound(s: string)
    requires IsDigits(s) && s[0] != '0'
    ensures DecimalValue(s) >= Pow10(|s| - 1)
    decreases |s|
  {
    if |s| > 1 {
      var s' := s[..|s| - 1];
      assert s'[0] == s[0];
      assert IsDigits(s') by { assert forall k :: 0 <= k < |s'| ==> s'[k] == s[k]; }
      DecimalLowerBound(s');
      assert IsDigit(s[|s| - 1]);
    }
  }

  /** A configured block size of more than ten digits without a leading
      zero does not fit in an int: NumberFormatException. */
  lemma LongBlockSizeOverflows(v: string)
    requires IsDigits(v) && |v| > 10 && v[0] != '0'
    ensures BufferLength(Str(v)) == Throws(NumberFormatException(v))
  {
    DecimalLowerBound(v);
    Pow10Monotone(10, |v| - 1);
    assert Pow10(10) == 10_000_000_000;
  }

  lemma {:induction false} Pow10Monotone(m: nat, n: nat)
    requires m <= n
    ensures Pow10(m) <= Pow10(n)
    decreases n - m
  {
    if m < n {
      Pow10Monotone(m, n - 1);
    }
  }

  /* ----- The read/write loop. ----- */

  function Min(a: int, b: int): int { if a < b then a else b }

  /** What the loop leaves: the bytes written, the world after the reads,
      and whether a read threw. */
  datatype Pumped = Pumped(written: seq<byte>, world: World, failed: bool)

  /** The loop from source position pos on: every read takes one entry of
      the fault script; a read that does not fail returns the next
      min(bufLen, remaining) bytes, or -1 at the end. */
  function PumpFrom(data: seq<byte>, pos: nat, bufLen: nat, w: World): Pumped
    requires pos <= |data| && bufLen > 0
    decreases |data| - pos
  {
    var (w1, fail) := NextFault(w);
    if fail then Pumped([], w1, true)
    else if pos == |data| then Pumped([], w1, false)
    else
      var n := Min(bufLen, |data| - pos);
      var rest := PumpFrom(data, pos + n, bufLen, w1);
      Pumped(data[pos..pos + n] + rest.written, rest.world, rest.failed)
  }

  /** The loop writes the source bytes in order: what it wrote is a prefix
      of the rest of the source. */
  lemma {:induction false} PumpWritesPrefix(data: seq<byte>, pos: nat, bufLen: nat, w: World)
    requires pos <= |data| && bufLen > 0
    ensures var r := PumpFrom(data, pos, bufLen, w);
            |r.written| <= |data| - pos && r.written == data[pos..pos + |r.written|]
    decreases |data| - pos
  {
    var (w1, fail) := NextFault(w);
    if !fail && pos < |data| {
      var n := Min(bufLen, |data| - pos);
      PumpWritesPrefix(data, pos + n, bufLen, w1);
      var rest := PumpFrom(data, pos + n, bufLen, w1);
      assert data[pos..pos + n] + data[pos + n..pos + n + |rest.written|] == data[pos..pos + n + |rest.written|];
    }
  }

  /** The loop consumes the fault script and changes no node. */
  lemma {:induction false} PumpConsumes(data: seq<byte>, pos: nat, bufLen: nat, w: World)
    requires pos <= |data| && bufLen > 0
    ensures var r := PumpFrom(data, pos, bufLen, w);
            Consumes(w, r.world) && r.world.nodes == w.nodes && r.world.order == w.order
    decreases |data| - pos
  {
    var (w1, fail) := NextFault(w);
    NextFaultConsumes(w);
    if !fail && pos < |data| {
      var n := Min(bufLen, |data| - pos);
      PumpConsumes(data, pos + n, bufLen, w1);
      EvolvesTransitive(w, w1, PumpFrom(data, pos + n, bufLen, w1).world, {}, {});
    }
  }

  /** `while ((length = inputStream.read(buffer)) != -1) outputStream.write(buffer, 0, length)`
      over a buffer of bufLen bytes. */
  method Pump(data: seq<byte>, bufLen: nat, w0: World) returns (written: seq<byte>, w: World, failed: bool)
    requires bufLen > 0
    ensures Pumped(written, w, failed) == PumpFrom(data, 0, bufLen, w0)
  {
    var buffer := new byte[bufLen];
    var pos: nat := 0;
    ghost var target := PumpFrom(data, 0, bufLen, w0);
    written, w, failed := [], w0, false;
    while true
      invariant pos <= |data|
      invariant written + PumpFrom(data, pos, bufLen, w).written == target.written
      invariant PumpFrom(data, pos, bufLen, w).world == target.world
      invariant PumpFrom(data, pos, bufLen, w).failed == target.failed
      decreases |data| - pos
    {
      var w1, fail := NextFault(w).0, NextFault(w).1;
      if fail {
        w, failed := w1, true;
        return;
      }
      if pos == |data| {
        w := w1;
        return;
      }
      var length := Min(bufLen, |data| - pos);
      Read(buffer, data, pos, length);
      PumpStep(data, pos, bufLen, w, length, w1);
      ghost var rest := PumpFrom(data, pos + length, bufLen, w1);
      var chunk := buffer[..length];
      assert chunk == data[pos..pos + length];
      assert PumpFrom(data, pos, bufLen, w).written == chunk + rest.written;
      assert (written + chunk) + rest.written == written + (chunk + rest.written);
      written := written + chunk;
      pos, w := pos + length, w1;
    }
  }

  /** A loop that ends without a failed read has copied the whole rest of the source. */
  lemma {:induction false} PumpCompleteUnlessFailed(data: seq<byte>, pos: nat, bufLen: nat, w: World)
    requires pos <= |data| && bufLen > 0
    ensures !PumpFrom(data, pos, bufLen, w).failed ==> PumpFrom(data, pos, bufLen, w).written == data[pos..]
    decreases |data| - pos
  {
    var (w1, fail) := NextFault(w);
    if !fail && pos < |data| {
      var n := Min(bufLen, |data| - pos);
      PumpCompleteUnlessFailed(data, pos + n, bufLen, w1);
      assert data[pos..pos + n] + data[pos + n..] == data[pos..];
    }
  }

  /** inputStream.read(buffer) filling the first length bytes of the
      buffer from source position pos. */
  method Read(buffer: array<byte>, data: seq<byte>, pos: nat, length: nat)
    requires length <= buffer.Length && pos + length <= |data|
    modifies buffer
    ensures buffer[..length] == data[pos..pos + length]
  {
    for k := 0 to length
      invariant buffer[..k] == data[pos..pos + k]
    {
      buffer[k] := data[pos + k];
    }
  }

  /** One round of the loop, as PumpFrom unfolds it. */
  lemma PumpStep(data: seq<byte>, pos: nat, bufLen: nat, w: World, n: nat, w1: World)
    requires pos < |data| && bufLen > 0 && !NextFault(w).1
    requires n == Min(bufLen, |data| - pos) && w1 == NextFault(w).0
    ensures var rest := PumpFrom(data, pos + n, bufLen, w1);
            PumpFrom(data, pos, bufLen, w) == Pumped(data[pos..pos + n] + rest.written, rest.world, rest.failed)
  {
  }

  /** A loop in a world whose reads do not fail ends without failure,
      having copied everything. */
  lemma {:induction false} CalmPumpCopiesAll(data: seq<byte>, pos: nat, bufLen: nat, w: World)
    requires pos <= |data| && bufLen > 0 && Calm(w)
    ensures !PumpFrom(data, pos, bufLen, w).failed
    ensures PumpFrom(data, pos, bufLen, w).written == data[pos..]
    decreases |data| - pos
  {
    if w.faults != [] { assert !w.faults[0]; }
    assert !NextFault(w).1;
    var w1 := NextFault(w).0;
    NextFaultConsumes(w);
    CalmStaysCalm(w, w1);
    if pos == |data| {
      assert PumpFrom(data, pos, bufLen, w) == Pumped([], w1, false);
    } else {
      var n := Min(bufLen, |data| - pos);
      PumpStep(data, pos, bufLen, w, n, w1);
      CalmPumpCopiesAll(data, pos + n, bufLen, w1);
      assert data[pos..pos + n] + data[pos + n..] == data[pos..];
    }
  }

  /* ----- The whole stream. ----- */

  /** streamFromFileToFile(src, dst) with the configured block size. The
      source content is read as it is when the input stream opens. */
  function Stream(blockSize: JString, src: Path, dst: Option<Path>, w: World): (World, Result<()>)
    requires BufferUsable(blockSize)
  {
    var (w1, inFail) := NextFault(w);
    if inFail || !IsFile(w1, src) then (w1, Throws(SynapseException(TransferErrorMessage)))
    else if dst.None? then (w1, Throws(NullPointerException))
    else
      var (w2, outFail) := NextFault(w1);
      if outFail || IsFolder(w2, dst.value) then (w2, Throws(SynapseException(TransferErrorMessage)))
      else WriteStream(blockSize, w1.nodes[src].content, dst.value, w2)
  }

  /** With both streams open: the output is truncated, the buffer is
      allocated with the chosen size and the loop runs; what was written
      stays in the destination however the loop ends. */
  function WriteStream(blockSize: JString, data: seq<byte>, dst: Path, w: World): (World, Result<()>)
    requires BufferUsable(blockSize)
  {
    var w1 := Put(w, dst, File([]));
    match BufferLength(blockSize)
    case Throws(e) => (w1, Throws(e))
    case Ok(len) =>
      var p := PumpFrom(data, 0, len, w1);
      (Put(p.world, dst, File(p.written)),
       if p.failed then Throws(SynapseException(TransferErrorMessage)) else Ok(()))
  }

  /** Writing consumes the script and changes only the destination, which
      then holds a prefix of the data, all of it when the call returns
      normally. */
  lemma WriteStreamEffect(blockSize: JString, data: seq<byte>, dst: Path, w: World)
    requires BufferUsable(blockSize)
    ensures var ws := WriteStream(blockSize, data, dst, w);
            Consumes(w, ws.0) && dst in ws.0.nodes && ws.0.nodes[dst].File?
            && ws.0.nodes == w.nodes[dst := ws.0.nodes[dst]]
            && ws.0.nodes[dst].content <= data
            && (ws.1.Ok? ==> ws.0.nodes[dst].content == data)
  {
    var w1 := Put(w, dst, File([]));
    if BufferLength(blockSize).Ok? {
      var len := BufferLength(blockSize).value;
      var p := PumpFrom(data, 0, len, w1);
      PumpConsumes(data, 0, len, w1);
      PumpWritesPrefix(data, 0, len, w1);
      PumpCompleteUnlessFailed(data, 0, len, w1);
      var w' := Put(p.world, dst, File(p.written));
      assert WriteStream(blockSize, data, dst, w).0 == w';
      assert w'.nodes == w.nodes[dst := File(p.written)];
      assert p.written == data[..|p.written|];
    } else {
      assert WriteStream(blockSize, data, dst, w).0 == w1;
    }
  }

  /** The method form of Stream, running the loop with its buffer. */
  method StreamFromFileToFile(blockSize: JString, src: Path, dst: Option<Path>, w0: World)
    returns (w: World, r: Result<()>)
    requires BufferUsable(blockSize)
    ensures (w, r) == Stream(blockSize, src, dst, w0)
  {
    var (w1, inFail) := NextFault(w0);
    if inFail || !IsFile(w1, src) {
      return w1, Throws(SynapseException(TransferErrorMessage));
    }
    if dst.None? {
      return w1, Throws(NullPointerException);
    }
    var data := w1.nodes[src].content;
    var (w2, outFail) := NextFault(w1);
    if outFail || IsFolder(w2, dst.value) {
      return w2, Throws(SynapseException(TransferErrorMessage));
    }
    w := Put(w2, dst.value, File([]));
    assert Stream(blockSize, src, dst, w0) == WriteStream(blockSize, data, dst.value, w2);
    var len := BufferLength(blockSize);
    if len.Throws? {
      return w, Throws(len.error);
    }
    var written, failed;
    written, w, failed := Pump(data, len.value, w);
    w := Put(w, dst.value, File(written));
    r := if failed then Throws(SynapseException(TransferErrorMessage)) else Ok(());
  }

  /** No FileSystemException leaves the stream: backend failures arrive as
      SynapseException; only a null destination and an unparsable block
      size escape as themselves. */
  lemma StreamErrors(blockSize: JString, src: Path, dst: Option<Path>, w: World)
    requires BufferUsable(blockSize)
    ensures var r := Stream(blockSize, src, dst, w).1;
            r.Throws? ==> r.error == SynapseException(TransferErrorMessage)
                          || (r.error == NullPointerException && dst.None?)
                          || r.error.NumberFormatException?
  {
  }

  /** A stream changes at most the destination and consumes the script. */
  lemma StreamEvolves(blockSize: JString, src: Path, dst: Path, w: World)
    requires BufferUsable(blockSize)
    ensures Evolves(w, Stream(blockSize, src, Some(dst), w).0, {dst})
  {
    var w1 := NextFault(w).0;
    var w2 := NextFault(w1).0;
    var w' := Stream(blockSize, src, Some(dst), w).0;
    NextFaultConsumes(w);
    if NextFault(w).1 || !IsFile(w1, src) {
      assert w' == w1;
      SameNodesEvolve(w, w1, {dst});
    } else {
      NextFaultConsumes(w1);
      ConsumesTransitive(w, w1, w2);
      if NextFault(w1).1 || IsFolder(w2, dst) {
        assert w' == w2;
        SameNodesEvolve(w, w2, {dst});
      } else {
        assert w' == WriteStream(blockSize, w1.nodes[src].content, dst, w2).0;
        WriteStreamEffect(blockSize, w1.nodes[src].content, dst, w2);
        ConsumesTransitive(w, w2, w');
        OneNodeEvolves(w, w', dst);
      }
    }
  }

  /** When a stream changes the destination, the destination holds a
      prefix of the source as it was; when the stream returns normally, the
      destination is a copy of the source and nothing else changed. */
  lemma StreamWritesPrefix(blockSize: JString, src: Path, dst: Path, w: World)
    requires BufferUsable(blockSize)
    ensures var st := Stream(blockSize, src, Some(dst), w);
            (st.1.Ok? ==> IsFile(w, src) && st.0.nodes == w.nodes[dst := File(w.nodes[src].content)])
            && (dst in st.0.nodes && (dst !in w.nodes || st.0.nodes[dst] != w.nodes[dst]) ==>
                  IsFile(w, src) && st.0.nodes[dst].File?
                  && st.0.nodes[dst].content <= w.nodes[src].content)
  {
    var w1 := NextFault(w).0;
    var w2 := NextFault(w1).0;
    NextFaultConsumes(w);
    NextFaultConsumes(w1);
    var st := Stream(blockSize, src, Some(dst), w);
    if NextFault(w).1 || !IsFile(w1, src) {
      assert st.0 == w1 && st.1.Throws?;
    } else if NextFault(w1).1 || IsFolder(w2, dst) {
      assert st.0 == w2 && st.1.Throws?;
    } else {
      assert st == WriteStream(blockSize, w1.nodes[src].content, dst, w2);
      WriteStreamEffect(blockSize, w1.nodes[src].content, dst, w2);
    }
  }

  /** In a calm world a file streams completely onto a destination that is not a folder. */
  lemma CalmStreamCopies(blockSize: JString, src: Path, dst: Path, w: World)
    requires BufferUsable(blockSize) && BufferLength(blockSize).Ok?
    requires Calm(w) && IsFile(w, src) && !IsFolder(w, dst)
    ensures Stream(blockSize, src, Some(dst), w).1 == Ok(())
  {
    if w.faults != [] { assert !w.faults[0]; }
    var w1 := NextFault(w).0;
    NextFaultConsumes(w);
    CalmStaysCalm(w, w1);
    if w1.faults != [] { assert !w1.faults[0]; }
    var w2 := NextFault(w1).0;
    NextFaultConsumes(w1);
    CalmStaysCalm(w1, w2);
    var w3 := Put(w2, dst, File([]));
    CalmPumpCopiesAll(w1.nodes[src].content, 0, BufferLength(blockSize).value, w3);
  }
}
