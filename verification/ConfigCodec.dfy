/** The root's configuration and weight streams and the workers' readers. Encoders put the bytes
    of a value in front of a tail, so that one encoder's output is the next one's tail. */
module ConfigCodec {
  import opened Common

  type u32 = x: nat | x < 0x1_0000_0000
  type u64 = x: nat | x < 0x1_0000_0000_0000_0000

  // ---------------------------------------------------------------------------
  // Data
  // ---------------------------------------------------------------------------

  datatype Size3D = Size3D(floatType: u32, z: u32, y: u32, x: u32, length: u64, nBytes: u64, nBytesXY: u64)

  // A pipe or a buffer.
  datatype Memory = Memory(size: Size3D, name: Bytes)

  datatype Net = Net(nBatches: u32, nNodes: u32, pipes: seq<Memory>, preSyncs: seq<u32>)

  datatype Sync = Sync(pipeIndex: u32, syncType: u32, kBuffer: u32, vBuffer: u32,
                       seqStart: u32, seqLen: u32, dim0: u32, positionPipe: u32)

  datatype Pointer = Pointer(source: u32, index: u32, kind: u32)

  datatype Op = Op(code: u32, index: u32, weightSize: Size3D, name: Bytes, input: Pointer, output: Pointer, config: Bytes)

  datatype Segment = Segment(syncs: seq<Sync>, ops: seq<Op>)

  datatype Ranks = Ranks(nodeIndex: u32, ppRank: u32, tpRank: u32, tpGroupStart: u32, tpGroupEnd: u32,
                         spRank: u32, spGroupStart: u32, spGroupEnd: u32,
                         positionPipe: u32, tokenPipe: u32, xPipe: u32, logitsPipe: u32)

  datatype Node = Node(ranks: Ranks, buffers: seq<Memory>, segments: seq<Segment>)

  /** Names are C strings and every count fits its 32-bit field. */
  predicate IsName(name: Bytes) {
    0 !in name && |name| + 1 < 0x1_0000_0000
  }

  predicate Counted<T>(xs: seq<T>) {
    |xs| < 0x1_0000_0000
  }

  predicate NetFits(c: Net) {
    Counted(c.pipes) && Counted(c.preSyncs) && forall i :: 0 <= i < |c.pipes| ==> IsName(c.pipes[i].name)
  }

  predicate OpFits(op: Op) {
    IsName(op.name) && Counted(op.config)
  }

  predicate SegmentFits(s: Segment) {
    Counted(s.syncs) && Counted(s.ops) && forall i :: 0 <= i < |s.ops| ==> OpFits(s.ops[i])
  }

  predicate NodeFits(c: Node) {
    && Counted(c.buffers) && Counted(c.segments)
    && (forall i :: 0 <= i < |c.buffers| ==> IsName(c.buffers[i].name))
    && forall i :: 0 <= i < |c.segments| ==> SegmentFits(c.segments[i])
  }

  // ---------------------------------------------------------------------------
  // The format
  // ---------------------------------------------------------------------------

  // Little-endian.
  function U32(v: u32, tail: Bytes): Bytes {
    [(v % 256) as byte, (v / 256 % 256) as byte, (v / 65536 % 256) as byte, (v / 16777216) as byte] + tail
  }

  function U64(v: u64, tail: Bytes): Bytes {
    U32(v % 0x1_0000_0000, U32(v / 0x1_0000_0000, tail))
  }

  function Text(name: Bytes, tail: Bytes): Bytes
    requires IsName(name)
  {
    U32(|name| + 1, name + [0] + tail)
  }

  function SizeBytes(s: Size3D, tail: Bytes): Bytes {
    U32(s.floatType, U32(s.z, U32(s.y, U32(s.x, U64(s.length, U64(s.nBytes, U64(s.nBytesXY, tail)))))))
  }

  function MemoryBytes(m: Memory, tail: Bytes): Bytes
    requires IsName(m.name)
  {
    SizeBytes(m.size, Text(m.name, tail))
  }

  function MemoriesBytes(ms: seq<Memory>, tail: Bytes): Bytes
    requires forall i :: 0 <= i < |ms| ==> IsName(ms[i].name)
  {
    if ms == [] then tail else MemoryBytes(ms[0], MemoriesBytes(ms[1..], tail))
  }

  function NumbersBytes(vs: seq<u32>, tail: Bytes): Bytes {
    if vs == [] then tail else U32(vs[0], NumbersBytes(vs[1..], tail))
  }

  function NetBytes(c: Net, tail: Bytes): Bytes
    requires NetFits(c)
  {
    U32(c.nBatches, U32(c.nNodes, U32(|c.pipes|, MemoriesBytes(c.pipes,
      U32(|c.preSyncs|, NumbersBytes(c.preSyncs, tail))))))
  }

  function SyncBytes(s: Sync, tail: Bytes): Bytes {
    U32(s.pipeIndex, U32(s.syncType, U32(s.kBuffer, U32(s.vBuffer,
      U32(s.seqStart, U32(s.seqLen, U32(s.dim0, U32(s.positionPipe, tail))))))))
  }

  function SyncsBytes(ss: seq<Sync>, tail: Bytes): Bytes {
    if ss == [] then tail else SyncBytes(ss[0], SyncsBytes(ss[1..], tail))
  }

  function PointerBytes(p: Pointer, tail: Bytes): Bytes {
    U32(p.source, U32(p.index, U32(p.kind, tail)))
  }

  // The size of the op's own configuration comes before its name, the configuration last.
  function OpBytes(op: Op, tail: Bytes): Bytes
    requires OpFits(op)
  {
    U32(op.code, U32(op.index, SizeBytes(op.weightSize, U32(|op.config|, Text(op.name,
      PointerBytes(op.input, PointerBytes(op.output, op.config + tail)))))))
  }

  function OpsBytes(ops: seq<Op>, tail: Bytes): Bytes
    requires forall i :: 0 <= i < |ops| ==> OpFits(ops[i])
  {
    if ops == [] then tail else OpBytes(ops[0], OpsBytes(ops[1..], tail))
  }

  function SegmentBytes(s: Segment, tail: Bytes): Bytes
    requires SegmentFits(s)
  {
    U32(|s.syncs|, U32(|s.ops|, SyncsBytes(s.syncs, OpsBytes(s.ops, tail))))
  }

  function SegmentsBytes(ss: seq<Segment>, tail: Bytes): Bytes
    requires forall i :: 0 <= i < |ss| ==> SegmentFits(ss[i])
  {
    if ss == [] then tail else SegmentBytes(ss[0], SegmentsBytes(ss[1..], tail))
  }

  function RanksBytes(r: Ranks, tail: Bytes): Bytes {
    U32(r.nodeIndex, U32(r.ppRank, U32(r.tpRank, U32(r.tpGroupStart, U32(r.tpGroupEnd,
      U32(r.spRank, U32(r.spGroupStart, U32(r.spGroupEnd,
        U32(r.positionPipe, U32(r.tokenPipe, U32(r.xPipe, U32(r.logitsPipe, tail))))))))))))
  }

  function NodeBytes(c: Node, tail: Bytes): Bytes
    requires NodeFits(c)
  {
    RanksBytes(c.ranks, U32(|c.buffers|, U32(|c.segments|, MemoriesBytes(c.buffers, SegmentsBytes(c.segments, tail)))))
  }

  // ---------------------------------------------------------------------------
  // The socket
  // ---------------------------------------------------------------------------

  function DecodeU32(b: Bytes): (v: u32)
    requires |b| == 4
  {
    b[0] as nat + 256 * b[1] as nat + 65536 * b[2] as nat + 16777216 * b[3] as nat
  }

  lemma U32RoundTrip(v: u32, tail: Bytes)
    ensures |U32(v, tail)| >= 4 && DecodeU32(U32(v, tail)[..4]) == v && U32(v, tail)[4..] == tail
  {
    FourDigits(v);
  }

  lemma FourDigits(v: u32)
    ensures v == v % 256 + 256 * (v / 256 % 256) + 65536 * (v / 65536 % 256) + 16777216 * (v / 16777216)
    ensures v / 16777216 < 256
  {
    assert v / 256 / 256 == v / 65536 && v / 65536 / 256 == v / 16777216;
  }

  /** Bytes written by the root and not read by the worker yet. Every writer says: with any tail
      behind them, the bytes now are the bytes before with the encoding in front of the tail.
      Every reader says: if the encoding of a value is in front, it returns the value and leaves
      exactly the tail. */
  class Socket {
    var bytes: Bytes

    constructor ()
      ensures bytes == []
    {
      bytes := [];
    }

    method Write(b: Bytes, ghost tail: Bytes)
      modifies this
      ensures bytes + tail == old(bytes) + (b + tail)
    {
      bytes := bytes + b;
    }

    method Read(n: nat, ghost b: Bytes, ghost tail: Bytes) returns (r: Bytes)
      requires bytes == b + tail && |b| == n
      modifies this
      ensures r == b && bytes == tail
    {
      r := bytes[..n];
      bytes := bytes[n..];
    }

    method WriteU32(v: u32, ghost tail: Bytes)
      modifies this
      ensures bytes + tail == old(bytes) + U32(v, tail)
    {
      Write([(v % 256) as byte, (v / 256 % 256) as byte, (v / 65536 % 256) as byte, (v / 16777216) as byte], tail);
    }

    method ReadU32(ghost v: u32, ghost tail: Bytes) returns (r: u32)
      requires bytes == U32(v, tail)
      modifies this
      ensures r == v && bytes == tail
    {
      U32RoundTrip(v, tail);
      r := DecodeU32(bytes[..4]);
      bytes := bytes[4..];
    }

    method WriteU64(v: u64, ghost tail: Bytes)
      modifies this
      ensures bytes + tail == old(bytes) + U64(v, tail)
    {
      hide U32;
      WriteU32(v % 0x1_0000_0000, U32(v / 0x1_0000_0000, tail));
      WriteU32(v / 0x1_0000_0000, tail);
    }

    method ReadU64(ghost v: u64, ghost tail: Bytes) returns (r: u64)
      requires bytes == U64(v, tail)
      modifies this
      ensures r == v && bytes == tail
    {
      hide U32;
      var lo := ReadU32(v % 0x1_0000_0000, U32(v / 0x1_0000_0000, tail));
      var hi := ReadU32(v / 0x1_0000_0000, tail);
      var high: nat := hi;
      r := high * 0x1_0000_0000 + lo;
    }

    method WriteText(name: Bytes, ghost tail: Bytes)
      requires IsName(name)
      modifies this
      ensures bytes + tail == old(bytes) + Text(name, tail)
    {
      hide U32;
      WriteU32(|name| + 1, name + [0] + tail);
      Write(name + [0], tail);
    }

    // The string is what precedes the first NUL of the bytes read.
    method ReadText(ghost name: Bytes, ghost tail: Bytes) returns (r: Bytes)
      requires IsName(name) && bytes == Text(name, tail)
      modifies this
      ensures r == name && bytes == tail
    {
      hide U32;
      var n := ReadU32(|name| + 1, name + [0] + tail);
      var raw := Read(n, name + [0], tail);
      var i := 0;
      while i < |raw| && raw[i] != 0
        invariant 0 <= i <= |name|
      {
        i := i + 1;
      }
      r := raw[..i];
    }

    method WriteSize(s: Size3D, ghost tail: Bytes)
      modifies this
      ensures bytes + tail == old(bytes) + SizeBytes(s, tail)
    {
      hide U32, U64;
      ghost var t1 := U64(s.length, U64(s.nBytes, U64(s.nBytesXY, tail)));
      WriteU32(s.floatType, U32(s.z, U32(s.y, U32(s.x, t1))));
      WriteU32(s.z, U32(s.y, U32(s.x, t1)));
      WriteU32(s.y, U32(s.x, t1));
      WriteU32(s.x, t1);
      WriteU64(s.length, U64(s.nBytes, U64(s.nBytesXY, tail)));
      WriteU64(s.nBytes, U64(s.nBytesXY, tail));
      WriteU64(s.nBytesXY, tail);
    }

    method ReadSize(ghost s: Size3D, ghost tail: Bytes) returns (r: Size3D)
      requires bytes == SizeBytes(s, tail)
      modifies this
      ensures r == s && bytes == tail
    {
      hide U32, U64;
      ghost var t1 := U64(s.length, U64(s.nBytes, U64(s.nBytesXY, tail)));
      var floatType := ReadU32(s.floatType, U32(s.z, U32(s.y, U32(s.x, t1))));
      var z := ReadU32(s.z, U32(s.y, U32(s.x, t1)));
      var y := ReadU32(s.y, U32(s.x, t1));
      var x := ReadU32(s.x, t1);
      var length := ReadU64(s.length, U64(s.nBytes, U64(s.nBytesXY, tail)));
      var nBytes := ReadU64(s.nBytes, U64(s.nBytesXY, tail));
      var nBytesXY := ReadU64(s.nBytesXY, tail);
      r := Size3D(floatType, z, y, x, length, nBytes, nBytesXY);
    }

    method WriteMemories(ms: seq<Memory>, ghost tail: Bytes)
      requires forall i :: 0 <= i < |ms| ==> IsName(ms[i].name)
      modifies this
      ensures bytes + tail == old(bytes) + MemoriesBytes(ms, tail)
    {
      hide IsName, SizeBytes, Text;
      var i := 0;
      while i < |ms|
        invariant 0 <= i <= |ms|
        invariant bytes + MemoriesBytes(ms[i..], tail) == old(bytes) + MemoriesBytes(ms, tail)
      {
        ghost var rest := MemoriesBytes(ms[i + 1..], tail);
        assert ms[i..][1..] == ms[i + 1..];
        WriteSize(ms[i].size, Text(ms[i].name, rest));
        WriteText(ms[i].name, rest);
        i := i + 1;
      }
    }

    method ReadMemories(n: nat, ghost ms: seq<Memory>, ghost tail: Bytes) returns (r: seq<Memory>)
      requires n == |ms| && (forall i :: 0 <= i < |ms| ==> IsName(ms[i].name)) && bytes == MemoriesBytes(ms, tail)
      modifies this
      ensures r == ms && bytes == tail
    {
      hide IsName, SizeBytes, Text;
      r := [];
      var i := 0;
      while i < n
        invariant 0 <= i <= n && r == ms[..i] && bytes == MemoriesBytes(ms[i..], tail)
      {
        ghost var rest := MemoriesBytes(ms[i + 1..], tail);
        assert ms[i..][1..] == ms[i + 1..];
        var size := ReadSize(ms[i].size, Text(ms[i].name, rest));
        var name := ReadText(ms[i].name, rest);
        r := r + [Memory(size, name)];
        i := i + 1;
      }
    }

    method WriteNumbers(vs: seq<u32>, ghost tail: Bytes)
      modifies this
      ensures bytes + tail == old(bytes) + NumbersBytes(vs, tail)
    {
      hide U32;
      var i := 0;
      while i < |vs|
        invariant 0 <= i <= |vs|
        invariant bytes + NumbersBytes(vs[i..], tail) == old(bytes) + NumbersBytes(vs, tail)
      {
        assert vs[i..][1..] == vs[i + 1..];
        WriteU32(vs[i], NumbersBytes(vs[i + 1..], tail));
        i := i + 1;
      }
    }

    method ReadNumbers(n: nat, ghost vs: seq<u32>, ghost tail: Bytes) returns (r: seq<u32>)
      requires n == |vs| && bytes == NumbersBytes(vs, tail)
      modifies this
      ensures r == vs && bytes == tail
    {
      hide U32;
      r := [];
      var i := 0;
      while i < n
        invariant 0 <= i <= n && r == vs[..i] && bytes == NumbersBytes(vs[i..], tail)
      {
        assert vs[i..][1..] == vs[i + 1..];
        var v := ReadU32(vs[i], NumbersBytes(vs[i + 1..], tail));
        r := r + [v];
        i := i + 1;
      }
    }

    method WriteSyncs(ss: seq<Sync>, ghost tail: Bytes)
      modifies this
      ensures bytes + tail == old(bytes) + SyncsBytes(ss, tail)
    {
      hide U32;
      var i := 0;
      while i < |ss|
        invariant 0 <= i <= |ss|
        invariant bytes + SyncsBytes(ss[i..], tail) == old(bytes) + SyncsBytes(ss, tail)
      {
        ghost var rest := SyncsBytes(ss[i + 1..], tail);
        assert ss[i..][1..] == ss[i + 1..];
        WriteSync(ss[i], rest);
        i := i + 1;
      }
    }

    method WriteSync(s: Sync, ghost tail: Bytes)
      modifies this
      ensures bytes + tail == old(bytes) + SyncBytes(s, tail)
    {
      hide U32;
      ghost var t1 := U32(s.seqStart, U32(s.seqLen, U32(s.dim0, U32(s.positionPipe, tail))));
      WriteU32(s.pipeIndex, U32(s.syncType, U32(s.kBuffer, U32(s.vBuffer, t1))));
      WriteU32(s.syncType, U32(s.kBuffer, U32(s.vBuffer, t1)));
      WriteU32(s.kBuffer, U32(s.vBuffer, t1));
      WriteU32(s.vBuffer, t1);
      WriteU32(s.seqStart, U32(s.seqLen, U32(s.dim0, U32(s.positionPipe, tail))));
      WriteU32(s.seqLen, U32(s.dim0, U32(s.positionPipe, tail)));
      WriteU32(s.dim0, U32(s.positionPipe, tail));
      WriteU32(s.positionPipe, tail);
    }

    method ReadSync(ghost s: Sync, ghost tail: Bytes) returns (r: Sync)
      requires bytes == SyncBytes(s, tail)
      modifies this
      ensures r == s && bytes == tail
    {
      hide U32;
      ghost var t1 := U32(s.seqStart, U32(s.seqLen, U32(s.dim0, U32(s.positionPipe, tail))));
      var pipeIndex := ReadU32(s.pipeIndex, U32(s.syncType, U32(s.kBuffer, U32(s.vBuffer, t1))));
      var syncType := ReadU32(s.syncType, U32(s.kBuffer, U32(s.vBuffer, t1)));
      var kBuffer := ReadU32(s.kBuffer, U32(s.vBuffer, t1));
      var vBuffer := ReadU32(s.vBuffer, t1);
      var seqStart := ReadU32(s.seqStart, U32(s.seqLen, U32(s.dim0, U32(s.positionPipe, tail))));
      var seqLen := ReadU32(s.seqLen, U32(s.dim0, U32(s.positionPipe, tail)));
      var dim0 := ReadU32(s.dim0, U32(s.positionPipe, tail));
      var positionPipe := ReadU32(s.positionPipe, tail);
      r := Sync(pipeIndex, syncType, kBuffer, vBuffer, seqStart, seqLen, dim0, positionPipe);
    }

    method ReadSyncs(n: nat, ghost ss: seq<Sync>, ghost tail: Bytes) returns (r: seq<Sync>)
      requires n == |ss| && bytes == SyncsBytes(ss, tail)
      modifies this
      ensures r == ss && bytes == tail
    {
      hide SyncBytes;
      r := [];
      var i := 0;
      while i < n
        invariant 0 <= i <= n && r == ss[..i] && bytes == SyncsBytes(ss[i..], tail)
      {
        assert ss[i..][1..] == ss[i + 1..];
        var s := ReadSync(ss[i], SyncsBytes(ss[i + 1..], tail));
        r := r + [s];
        i := i + 1;
      }
    }

    method WritePointer(p: Pointer, ghost tail: Bytes)
      modifies this
      ensures bytes + tail == old(bytes) + PointerBytes(p, tail)
    {
      hide U32;
      WriteU32(p.source, U32(p.index, U32(p.kind, tail)));
      WriteU32(p.index, U32(p.kind, tail));
      WriteU32(p.kind, tail);
    }

    method ReadPointer(ghost p: Pointer, ghost tail: Bytes) returns (r: Pointer)
      requires bytes == PointerBytes(p, tail)
      modifies this
      ensures r == p && bytes == tail
    {
      hide U32;
      var source := ReadU32(p.source, U32(p.index, U32(p.kind, tail)));
      var index := ReadU32(p.index, U32(p.kind, tail));
      var kind := ReadU32(p.kind, tail);
      r := Pointer(source, index, kind);
    }

    method WriteOp(op: Op, ghost tail: Bytes)
      requires OpFits(op)
      modifies this
      ensures bytes + tail == old(bytes) + OpBytes(op, tail)
    {
      hide U32, SizeBytes, Text, PointerBytes;
      ghost var t2 := PointerBytes(op.input, PointerBytes(op.output, op.config + tail));
      ghost var t1 := SizeBytes(op.weightSize, U32(|op.config|, Text(op.name, t2)));
      WriteU32(op.code, U32(op.index, t1));
      WriteU32(op.index, t1);
      WriteSize(op.weightSize, U32(|op.config|, Text(op.name, t2)));
      WriteU32(|op.config|, Text(op.name, t2));
      WriteText(op.name, t2);
      WritePointer(op.input, PointerBytes(op.output, op.config + tail));
      WritePointer(op.output, op.config + tail);
      if |op.config| > 0 {
        Write(op.config, tail);
      } else {
        assert op.config + tail == tail;
      }
    }

    method ReadOp(ghost op: Op, ghost tail: Bytes) returns (r: Op)
      requires OpFits(op) && bytes == OpBytes(op, tail)
      modifies this
      ensures r == op && bytes == tail
    {
      hide U32, SizeBytes, Text, PointerBytes;
      ghost var t2 := PointerBytes(op.input, PointerBytes(op.output, op.config + tail));
      ghost var t1 := SizeBytes(op.weightSize, U32(|op.config|, Text(op.name, t2)));
      var code := ReadU32(op.code, U32(op.index, t1));
      var index := ReadU32(op.index, t1);
      var weightSize := ReadSize(op.weightSize, U32(|op.config|, Text(op.name, t2)));
      var configSize := ReadU32(|op.config|, Text(op.name, t2));
      var name := ReadText(op.name, t2);
      var input := ReadPointer(op.input, PointerBytes(op.output, op.config + tail));
      var output := ReadPointer(op.output, op.config + tail);
      var config: Bytes := [];
      if configSize > 0 {
        config := Read(configSize, op.config, tail);
      } else {
        assert op.config + tail == tail;
      }
      r := Op(code, index, weightSize, name, input, output, config);
    }

    method WriteOps(ops: seq<Op>, ghost tail: Bytes)
      requires forall i :: 0 <= i < |ops| ==> OpFits(ops[i])
      modifies this
      ensures bytes + tail == old(bytes) + OpsBytes(ops, tail)
    {
      hide OpBytes, OpFits;
      var i := 0;
      while i < |ops|
        invariant 0 <= i <= |ops|
        invariant bytes + OpsBytes(ops[i..], tail) == old(bytes) + OpsBytes(ops, tail)
      {
        assert ops[i..][1..] == ops[i + 1..];
        WriteOp(ops[i], OpsBytes(ops[i + 1..], tail));
        i := i + 1;
      }
    }

    method ReadOps(n: nat, ghost ops: seq<Op>, ghost tail: Bytes) returns (r: seq<Op>)
      requires n == |ops| && (forall i :: 0 <= i < |ops| ==> OpFits(ops[i])) && bytes == OpsBytes(ops, tail)
      modifies this
      ensures r == ops && bytes == tail
    {
      hide OpBytes, OpFits;
      r := [];
      var i := 0;
      while i < n
        invariant 0 <= i <= n && r == ops[..i] && bytes == OpsBytes(ops[i..], tail)
      {
        assert ops[i..][1..] == ops[i + 1..];
        var op := ReadOp(ops[i], OpsBytes(ops[i + 1..], tail));
        r := r + [op];
        i := i + 1;
      }
    }

    method WriteSegments(ss: seq<Segment>, ghost tail: Bytes)
      requires forall i :: 0 <= i < |ss| ==> SegmentFits(ss[i])
      modifies this
      ensures bytes + tail == old(bytes) + SegmentsBytes(ss, tail)
    {
      hide U32, SyncsBytes, OpsBytes, OpFits;
      var i := 0;
      while i < |ss|
        invariant 0 <= i <= |ss|
        invariant bytes + SegmentsBytes(ss[i..], tail) == old(bytes) + SegmentsBytes(ss, tail)
      {
        assert ss[i..][1..] == ss[i + 1..];
        ghost var rest := SegmentsBytes(ss[i + 1..], tail);
        ghost var t1 := SyncsBytes(ss[i].syncs, OpsBytes(ss[i].ops, rest));
        WriteU32(|ss[i].syncs|, U32(|ss[i].ops|, t1));
        WriteU32(|ss[i].ops|, t1);
        WriteSyncs(ss[i].syncs, OpsBytes(ss[i].ops, rest));
        WriteOps(ss[i].ops, rest);
        i := i + 1;
      }
    }

    method ReadSegments(n: nat, ghost ss: seq<Segment>, ghost tail: Bytes) returns (r: seq<Segment>)
      requires n == |ss| && (forall i :: 0 <= i < |ss| ==> SegmentFits(ss[i])) && bytes == SegmentsBytes(ss, tail)
      modifies this
      ensures r == ss && bytes == tail
    {
      hide U32, SyncsBytes, OpsBytes, OpFits;
      r := [];
      var i := 0;
      while i < n
        invariant 0 <= i <= n && r == ss[..i] && bytes == SegmentsBytes(ss[i..], tail)
      {
        assert ss[i..][1..] == ss[i + 1..];
        ghost var rest := SegmentsBytes(ss[i + 1..], tail);
        ghost var t1 := SyncsBytes(ss[i].syncs, OpsBytes(ss[i].ops, rest));
        var nSyncs := ReadU32(|ss[i].syncs|, U32(|ss[i].ops|, t1));
        var nOps := ReadU32(|ss[i].ops|, t1);
        var syncs := ReadSyncs(nSyncs, ss[i].syncs, OpsBytes(ss[i].ops, rest));
        var ops := ReadOps(nOps, ss[i].ops, rest);
        r := r + [Segment(syncs, ops)];
        i := i + 1;
      }
    }

    method WriteRanks(r: Ranks, ghost tail: Bytes)
      modifies this
      ensures bytes + tail == old(bytes) + RanksBytes(r, tail)
    {
      hide U32;
      ghost var t2 := U32(r.positionPipe, U32(r.tokenPipe, U32(r.xPipe, U32(r.logitsPipe, tail))));
      ghost var t1 := U32(r.tpGroupEnd, U32(r.spRank, U32(r.spGroupStart, U32(r.spGroupEnd, t2))));
      WriteU32(r.nodeIndex, U32(r.ppRank, U32(r.tpRank, U32(r.tpGroupStart, t1))));
      WriteU32(r.ppRank, U32(r.tpRank, U32(r.tpGroupStart, t1)));
      WriteU32(r.tpRank, U32(r.tpGroupStart, t1));
      WriteU32(r.tpGroupStart, t1);
      WriteU32(r.tpGroupEnd, U32(r.spRank, U32(r.spGroupStart, U32(r.spGroupEnd, t2))));
      WriteU32(r.spRank, U32(r.spGroupStart, U32(r.spGroupEnd, t2)));
      WriteU32(r.spGroupStart, U32(r.spGroupEnd, t2));
      WriteU32(r.spGroupEnd, t2);
      WriteU32(r.positionPipe, U32(r.tokenPipe, U32(r.xPipe, U32(r.logitsPipe, tail))));
      WriteU32(r.tokenPipe, U32(r.xPipe, U32(r.logitsPipe, tail)));
      WriteU32(r.xPipe, U32(r.logitsPipe, tail));
      WriteU32(r.logitsPipe, tail);
    }

    method ReadRanks(ghost c: Ranks, ghost tail: Bytes) returns (r: Ranks)
      requires bytes == RanksBytes(c, tail)
      modifies this
      ensures r == c && bytes == tail
    {
      hide U32;
      ghost var t2 := U32(c.positionPipe, U32(c.tokenPipe, U32(c.xPipe, U32(c.logitsPipe, tail))));
      ghost var t1 := U32(c.tpGroupEnd, U32(c.spRank, U32(c.spGroupStart, U32(c.spGroupEnd, t2))));
      var nodeIndex := ReadU32(c.nodeIndex, U32(c.ppRank, U32(c.tpRank, U32(c.tpGroupStart, t1))));
      var ppRank := ReadU32(c.ppRank, U32(c.tpRank, U32(c.tpGroupStart, t1)));
      var tpRank := ReadU32(c.tpRank, U32(c.tpGroupStart, t1));
      var tpGroupStart := ReadU32(c.tpGroupStart, t1);
      var tpGroupEnd := ReadU32(c.tpGroupEnd, U32(c.spRank, U32(c.spGroupStart, U32(c.spGroupEnd, t2))));
      var spRank := ReadU32(c.spRank, U32(c.spGroupStart, U32(c.spGroupEnd, t2)));
      var spGroupStart := ReadU32(c.spGroupStart, U32(c.spGroupEnd, t2));
      var spGroupEnd := ReadU32(c.spGroupEnd, t2);
      var positionPipe := ReadU32(c.positionPipe, U32(c.tokenPipe, U32(c.xPipe, U32(c.logitsPipe, tail))));
      var tokenPipe := ReadU32(c.tokenPipe, U32(c.xPipe, U32(c.logitsPipe, tail)));
      var xPipe := ReadU32(c.xPipe, U32(c.logitsPipe, tail));
      var logitsPipe := ReadU32(c.logitsPipe, tail);
      r := Ranks(nodeIndex, ppRank, tpRank, tpGroupStart, tpGroupEnd, spRank, spGroupStart, spGroupEnd,
                 positionPipe, tokenPipe, xPipe, logitsPipe);
    }
  }

  /** The net configuration. */
  method WriteNet(s: Socket, c: Net, ghost tail: Bytes)
    requires NetFits(c)
    modifies s
    ensures s.bytes + tail == old(s.bytes) + NetBytes(c, tail)
  {
    hide U32, MemoriesBytes, NumbersBytes;
    ghost var t2 := U32(|c.preSyncs|, NumbersBytes(c.preSyncs, tail));
    ghost var t1 := U32(|c.pipes|, MemoriesBytes(c.pipes, t2));
    s.WriteU32(c.nBatches, U32(c.nNodes, t1));
    s.WriteU32(c.nNodes, t1);
    s.WriteU32(|c.pipes|, MemoriesBytes(c.pipes, t2));
    s.WriteMemories(c.pipes, t2);
    s.WriteU32(|c.preSyncs|, NumbersBytes(c.preSyncs, tail));
    s.WriteNumbers(c.preSyncs, tail);
  }

  method ReadNet(s: Socket, ghost c: Net, ghost tail: Bytes) returns (r: Net)
    requires NetFits(c) && s.bytes == NetBytes(c, tail)
    modifies s
    ensures r == c && s.bytes == tail
  {
    hide U32, MemoriesBytes, NumbersBytes;
    ghost var t2 := U32(|c.preSyncs|, NumbersBytes(c.preSyncs, tail));
    ghost var t1 := U32(|c.pipes|, MemoriesBytes(c.pipes, t2));
    var nBatches := s.ReadU32(c.nBatches, U32(c.nNodes, t1));
    var nNodes := s.ReadU32(c.nNodes, t1);
    var nPipes := s.ReadU32(|c.pipes|, MemoriesBytes(c.pipes, t2));
    var pipes := s.ReadMemories(nPipes, c.pipes, t2);
    var nPreSyncs := s.ReadU32(|c.preSyncs|, NumbersBytes(c.preSyncs, tail));
    var preSyncs := s.ReadNumbers(nPreSyncs, c.preSyncs, tail);
    r := Net(nBatches, nNodes, pipes, preSyncs);
  }

  /** The node configuration. */
  method WriteNode(s: Socket, c: Node, ghost tail: Bytes)
    requires NodeFits(c)
    modifies s
    ensures s.bytes + tail == old(s.bytes) + NodeBytes(c, tail)
  {
    hide U32, MemoriesBytes, SegmentsBytes, RanksBytes, SegmentFits, IsName;
    ghost var t1 := MemoriesBytes(c.buffers, SegmentsBytes(c.segments, tail));
    s.WriteRanks(c.ranks, U32(|c.buffers|, U32(|c.segments|, t1)));
    s.WriteU32(|c.buffers|, U32(|c.segments|, t1));
    s.WriteU32(|c.segments|, t1);
    s.WriteMemories(c.buffers, SegmentsBytes(c.segments, tail));
    s.WriteSegments(c.segments, tail);
  }

  method ReadNode(s: Socket, ghost c: Node, ghost tail: Bytes) returns (r: Node)
    requires NodeFits(c) && s.bytes == NodeBytes(c, tail)
    modifies s
    ensures r == c && s.bytes == tail
  {
    hide U32, MemoriesBytes, SegmentsBytes, RanksBytes, SegmentFits, IsName;
    ghost var t1 := MemoriesBytes(c.buffers, SegmentsBytes(c.segments, tail));
    var ranks := s.ReadRanks(c.ranks, U32(|c.buffers|, U32(|c.segments|, t1)));
    var nBuffers := s.ReadU32(|c.buffers|, U32(|c.segments|, t1));
    var nSegments := s.ReadU32(|c.segments|, t1);
    var buffers := s.ReadMemories(nBuffers, c.buffers, SegmentsBytes(c.segments, tail));
    var segments := s.ReadSegments(nSegments, c.segments, tail);
    r := Node(ranks, buffers, segments);
  }

  /** What one worker is sent, read back: both configurations arrive as they were written, and
      nothing is left over. */
  method ConfigRoundTrip(net: Net, node: Node) returns (net': Net, node': Node, left: Bytes)
    requires NetFits(net) && NodeFits(node)
    ensures net' == net && node' == node && left == []
  {
    hide NetBytes, NodeBytes, NetFits, NodeFits;
    var s := new Socket();
    WriteNet(s, net, NodeBytes(node, []));
    WriteNode(s, node, []);
    assert s.bytes == s.bytes + [];
    net' := ReadNet(s, net, NodeBytes(node, []));
    node' := ReadNode(s, node, []);
    left := s.bytes;
  }

  // ---------------------------------------------------------------------------
  // The weight stream
  // ---------------------------------------------------------------------------

  datatype Weight = Weight(name: Bytes, index: u32, offset: u64, data: Bytes)

  predicate WeightFits(w: Weight) {
    IsName(w.name) && |w.data| < 0x1_0000_0000_0000_0000
  }

  function WeightBytes(w: Weight, tail: Bytes): Bytes
    requires WeightFits(w)
  {
    Text(w.name, U32(w.index, U64(w.offset, U64(|w.data|, w.data + tail))))
  }

  /** Records one after the other, closed by a name of length zero. */
  function StreamBytes(ws: seq<Weight>, tail: Bytes): Bytes
    requires forall i :: 0 <= i < |ws| ==> WeightFits(ws[i])
  {
    if ws == [] then U32(0, tail) else WeightBytes(ws[0], StreamBytes(ws[1..], tail))
  }

  method WriteWeight(s: Socket, w: Weight, ghost tail: Bytes)
    requires WeightFits(w)
    modifies s
    ensures s.bytes + tail == old(s.bytes) + WeightBytes(w, tail)
  {
    hide U32, U64, Text;
    ghost var t1 := U64(w.offset, U64(|w.data|, w.data + tail));
    s.WriteText(w.name, U32(w.index, t1));
    s.WriteU32(w.index, t1);
    s.WriteU64(w.offset, U64(|w.data|, w.data + tail));
    s.WriteU64(|w.data|, w.data + tail);
    s.Write(w.data, tail);
  }

  method WriteStream(s: Socket, ws: seq<Weight>, ghost tail: Bytes)
    requires forall i :: 0 <= i < |ws| ==> WeightFits(ws[i])
    modifies s
    ensures s.bytes + tail == old(s.bytes) + StreamBytes(ws, tail)
  {
    hide U32, WeightBytes, WeightFits;
    var i := 0;
    while i < |ws|
      invariant 0 <= i <= |ws|
      invariant s.bytes + StreamBytes(ws[i..], tail) == old(s.bytes) + StreamBytes(ws, tail)
    {
      assert ws[i..][1..] == ws[i + 1..];
      WriteWeight(s, ws[i], StreamBytes(ws[i + 1..], tail));
      i := i + 1;
    }
    s.WriteU32(0, tail);
  }

  // Size of the worker's buffer after a request for n bytes: the request is cut to 32 bits.
  function Allocated(temp: u32, n: u64): u32 {
    if temp < n % 0x1_0000_0000 then n % 0x1_0000_0000 else temp
  }

  /** The buffer holds the record exactly when its size fits into 32 bits. */
  lemma AllocatedExactlyWhen(temp: u32, n: u64)
    ensures n <= Allocated(temp, n) <==> n < 0x1_0000_0000
  {
  }

  // Records whose data the worker's buffer holds.
  predicate Small(w: Weight) {
    |w.data| < 0x1_0000_0000
  }

  predicate AllSmall(ws: seq<Weight>) {
    forall i :: 0 <= i < |ws| ==> Small(ws[i])
  }

  /** The worker's loop: it takes records until it meets the sentinel, and they are exactly those
      written; no record is mistaken for the sentinel. `ok` is false if a record does not fit the
      buffer, which happens exactly when some record has 4 GiB or more; the first such record
      comes after those in r. */
  method ReadStream(s: Socket, ghost ws: seq<Weight>, ghost tail: Bytes) returns (r: seq<Weight>, ok: bool)
    requires (forall i :: 0 <= i < |ws| ==> WeightFits(ws[i])) && s.bytes == StreamBytes(ws, tail)
    modifies s
    ensures ok <==> AllSmall(ws)
    ensures ok ==> r == ws && s.bytes == tail
    ensures !ok ==> |r| < |ws| && r == ws[..|r|] && AllSmall(r) && !Small(ws[|r|])
  {
    hide U32, U64, WeightFits;
    r, ok := [], true;
    var temp := 0;
    while true
      invariant ok && |r| <= |ws| && r == ws[..|r|] && s.bytes == StreamBytes(ws[|r|..], tail)
      invariant temp < 0x1_0000_0000 && AllSmall(r)
      decreases |ws| - |r|
    {
      ghost var n := |r|;
      if n < |ws| {
        RecordShape(ws[n..], tail);
        assert ws[n..][1..] == ws[n + 1..] && ws[n..][0] == ws[n];
      }
      ghost var w := if n < |ws| then ws[n] else Weight([], 0, 0, []);
      ghost var t2 := w.data + if n < |ws| then StreamBytes(ws[n + 1..], tail) else [];
      ghost var t1 := U32(w.index, U64(w.offset, U64(|w.data|, t2)));
      var nameSize := s.ReadU32(if n < |ws| then |w.name| + 1 else 0, if n < |ws| then w.name + [0] + t1 else tail);
      if nameSize == 0 {
        break;
      }
      var raw := s.Read(nameSize, w.name + [0], t1);
      var index := s.ReadU32(w.index, U64(w.offset, U64(|w.data|, t2)));
      var offset := s.ReadU64(w.offset, U64(|w.data|, t2));
      var nBytes := s.ReadU64(|w.data|, t2);
      AllocatedExactlyWhen(temp, nBytes);
      temp := Allocated(temp, nBytes);
      if nBytes > temp {
        assert !Small(ws[n]);
        return r, false;
      }
      var data := s.Read(nBytes, w.data, StreamBytes(ws[n + 1..], tail));
      r := r + [Weight(raw[..nameSize - 1], index, offset, data)];
    }
  }

  lemma RecordShape(ws: seq<Weight>, tail: Bytes)
    requires ws != [] && forall i :: 0 <= i < |ws| ==> WeightFits(ws[i])
    ensures forall i :: 0 <= i < |ws[1..]| ==> WeightFits(ws[1..][i])
    ensures var w := ws[0];
            WeightFits(w) && |w.name| + 1 < 0x1_0000_0000 && |w.data| < 0x1_0000_0000_0000_0000
            && StreamBytes(ws, tail) ==
               U32(|w.name| + 1, w.name + [0] + U32(w.index, U64(w.offset, U64(|w.data|, w.data + StreamBytes(ws[1..], tail)))))
  {
    hide U32, U64;
  }
}
