/** Request body storage: the same bytes behind a cursor, kept in memory or in a
    temporary file, with global counters of what is open. */
module BodyStorage {
  import opened Common

  datatype Whence = FromStart | FromCurrent | FromEnd

  datatype Op = Read(n: nat) | Seek(offset: int, whence: Whence) | Bytes | Close

  datatype Answer = Data(bytes: seq<byte>) | Eof | Position(pos: nat) | BadSeek | Whole(all: seq<byte>) | Done | IsClosed

  /** What a storage remembers: its bytes, its cursor (which may be past the end),
      and whether it has been closed. */
  datatype Cursor = Cursor(data: seq<byte>, pos: nat, closed: bool)

  function SeekTarget(c: Cursor, offset: int, whence: Whence): int {
    match whence
    case FromStart => offset
    case FromCurrent => c.pos + offset
    case FromEnd => |c.data| + offset
  }

  function Chunk(c: Cursor, n: nat): seq<byte>
    requires c.pos < |c.data|
  {
    if c.pos + n <= |c.data| then c.data[c.pos..c.pos + n] else c.data[c.pos..]
  }

  /** The in-memory reader looks for the end before it looks at the buffer. */
  function InMemory(c: Cursor, op: Op): (Cursor, Answer) {
    if op.Close? then (c.(closed := true), Done)
    else if c.closed then (c, IsClosed)
    else match op
      case Read(n) =>
        if c.pos >= |c.data| then (c, Eof) else (c.(pos := c.pos + |Chunk(c, n)|), Data(Chunk(c, n)))
      case Seek(offset, whence) =>
        if SeekTarget(c, offset, whence) < 0 then (c, BadSeek)
        else (c.(pos := SeekTarget(c, offset, whence)), Position(SeekTarget(c, offset, whence)))
      case Bytes => (c, Whole(c.data))
  }

  /** A file answers an empty read before it looks for the end. */
  function FileRead(c: Cursor, n: nat): (Cursor, Answer) {
    if n == 0 then (c, Data([]))
    else if c.pos >= |c.data| then (c, Eof)
    else (c.(pos := c.pos + |Chunk(c, n)|), Data(Chunk(c, n)))
  }

  function FileSeek(c: Cursor, offset: int, whence: Whence): (Cursor, Answer) {
    var target := SeekTarget(c, offset, whence);
    if target < 0 then (c, BadSeek) else (c.(pos := target), Position(target))
  }

  /** Remembers the position, reads from the start to the end, and goes back. */
  function FileBytes(c: Cursor): (Cursor, Answer) {
    var start := FileSeek(c, 0, FromStart).0;
    var (end, a) := FileRead(start, |c.data|);
    (FileSeek(end, c.pos, FromStart).0, Whole(if a.Data? then a.bytes else []))
  }

  function OnDisk(c: Cursor, op: Op): (Cursor, Answer) {
    if op.Close? then (c.(closed := true), Done)
    else if c.closed then (c, IsClosed)
    else match op
      case Read(n) => FileRead(c, n)
      case Seek(offset, whence) => FileSeek(c, offset, whence)
      case Bytes => FileBytes(c)
  }

  class MemoryStorage {
    const data: seq<byte>
    var pos: nat
    var closed: bool

    function State(): Cursor
      reads this
    {
      Cursor(data, pos, closed)
    }

    constructor (data: seq<byte>)
      ensures State() == Cursor(data, 0, false)
    {
      this.data, pos, closed := data, 0, false;
    }

    method Read(n: nat) returns (a: Answer)
      modifies this
      ensures (State(), a) == InMemory(old(State()), Op.Read(n))
    {
      if closed {
        return IsClosed;
      }
      if pos >= |data| {
        return Eof;
      }
      var end := if pos + n <= |data| then pos + n else |data|;
      assert data[pos..end] == Chunk(State(), n);
      a := Data(data[pos..end]);
      pos := end;
    }

    method Seek(offset: int, whence: Whence) returns (a: Answer)
      modifies this
      ensures (State(), a) == InMemory(old(State()), Op.Seek(offset, whence))
    {
      if closed {
        return IsClosed;
      }
      var target := SeekTarget(State(), offset, whence);
      if target < 0 {
        return BadSeek;
      }
      pos := target;
      a := Position(target);
    }

    method Bytes() returns (a: Answer)
      ensures (State(), a) == InMemory(State(), Op.Bytes)
    {
      a := if closed then IsClosed else Whole(data);
    }
  }

  class DiskStorage {
    const content: seq<byte>
    const size: nat
    var pos: nat
    var closed: bool

    predicate Intact()
    {
      size == |content|
    }

    function State(): Cursor
      reads this
    {
      Cursor(content, pos, closed)
    }

    constructor (data: seq<byte>)
      ensures State() == Cursor(data, 0, false) && Intact()
    {
      content, size, pos, closed := data, |data|, 0, false;
    }

    method ReadFile(n: nat) returns (a: Answer)
      modifies this`pos
      ensures (State(), a) == FileRead(old(State()), n)
    {
      if n == 0 {
        return Data([]);
      }
      if pos >= |content| {
        return Eof;
      }
      var end := if pos + n <= |content| then pos + n else |content|;
      assert content[pos..end] == Chunk(State(), n);
      a := Data(content[pos..end]);
      pos := end;
    }

    method SeekFile(offset: int, whence: Whence) returns (a: Answer)
      modifies this`pos
      ensures (State(), a) == FileSeek(old(State()), offset, whence)
    {
      var target := SeekTarget(State(), offset, whence);
      if target < 0 {
        return BadSeek;
      }
      pos := target;
      a := Position(target);
    }

    method Read(n: nat) returns (a: Answer)
      modifies this
      ensures (State(), a) == OnDisk(old(State()), Op.Read(n))
    {
      if closed {
        return IsClosed;
      }
      a := ReadFile(n);
    }

    method Seek(offset: int, whence: Whence) returns (a: Answer)
      modifies this
      ensures (State(), a) == OnDisk(old(State()), Op.Seek(offset, whence))
    {
      if closed {
        return IsClosed;
      }
      a := SeekFile(offset, whence);
    }

    /** Saves the cursor, reads the whole file from the start, and puts it back. */
    method Bytes() returns (a: Answer)
      requires Intact()
      modifies this
      ensures (State(), a) == OnDisk(old(State()), Op.Bytes)
    {
      if closed {
        return IsClosed;
      }
      var current := SeekFile(0, FromCurrent);
      var saved := current.pos;
      var _ := SeekFile(0, FromStart);
      var all := [];
      if size > 0 {
        var chunk := ReadFile(size);
        all := chunk.bytes;
      }
      var _ := SeekFile(saved, FromStart);
      a := Whole(all);
    }
  }

  // ---------- both storages answer alike ----------

  function MemoryAnswers(c: Cursor, ops: seq<Op>): seq<Answer>
    decreases |ops|
  {
    if ops == [] then [] else [InMemory(c, ops[0]).1] + MemoryAnswers(InMemory(c, ops[0]).0, ops[1..])
  }

  function DiskAnswers(c: Cursor, ops: seq<Op>): seq<Answer>
    decreases |ops|
  {
    if ops == [] then [] else [OnDisk(c, ops[0]).1] + DiskAnswers(OnDisk(c, ops[0]).0, ops[1..])
  }

  /** Somewhere in the run an open storage whose cursor is at or past its end gets
      an empty read. */
  predicate EmptyReadAtEnd(c: Cursor, ops: seq<Op>)
    decreases |ops|
  {
    ops != [] &&
    ((ops[0] == Read(0) && !c.closed && c.pos >= |c.data|) || EmptyReadAtEnd(InMemory(c, ops[0]).0, ops[1..]))
  }

  /** One operation: the cursor moves alike, and the answers differ only on an empty
      read at the end; reading a file whole is seeking, reading and seeking back. */
  lemma OneAnswer(c: Cursor, op: Op)
    ensures OnDisk(c, op).0 == InMemory(c, op).0
    ensures OnDisk(c, op).1 == InMemory(c, op).1 <==> !(op == Read(0) && !c.closed && c.pos >= |c.data|)
  {
    if op.Bytes? && |c.data| > 0 {
      var start := FileSeek(c, 0, FromStart).0;
      assert Chunk(start, |c.data|) == c.data;
    }
  }

  /** For every sequence of operations, memory and disk storage of the same bytes
      give the same answers exactly when no empty read happens at the end. */
  lemma {:induction false} StoragesAnswerAlike(c: Cursor, ops: seq<Op>)
    ensures MemoryAnswers(c, ops) == DiskAnswers(c, ops) <==> !EmptyReadAtEnd(c, ops)
    decreases |ops|
  {
    if ops != [] {
      StoragesAnswerAlike(InMemory(c, ops[0]).0, ops[1..]);
      OneAnswer(c, ops[0]);
      var m, d := MemoryAnswers(c, ops), DiskAnswers(c, ops);
      assert m[0] == InMemory(c, ops[0]).1 && d[0] == OnDisk(c, ops[0]).1;
      assert m[1..] == MemoryAnswers(InMemory(c, ops[0]).0, ops[1..]);
      assert d[1..] == DiskAnswers(InMemory(c, ops[0]).0, ops[1..]);
      assert m == d <==> m[0] == d[0] && m[1..] == d[1..];
    }
  }

  // ---------- what a storage gives back ----------

  function Reads(sizes: seq<nat>): seq<Op> {
    if sizes == [] then [] else [Read(sizes[0])] + Reads(sizes[1..])
  }

  /** The bytes a run of reads has delivered. */
  function Delivered(answers: seq<Answer>): seq<byte> {
    if answers == [] then [] else (if answers[0].Data? then answers[0].bytes else []) + Delivered(answers[1..])
  }

  /** The reads deliver `data` in order. Each gives as many bytes as were asked for,
      fewer only where the data ends, and the end is told once all has been delivered. */
  ghost predicate Faithful(data: seq<byte>, sizes: seq<nat>, answers: seq<Answer>) {
    && |answers| == |sizes| && Delivered(answers) <= data
    && forall i :: 0 <= i < |answers| ==> FaithfulAt(data, sizes[i], answers, i)
  }

  ghost predicate FaithfulAt(data: seq<byte>, n: nat, answers: seq<Answer>, i: nat)
    requires i < |answers|
  {
    match answers[i]
    case Eof => Delivered(answers[..i]) == data
    case Data(bytes) => |bytes| <= n && (n > 0 ==> bytes != []) && (|bytes| < n ==> Delivered(answers[..i + 1]) == data)
    case _ => false
  }

  /** The first of several reads takes its bytes off the data. */
  ghost predicate Takes(data: seq<byte>, n: nat, a: Answer, rest: seq<byte>) {
    if a.Data? then data == a.bytes + rest && |a.bytes| <= n && (n > 0 ==> a.bytes != []) && (|a.bytes| < n ==> rest == [])
    else a == Eof && data == rest == []
  }

  lemma FaithfulFirst(data: seq<byte>, n: nat, a: Answer, rest: seq<byte>, sizes: seq<nat>, answers: seq<Answer>)
    requires Takes(data, n, a, rest) && Faithful(rest, sizes, answers)
    ensures Faithful(data, [n] + sizes, [a] + answers)
  {
    var all := [a] + answers;
    assert all[1..] == answers;
    forall i | 0 <= i < |all| ensures FaithfulAt(data, ([n] + sizes)[i], all, i) {
      assert all[..i + 1][1..] == answers[..i];
      assert Delivered(all[..i + 1]) == (if a.Data? then a.bytes else []) + Delivered(answers[..i]);
      if i == 0 {
        assert Delivered(answers[..0]) == [];
      } else {
        assert FaithfulAt(rest, sizes[i - 1], answers, i - 1);
        assert all[..i][1..] == answers[..i - 1];
        assert Delivered(all[..i]) == (if a.Data? then a.bytes else []) + Delivered(answers[..i - 1]);
      }
    }
  }

  lemma ReadTakes(c: Cursor, n: nat)
    requires !c.closed && c.pos <= |c.data|
    ensures var c' := InMemory(c, Read(n)).0;
            && c'.data == c.data && !c'.closed && c'.pos <= |c.data| && OnDisk(c, Read(n)).0 == c'
            && Takes(c.data[c.pos..], n, InMemory(c, Read(n)).1, c.data[c'.pos..])
            && Takes(c.data[c.pos..], n, OnDisk(c, Read(n)).1, c.data[c'.pos..])
  {
    OneAnswer(c, Read(n));
  }

  lemma FirstRead(c: Cursor, sizes: seq<nat>)
    requires sizes != []
    ensures var first, rest := Read(sizes[0]), Reads(sizes[1..]);
            && MemoryAnswers(c, Reads(sizes)) == [InMemory(c, first).1] + MemoryAnswers(InMemory(c, first).0, rest)
            && DiskAnswers(c, Reads(sizes)) == [OnDisk(c, first).1] + DiskAnswers(OnDisk(c, first).0, rest)
  {
    assert Reads(sizes)[1..] == Reads(sizes[1..]);
  }

  lemma {:induction false} ReadsFrom(c: Cursor, sizes: seq<nat>)
    requires !c.closed && c.pos <= |c.data|
    ensures Faithful(c.data[c.pos..], sizes, MemoryAnswers(c, Reads(sizes)))
    ensures Faithful(c.data[c.pos..], sizes, DiskAnswers(c, Reads(sizes)))
    decreases |sizes|
  {
    if sizes != [] {
      var n, rest := sizes[0], sizes[1..];
      var c' := InMemory(c, Read(n)).0;
      var data, data' := c.data[c.pos..], c.data[c'.pos..];
      ReadTakes(c, n);
      FirstRead(c, sizes);
      ReadsFrom(c', rest);
      FaithfulFirst(data, n, InMemory(c, Read(n)).1, data', rest, MemoryAnswers(c', Reads(rest)));
      FaithfulFirst(data, n, OnDisk(c, Read(n)).1, data', rest, DiskAnswers(c', Reads(rest)));
      assert [n] + rest == sizes;
    }
  }

  lemma {:induction false} EndDeliversAll(data: seq<byte>, sizes: seq<nat>, answers: seq<Answer>)
    requires Faithful(data, sizes, answers) && Eof in answers
    ensures Delivered(answers) == data
  {
    var i :| 0 <= i < |answers| && answers[i] == Eof;
    assert FaithfulAt(data, sizes[i], answers, i);
    DeliveredPrefix(answers, i);
  }

  lemma {:induction false} DeliveredPrefix(answers: seq<Answer>, i: nat)
    requires i <= |answers|
    ensures Delivered(answers[..i]) <= Delivered(answers)
  {
    if i > 0 {
      DeliveredPrefix(answers[1..], i - 1);
      assert answers[..i][1..] == answers[1..][..i - 1];
    }
  }

  /** Reading a new storage, in memory or on disk, in pieces of any sizes, delivers its
      bytes in order, and all of them once a read says that the end is reached. */
  lemma ReadsDeliverBody(data: seq<byte>, sizes: seq<nat>)
    ensures forall answers :: answers in {MemoryAnswers(Cursor(data, 0, false), Reads(sizes)), DiskAnswers(Cursor(data, 0, false), Reads(sizes))} ==>
              Faithful(data, sizes, answers) && (Eof in answers ==> Delivered(answers) == data)
  {
    var c := Cursor(data, 0, false);
    ReadsFrom(c, sizes);
    assert data[0..] == data;
    forall answers | answers in {MemoryAnswers(c, Reads(sizes)), DiskAnswers(c, Reads(sizes))} && Eof in answers
      ensures Delivered(answers) == data
    {
      EndDeliversAll(data, sizes, answers);
    }
  }

  /** A seek in an open storage is refused exactly when its target is before the start,
      and otherwise the next read starts at the target. */
  lemma SeekThenRead(c: Cursor, offset: int, whence: Whence, n: nat, target: int)
    requires !c.closed
    requires whence.FromStart? ==> target == offset
    requires whence.FromCurrent? ==> target == c.pos + offset
    requires whence.FromEnd? ==> target == |c.data| + offset
    ensures target < 0 ==> InMemory(c, Seek(offset, whence)) == OnDisk(c, Seek(offset, whence)) == (c, BadSeek)
    ensures target >= 0 ==>
              var (m, d) := (InMemory(c, Seek(offset, whence)), OnDisk(c, Seek(offset, whence)));
              && m.1 == d.1 == Position(target)
              && (target >= |c.data| ==>
                    InMemory(m.0, Read(n)).1 == Eof && OnDisk(d.0, Read(n)).1 == if n == 0 then Data([]) else Eof)
              && (target < |c.data| ==>
                    var end := if target + n < |c.data| then target + n else |c.data|;
                    InMemory(m.0, Read(n)).1 == OnDisk(d.0, Read(n)).1 == Data(c.data[target..end]))
  {
    assert 0 <= target < |c.data| ==> c.data[target..] == c.data[target..|c.data|];
  }

  lemma AnswersAt(c: Cursor, ops: seq<Op>, i: nat)
    requires ops != [] && i < |ops|
    ensures i < |MemoryAnswers(c, ops)| == |ops| == |DiskAnswers(c, ops)|
    ensures i > 0 ==> var c' := InMemory(c, ops[0]).0;
                      && i - 1 < |MemoryAnswers(c', ops[1..])| == |DiskAnswers(c', ops[1..])|
                      && MemoryAnswers(c, ops)[i] == MemoryAnswers(c', ops[1..])[i - 1]
                      && DiskAnswers(c, ops)[i] == DiskAnswers(c', ops[1..])[i - 1]
  {
    OneAnswer(c, ops[0]);
    AnswerCount(c, ops);
    AnswerCount(InMemory(c, ops[0]).0, ops[1..]);
  }

  lemma {:induction false} AnswerCount(c: Cursor, ops: seq<Op>)
    ensures |MemoryAnswers(c, ops)| == |ops| == |DiskAnswers(c, ops)|
    decreases |ops|
  {
    if ops != [] {
      AnswerCount(InMemory(c, ops[0]).0, ops[1..]);
      AnswerCount(OnDisk(c, ops[0]).0, ops[1..]);
    }
  }

  /** In every run, asking for the whole body gives the whole body until the storage has
      been closed, and from then on only closing again is answered. */
  lemma {:induction false} BodyUntilClosed(c: Cursor, ops: seq<Op>, i: nat)
    requires i < |ops|
    ensures |MemoryAnswers(c, ops)| == |ops| == |DiskAnswers(c, ops)|
    ensures forall a :: a in [MemoryAnswers(c, ops)[i], DiskAnswers(c, ops)[i]] ==>
              && (a == Done <==> ops[i] == Close)
              && (a == IsClosed <==> ops[i] != Close && (c.closed || Close in ops[..i]))
              && (ops[i] == Bytes && a != IsClosed ==> a == Whole(c.data))
    decreases |ops|
  {
    AnswersAt(c, ops, i);
    OneAnswer(c, ops[0]);
    if i > 0 {
      var c' := InMemory(c, ops[0]).0;
      BodyUntilClosed(c', ops[1..], i - 1);
      assert ops[..i] == [ops[0]] + ops[1..][..i - 1];
    }
  }

  // ---------- the counters ----------

  ghost function MemoryTotal(s: set<MemoryStorage>): int {
    if s == {} then 0 else var m :| m in s; |m.data| + MemoryTotal(s - {m})
  }

  ghost function DiskTotal(s: set<DiskStorage>): int {
    if s == {} then 0 else var d :| d in s; d.size + DiskTotal(s - {d})
  }

  lemma {:induction false} MemoryTotalPick(s: set<MemoryStorage>, x: MemoryStorage)
    requires x in s
    ensures MemoryTotal(s) == |x.data| + MemoryTotal(s - {x})
    decreases s
  {
    var m :| m in s && MemoryTotal(s) == |m.data| + MemoryTotal(s - {m});
    if m != x {
      MemoryTotalPick(s - {m}, x);
      MemoryTotalPick(s - {x}, m);
      assert s - {m} - {x} == s - {x} - {m};
    }
  }

  lemma {:induction false} DiskTotalPick(s: set<DiskStorage>, x: DiskStorage)
    requires x in s
    ensures DiskTotal(s) == x.size + DiskTotal(s - {x})
    decreases s
  {
    var d :| d in s && DiskTotal(s) == d.size + DiskTotal(s - {d});
    if d != x {
      DiskTotalPick(s - {d}, x);
      DiskTotalPick(s - {x}, d);
      assert s - {d} - {x} == s - {x} - {d};
    }
  }

  lemma MemoryTotalAdd(s: set<MemoryStorage>, x: MemoryStorage)
    requires x !in s
    ensures MemoryTotal(s + {x}) == |x.data| + MemoryTotal(s) && |s + {x}| == |s| + 1
  {
    MemoryTotalPick(s + {x}, x);
    assert s + {x} - {x} == s;
  }

  lemma DiskTotalAdd(s: set<DiskStorage>, x: DiskStorage)
    requires x !in s
    ensures DiskTotal(s + {x}) == x.size + DiskTotal(s) && |s + {x}| == |s| + 1
  {
    DiskTotalPick(s + {x}, x);
    assert s + {x} - {x} == s;
  }

  lemma {:induction false} DiskTotalNotNegative(s: set<DiskStorage>)
    ensures DiskTotal(s) >= 0
    decreases s
  {
    if s != {} {
      var d :| d in s;
      DiskTotalPick(s, d);
      DiskTotalNotNegative(s - {d});
    }
  }

  function Clamped(counter: int): int {
    if counter < 0 then 0 else counter
  }

  datatype Storage = Memory(memory: MemoryStorage) | Disk(disk: DiskStorage)

  datatype Created = Stored(storage: Storage) | TooLarge | DiskError

  const MIB := 0x10_0000

  datatype Limits = Limits(enabled: bool, threshold: int, maxBytes: int)

  /** Threshold and maximum are configured in whole mebibytes. */
  function Configure(enabled: bool, thresholdMB: int, maxSizeMB: int): Limits {
    Limits(enabled, thresholdMB * MIB, maxSizeMB * MIB)
  }

  /** Opening and closing as they move the disk counter: `Open` from bytes in hand,
      `Stream` of a body with an announced length and a size limit, `Shut` of the
      i-th open file. */
  datatype Event =
    | Open(size: nat, writeFails: bool)
    | Stream(announced: int, size: nat, limit: nat, writeFails: bool)
    | Shut(index: nat)

  /** There is room for a file of this length, and it is long enough for the disk. */
  predicate Admits(l: Limits, used: int, length: int) {
    l.enabled && length >= l.threshold && used + length <= l.maxBytes
  }

  /** The opening puts a file on disk. */
  predicate GoesToDisk(used: int, e: Event, l: Limits)
    requires !e.Shut?
  {
    !e.writeFails &&
    match e
    case Open(size, _) => Admits(l, used, size)
    case Stream(announced, size, limit, _) =>
      size <= limit && ((announced > 0 && Admits(l, used, announced)) || Admits(l, used, size))
  }

  /** The bytes in use on disk after an opening. */
  function Usage(used: int, e: Event, l: Limits): int
    requires !e.Shut?
  {
    if GoesToDisk(used, e, l) then used + e.size else used
  }

  /** The process-wide counters and configuration. `mems` and `disks` are all the
      storages ever made here, `openMems` and `openDisks` those not closed. */
  class BodyCache {
    const enabled: bool
    const threshold: int
    const maxBytes: int
    var diskFiles: int
    var diskBytes: int
    var memBuffers: int
    var memBytes: int
    ghost var mems: set<MemoryStorage>
    ghost var disks: set<DiskStorage>
    ghost var openMems: set<MemoryStorage>
    ghost var openDisks: set<DiskStorage>

    /** The counters are the number and total size of the storages not yet closed. */
    ghost predicate Valid()
      reads this, mems, disks
    {
      && openMems <= mems && (forall m :: m in mems ==> (m in openMems <==> !m.closed))
      && openDisks <= disks && (forall d :: d in disks ==> (d in openDisks <==> !d.closed))
      && memBuffers == |openMems| && memBytes == MemoryTotal(openMems)
      && diskFiles == |openDisks| && diskBytes == DiskTotal(openDisks)
    }

    ghost predicate WithinLimit()
      reads this
    {
      diskBytes == 0 || diskBytes <= maxBytes
    }

    constructor (enabled: bool, thresholdMB: int, maxSizeMB: int)
      ensures Valid() && WithinLimit() && mems == {} && disks == {}
      ensures Configured() == Configure(enabled, thresholdMB, maxSizeMB)
    {
      this.enabled, threshold, maxBytes := enabled, thresholdMB * MIB, maxSizeMB * MIB;
      diskFiles, diskBytes, memBuffers, memBytes := 0, 0, 0, 0;
      mems, disks, openMems, openDisks := {}, {}, {}, {};
    }

    method NewMemory(data: seq<byte>) returns (m: MemoryStorage)
      requires Valid()
      modifies this
      ensures Valid() && fresh(m) && m.State() == Cursor(data, 0, false)
      ensures mems == old(mems) + {m} && disks == old(disks)
      ensures diskBytes == old(diskBytes) && memBytes == old(memBytes) + |data|
    {
      m := new MemoryStorage(data);
      memBuffers, memBytes := memBuffers + 1, memBytes + |data|;
      MemoryTotalAdd(openMems, m);
      mems, openMems := mems + {m}, openMems + {m};
    }

    method NewDisk(data: seq<byte>) returns (d: DiskStorage)
      requires Valid()
      modifies this
      ensures Valid() && fresh(d) && d.State() == Cursor(data, 0, false) && d.Intact()
      ensures disks == old(disks) + {d} && mems == old(mems)
      ensures diskBytes == old(diskBytes) + |data| && memBytes == old(memBytes)
    {
      d := new DiskStorage(data);
      diskFiles, diskBytes := diskFiles + 1, diskBytes + |data|;
      DiskTotalAdd(openDisks, d);
      disks, openDisks := disks + {d}, openDisks + {d};
    }

    function Configured(): Limits {
      Limits(enabled, threshold, maxBytes)
    }

    /** `writeFails` is true when the temporary file cannot be written. */
    method CreateBodyStorage(data: seq<byte>, writeFails: bool) returns (s: Storage)
      requires Valid()
      modifies this
      ensures Valid() && (old(WithinLimit()) ==> WithinLimit())
      ensures s.Disk? <==> enabled && |data| >= threshold && old(diskBytes) + |data| <= maxBytes && !writeFails
      ensures s.Disk? ==> fresh(s.disk) && s.disk.State() == Cursor(data, 0, false)
      ensures s.Memory? ==> fresh(s.memory) && s.memory.State() == Cursor(data, 0, false)
      ensures diskBytes == Usage(old(diskBytes), Open(|data|, writeFails), Configured())
      ensures memBytes + diskBytes == old(memBytes + diskBytes) + |data|
    {
      if enabled && |data| >= threshold && diskBytes + |data| <= maxBytes && !writeFails {
        var d := NewDisk(data);
        return Disk(d);
      }
      var m := NewMemory(data);
      return Memory(m);
    }

    /** A body of this announced length goes straight to disk. */
    ghost predicate StreamsDirectly(contentLength: int)
      reads this
    {
      enabled && contentLength > 0 && contentLength >= threshold && diskBytes + contentLength <= maxBytes
    }

    /** Streaming a body of announced length to disk. The room is checked for the
        announced length, so the limit is kept if the body is no longer than that.
        A body of unknown or small announced length is read first and then stored
        by its real length. */
    method CreateFromReader(body: seq<byte>, contentLength: int, limit: nat, writeFails: bool) returns (r: Created)
      requires Valid()
      modifies this
      ensures Valid()
      ensures diskBytes == Usage(old(diskBytes), Stream(contentLength, |body|, limit, writeFails), Configured())
      ensures r.Stored? ==> |body| <= limit && memBytes + diskBytes == old(memBytes + diskBytes) + |body|
      ensures !r.Stored? ==> diskBytes == old(diskBytes) && memBytes == old(memBytes) && (|body| > limit || writeFails)
      ensures old(WithinLimit()) && (|body| <= contentLength || contentLength <= 0) ==> WithinLimit()
      ensures r.DiskError? <==> old(StreamsDirectly(contentLength)) && writeFails
      ensures r.TooLarge? <==> !r.DiskError? && |body| > limit
      ensures r.Stored? ==>
                (r.storage.Disk? <==>
                 (old(StreamsDirectly(contentLength)) ||
                  (enabled && |body| >= threshold && old(diskBytes) + |body| <= maxBytes && !writeFails)))
      ensures r.Stored? && r.storage.Disk? ==> fresh(r.storage.disk) && r.storage.disk.State() == Cursor(body, 0, false)
      ensures r.Stored? && r.storage.Memory? ==> fresh(r.storage.memory) && r.storage.memory.State() == Cursor(body, 0, false)
    {
      if enabled && contentLength > 0 && contentLength >= threshold && diskBytes + contentLength <= maxBytes {
        if writeFails {
          return DiskError;
        }
        if |body| > limit {
          return TooLarge;
        }
        var d := NewDisk(body);
        return Stored(Disk(d));
      }
      if |body| > limit {
        return TooLarge;
      }
      var s := CreateBodyStorage(body, writeFails);
      return Stored(s);
    }

    method CloseMemory(m: MemoryStorage) returns (a: Answer)
      requires Valid() && m in mems
      modifies this, m
      ensures Valid() && mems == old(mems) && disks == old(disks)
      ensures (m.State(), a) == InMemory(old(m.State()), Close)
      ensures diskBytes == old(diskBytes) && memBytes == old(memBytes) - (if old(m.closed) then 0 else |m.data|)
    {
      if !m.closed {
        MemoryTotalPick(openMems, m);
        m.closed := true;
        memBuffers, memBytes := memBuffers - 1, memBytes - |m.data|;
        openMems := openMems - {m};
      }
      a := Done;
    }

    /** The counters are clamped at zero; the clamp never takes effect. */
    method CloseDisk(d: DiskStorage) returns (a: Answer)
      requires Valid() && d in disks
      modifies this, d
      ensures Valid() && mems == old(mems) && disks == old(disks)
      ensures (d.State(), a) == OnDisk(old(d.State()), Close)
      ensures diskFiles == old(diskFiles) - (if old(d.closed) then 0 else 1)
      ensures diskBytes == old(diskBytes) - (if old(d.closed) then 0 else d.size)
    {
      if !d.closed {
        DiskTotalPick(openDisks, d);
        DiskTotalNotNegative(openDisks - {d});
        d.closed := true;
        diskFiles := Clamped(diskFiles - 1);
        diskBytes := Clamped(diskBytes - d.size);
        openDisks := openDisks - {d};
      }
      a := Done;
    }
  }

  // ---------- the accounting over whole runs ----------

  /** The sizes of the files open on disk. */
  function After(open: seq<nat>, e: Event, l: Limits): seq<nat> {
    match e
    case Shut(i) => if i < |open| then open[..i] + open[i + 1..] else open
    case _ => if GoesToDisk(Sum(open), e, l) then open + [e.size] else open
  }

  function Sum(s: seq<nat>): nat {
    if s == [] then 0 else Sum(s[..|s| - 1]) + s[|s| - 1]
  }

  function AfterAll(events: seq<Event>, l: Limits): seq<nat> {
    if events == [] then [] else After(AfterAll(events[..|events| - 1], l), events[|events| - 1], l)
  }

  lemma SumAppend(s: seq<nat>, x: nat)
    ensures Sum(s + [x]) == Sum(s) + x
  {
    assert (s + [x])[..|s|] == s;
  }

  lemma {:induction false} SumWithout(s: seq<nat>, i: nat)
    requires i < |s|
    ensures Sum(s[..i] + s[i + 1..]) == Sum(s) - s[i]
  {
    var t, x := s[..|s| - 1], s[|s| - 1];
    if i == |t| {
      assert s[..i] + s[i + 1..] == t;
    } else {
      SumWithout(t, i);
      SumAppend(t[..i] + t[i + 1..], x);
      assert s[..i] + s[i + 1..] == t[..i] + t[i + 1..] + [x];
    }
  }

  /** The files move as the counter of the cache does: every opening changes their
      total as `Usage` says. */
  lemma OpeningMovesTotal(open: seq<nat>, e: Event, l: Limits)
    requires !e.Shut?
    ensures Sum(After(open, e, l)) == Usage(Sum(open), e, l)
  {
    SumAppend(open, e.size);
  }

  /** Closing a file takes off its size. */
  lemma ClosingMovesTotal(open: seq<nat>, i: nat, l: Limits)
    requires i < |open|
    ensures Sum(After(open, Shut(i), l)) == Sum(open) - open[i]
  {
    SumWithout(open, i);
  }

  /** A stream that can be stored under its announced length is no longer than that. */
  predicate Honest(e: Event) {
    e.Stream? && e.announced > 0 && e.size <= e.limit && !e.writeFails ==> e.size <= e.announced
  }

  lemma StepWithinLimit(open: seq<nat>, e: Event, l: Limits)
    requires Sum(open) <= l.maxBytes && Honest(e)
    ensures Sum(After(open, e, l)) <= l.maxBytes
  {
    if !e.Shut? {
      OpeningMovesTotal(open, e, l);
    } else if e.index < |open| {
      ClosingMovesTotal(open, e.index, l);
    }
  }

  lemma {:induction false} RunWithinLimit(events: seq<Event>, l: Limits)
    requires l.maxBytes >= 0 && forall e :: e in events ==> Honest(e)
    ensures WithinLimit(events, l)
  {
    if events != [] {
      var before, last := events[..|events| - 1], events[|events| - 1];
      RunWithinLimit(before, l);
      StepWithinLimit(AfterAll(before, l), last, l);
    }
  }

  /** In all runs, under all configurations, the files open on disk stay within the
      configured maximum; streams are taken from `streams`, everything else is free. */
  ghost predicate LimitHolds(streams: iset<Event>) {
    forall events: seq<Event>, enabled: bool, thresholdMB: int, maxSizeMB: nat ::
      DrawnFrom(events, streams) ==> WithinLimit(events, Configure(enabled, thresholdMB, maxSizeMB))
  }

  ghost predicate DrawnFrom(events: seq<Event>, streams: iset<Event>) {
    forall e :: e in events && e.Stream? ==> e in streams
  }

  predicate WithinLimit(events: seq<Event>, l: Limits) {
    Sum(AfterAll(events, l)) <= l.maxBytes
  }

  /** The smallest number of whole mebibytes that holds `n` bytes. */
  function Mebibytes(n: nat): (mb: nat)
    ensures n <= mb * MIB < n + MIB
  {
    (n + MIB - 1) / MIB
  }

  lemma AfterTwo(a: Event, b: Event, l: Limits)
    ensures AfterAll([a, b], l) == After(After([], a, l), b, l)
  {
    assert [a, b][..1] == [a] && [a][..0] == [];
    assert AfterAll([a], l) == After([], a, l);
  }

  /** One file that leaves exactly the announced room, then the stream. */
  lemma LyingStreamBreaksLimit(e: Event, l: Limits)
    requires !Honest(e) && l == Configure(true, 0, Mebibytes(e.announced))
    ensures !WithinLimit([Open(l.maxBytes - e.announced, false), e], l)
  {
    var rest := l.maxBytes - e.announced;
    var first := Open(rest, false);
    AfterTwo(first, e, l);
    SumAppend([], rest);
    assert After([], first, l) == [rest] == [] + [rest];
    SumAppend([rest], e.size);
    assert After([rest], e, l) == [rest] + [e.size];
  }

  /** The disk limit is kept exactly when no stream outgrows its announced length. */
  lemma DiskLimitIsExact(streams: iset<Event>)
    ensures LimitHolds(streams) <==> forall e :: e in streams ==> Honest(e)
  {
    if forall e :: e in streams ==> Honest(e) {
      forall events: seq<Event>, enabled: bool, thresholdMB: int, maxSizeMB: nat | DrawnFrom(events, streams)
        ensures WithinLimit(events, Configure(enabled, thresholdMB, maxSizeMB))
      {
        RunWithinLimit(events, Configure(enabled, thresholdMB, maxSizeMB));
      }
    } else {
      var e :| e in streams && !Honest(e);
      var l := Configure(true, 0, Mebibytes(e.announced));
      var events := [Open(l.maxBytes - e.announced, false), e];
      LyingStreamBreaksLimit(e, l);
      assert DrawnFrom(events, streams);
    }
  }
}
