/** The agent's crash-log buffer: the tail of each crashed container's output, frozen once, in a byte-bounded
    first-in first-out store. */
module LogBuffer {
  import opened Ids

  type Byte = b: nat | b < 256

  type Bytes = seq<Byte>

  const NEWLINE: Byte := 10

  const MAX_LINES := 500
  const MAX_BYTES := 1024 * 1024
  const MAX_TOTAL := 50 * 1024 * 1024

  // ----- lines

  /** `strings.Split` at newlines. */
  function Split(data: Bytes): (lines: seq<Bytes>)
    ensures |lines| > 0
  {
    if data == [] then [[]]
    else
      var rest := Split(data[1..]);
      if data[0] == NEWLINE then [[]] + rest else [[data[0]] + rest[0]] + rest[1..]
  }

  function Join(lines: seq<Bytes>): Bytes
    requires |lines| > 0
  {
    if |lines| == 1 then lines[0] else lines[0] + [NEWLINE] + Join(lines[1..])
  }

  predicate Plain(line: Bytes) { NEWLINE !in line }

  predicate AllPlain(lines: seq<Bytes>) {
    forall i :: 0 <= i < |lines| ==> Plain(lines[i])
  }

  /** Joining the lines of a text gives the text back, and no line holds a newline. */
  lemma {:induction false} JoinOfSplit(data: Bytes)
    ensures Join(Split(data)) == data && AllPlain(Split(data))
  {
    if data != [] {
      JoinOfSplit(data[1..]);
      var rest := Split(data[1..]);
      assert data == [data[0]] + data[1..];
      if data[0] == NEWLINE {
        assert Split(data)[1..] == rest;
      } else {
        assert Split(data)[1..] == rest[1..];
        assert Plain(Split(data)[0]);
      }
    }
  }

  /** Any lines without newlines are the lines of their text. */
  lemma {:induction false} SplitOfJoin(lines: seq<Bytes>)
    requires |lines| > 0 && AllPlain(lines)
    ensures Split(Join(lines)) == lines
    decreases |lines|, |lines[0]|
  {
    if lines[0] == [] {
      if |lines| > 1 {
        SplitOfJoin(lines[1..]);
        assert Join(lines)[1..] == Join(lines[1..]);
      }
    } else {
      var c, shorter := lines[0][0], [lines[0][1..]] + lines[1..];
      assert c in lines[0];
      assert AllPlain(shorter) by {
        forall i | 0 <= i < |shorter| ensures Plain(shorter[i]) {
          assert Plain(lines[i]);
        }
      }
      SplitOfJoin(shorter);
      assert shorter[1..] == lines[1..];
      assert Join(lines) == [c] + Join(shorter);
      assert [c] + lines[0][1..] == lines[0];
    }
  }

  function Size(lines: seq<Bytes>): nat {
    if lines == [] then 0 else Size(lines[..|lines| - 1]) + |lines[|lines| - 1]|
  }

  lemma {:induction false} SizeConcat(a: seq<Bytes>, b: seq<Bytes>)
    ensures Size(a + b) == Size(a) + Size(b)
    decreases |b|
  {
    if b == [] {
      assert a + b == a;
    } else {
      SizeConcat(a, b[..|b| - 1]);
      assert (a + b)[..|a + b| - 1] == a + b[..|b| - 1];
    }
  }

  /** Splitting keeps every byte but the newlines. */
  lemma {:induction false} SplitSize(data: Bytes)
    ensures Size(Split(data)) + |Split(data)| - 1 == |data|
  {
    if data != [] {
      SplitSize(data[1..]);
      var rest := Split(data[1..]);
      if data[0] == NEWLINE {
        SizeConcat([[]], rest);
      } else {
        SizeConcat([rest[0]], rest[1..]);
        SizeConcat([[data[0]] + rest[0]], rest[1..]);
        assert [rest[0]] + rest[1..] == rest;
      }
    }
  }

  // ----- what is kept of a container's output

  datatype Record = Record(
    applicationId: Id,
    deploymentId: Id,
    instanceId: Id,
    executionId: Id,
    nodeId: Id,
    lines: seq<Bytes>,
    sizeBytes: nat,
    capturedAt: Time)

  function Limited(output: Bytes): Bytes {
    if |output| > MAX_BYTES then output[..MAX_BYTES] else output
  }

  ghost predicate IsTail(lines: seq<Bytes>, all: seq<Bytes>) {
    |lines| <= |all| && lines == all[|all| - |lines|..]
  }

  /** The lines a record keeps: the newest of them, up to the limit, not counting one empty line at the end. */
  ghost predicate IsKeptTail(lines: seq<Bytes>, all: seq<Bytes>)
    requires |all| > 0
  {
    var limit := if |all| > MAX_LINES then MAX_LINES else |all|;
    if all[|all| - 1] == [] then |lines| == limit - 1 && IsTail(lines + [[]], all)
    else |lines| == limit && IsTail(lines, all)
  }

  lemma TailIsSmall(tail: seq<Bytes>, all: seq<Bytes>)
    requires AllPlain(all) && IsTail(tail, all)
    ensures Size(tail) <= Size(all) && AllPlain(tail)
  {
    var cut := |all| - |tail|;
    SizeConcat(all[..cut], tail);
    assert all[..cut] + tail == all;
    forall i | 0 <= i < |tail| ensures Plain(tail[i]) {
      assert tail[i] == all[cut + i];
    }
  }

  lemma KeptTailIsSmall(lines: seq<Bytes>, all: seq<Bytes>)
    requires |all| > 0 && AllPlain(all) && IsKeptTail(lines, all)
    ensures Size(lines) <= Size(all) && |lines| <= MAX_LINES && AllPlain(lines)
  {
    if all[|all| - 1] == [] {
      TailIsSmall(lines + [[]], all);
      SizeConcat(lines, [[]]);
      forall i | 0 <= i < |lines| ensures Plain(lines[i]) {
        assert lines[i] == (lines + [[]])[i];
      }
    } else {
      TailIsSmall(lines, all);
    }
  }

  /** The kept lines by position. */
  lemma KeptTailIs(lines: seq<Bytes>, all: seq<Bytes>)
    requires |all| > 0 && IsKeptTail(lines, all)
    ensures lines == all[if |all| > 500 then |all| - 500 else 0..if all[|all| - 1] == [] then |all| - 1 else |all|]
  {
    if all[|all| - 1] == [] {
      assert lines == (lines + [[]])[..|lines|];
    }
  }

  method LastLines(all: seq<Bytes>) returns (lines: seq<Bytes>)
    requires |all| > 0
    ensures IsKeptTail(lines, all)
  {
    lines := all;
    if |lines| > MAX_LINES {
      lines := lines[|lines| - MAX_LINES..];
    }
    if |lines| > 0 && lines[|lines| - 1] == [] {
      assert lines == lines[..|lines| - 1] + [[]];
      lines := lines[..|lines| - 1];
    }
  }

  method CountBytes(lines: seq<Bytes>) returns (size: nat)
    ensures size == Size(lines)
  {
    size := 0;
    var k := 0;
    while k < |lines|
      invariant 0 <= k <= |lines| && size == Size(lines[..k])
    {
      var next := k + 1;
      assert lines[..next][..k] == lines[..k];
      size := size + |lines[k]|;
      k := next;
    }
    assert lines[..k] == lines;
  }

  /** The lines of a record, taken from the first megabyte of the output. */
  method TailLines(output: Bytes) returns (lines: seq<Bytes>, size: nat)
    ensures IsKeptTail(lines, Split(Limited(output)))
    ensures var all := Split(if |output| > 1048576 then output[..1048576] else output);
            lines == all[if |all| > 500 then |all| - 500 else 0..if all[|all| - 1] == [] then |all| - 1 else |all|]
    ensures size == Size(lines) && size <= MAX_BYTES && |lines| <= MAX_LINES && AllPlain(lines)
  {
    var data := Limited(output);
    var all := Split(data);
    JoinOfSplit(data);
    SplitSize(data);
    lines := LastLines(all);
    KeptTailIs(lines, all);
    KeptTailIsSmall(lines, all);
    size := CountBytes(lines);
  }

  // ----- the buffer

  function SizeAt(records: map<Id, Record>, id: Id): nat { if id in records then records[id].sizeBytes else 0 }

  ghost function Sum(records: map<Id, Record>, ids: seq<Id>): nat {
    if ids == [] then 0 else SizeAt(records, ids[0]) + Sum(records, ids[1..])
  }

  ghost predicate Distinct(ids: seq<Id>) {
    forall i, j :: 0 <= i < j < |ids| ==> ids[i] != ids[j]
  }

  ghost predicate Indexed(records: map<Id, Record>, ids: seq<Id>) {
    Distinct(ids) && forall id :: id in ids <==> id in records
  }

  ghost function Restrict(records: map<Id, Record>, ids: seq<Id>): map<Id, Record> {
    map id | id in records && id in ids :: records[id]
  }

  /** A record as `CaptureAndFreeze` makes them. */
  ghost predicate Captured(r: Record) {
    r.sizeBytes == Size(r.lines) && r.sizeBytes <= MAX_BYTES && |r.lines| <= MAX_LINES && AllPlain(r.lines)
  }

  datatype Buffer = Buffer(records: map<Id, Record>, order: seq<Id>)

  ghost predicate Good(b: Buffer) {
    && Indexed(b.records, b.order)
    && (forall id :: id in b.records ==> b.records[id].instanceId == id && Captured(b.records[id]))
    && Sum(b.records, b.order) <= MAX_TOTAL
  }

  /** Whether the records from position `k` on leave room for `size` more bytes. */
  ghost predicate Room(b: Buffer, k: nat, size: nat)
    requires k <= |b.order|
  {
    Sum(b.records, b.order[k..]) + size <= MAX_TOTAL
  }

  /** Where the longest newest suffix with room begins. */
  ghost predicate IsCut(b: Buffer, k: nat, size: nat) {
    && k <= |b.order|
    && (Room(b, k, size) || k == |b.order|)
    && forall j :: 0 <= j < k ==> !Room(b, j, size)
  }

  ghost function Kept(b: Buffer, k: nat): Buffer
    requires k <= |b.order|
  {
    Buffer(Restrict(b.records, b.order[k..]), b.order[k..])
  }

  ghost function Stored(b: Buffer, r: Record): Buffer {
    Buffer(b.records[r.instanceId := r], b.order + [r.instanceId])
  }

  /** What freezing a record does to the buffer. */
  ghost predicate Freezes(b: Buffer, b': Buffer, r: Record) {
    if r.instanceId in b.records then b' == b
    else exists k :: IsCut(b, k, r.sizeBytes) && b' == Stored(Kept(b, k), r)
  }

  class LogRingBuffer {
    var records: map<Id, Record>
    var totalBytes: int
    var order: seq<Id>

    ghost function Contents(): Buffer
      reads this
    {
      Buffer(records, order)
    }

    ghost predicate Valid()
      reads this
    {
      Good(Contents()) && totalBytes == Sum(records, order)
    }

    constructor ()
      ensures Valid() && Contents() == Buffer(map[], [])
    {
      records, totalBytes, order := map[], 0, [];
    }

    /** The first critical section. */
    method Exists(id: Id) returns (found: bool)
      ensures found <==> id in records
    {
      found := id in records;
    }

    /** The records from position `k` of `b` on are left. */
    ghost predicate Down(b: Buffer, k: nat)
      reads this
    {
      && k <= |b.order|
      && records == Kept(b, k).records && order == b.order[k..] && totalBytes == Sum(b.records, b.order[k..])
    }

    method EvictOldest(ghost b: Buffer, ghost k: nat)
      requires Good(b) && Down(b, k) && |order| > 0
      modifies this
      ensures Down(b, k + 1)
    {
      ghost var next := k + 1;
      EvictOne(b, k, next);
      var oldest := order[0];
      order := order[1..];
      if oldest in records {
        totalBytes := totalBytes - records[oldest].sizeBytes;
        records := records - {oldest};
      }
    }

    /** The eviction loop: drop the oldest records until the new one fits or none is left. */
    method Evict(size: nat) returns (ghost k: nat)
      requires Valid()
      modifies this
      ensures Valid()
      ensures IsCut(old(Contents()), k, size) && Contents() == Kept(old(Contents()), k)
    {
      ghost var b := Contents();
      k := 0;
      KeptAll(b);
      while totalBytes + size > MAX_TOTAL && |order| > 0
        invariant Down(b, k)
        invariant forall j :: 0 <= j < k ==> !Room(b, j, size)
        decreases |order|
      {
        EvictOldest(b, k);
        k := k + 1;
      }
      KeptIsGood(b, k);
    }

    /** The second critical section, with its double check. */
    method Freeze(r: Record)
      requires Valid() && Captured(r)
      modifies this
      ensures Valid()
      ensures Freezes(old(Contents()), Contents(), r)
    {
      if r.instanceId in records {
        return;
      }
      ghost var b := Contents();
      ghost var k := Evict(r.sizeBytes);
      CutFits(b, k, r.sizeBytes);
      StoreKeepsGood(Contents(), r);
      records := records[r.instanceId := r];
      order := order + [r.instanceId];
      totalBytes := totalBytes + r.sizeBytes;
    }

    /** One capture with nothing in between; `output` is what the runtime returned, if it did. */
    method CaptureAndFreeze(app: Id, dep: Id, inst: Id, exec: Id, node: Id, output: Option<Bytes>, now: Time)
      returns (ghost r: Record)
      requires Valid()
      modifies this
      ensures Valid()
      ensures output.None? ==> Contents() == old(Contents())
      ensures output.Some? ==> Captured(r) && r == Record(app, dep, inst, exec, node, r.lines, r.sizeBytes, now)
                               && Freezes(old(Contents()), Contents(), r)
      ensures output.Some? && inst !in old(records) ==> IsKeptTail(r.lines, Split(Limited(output.value)))
    {
      r := Record(app, dep, inst, exec, node, [], 0, now);
      var found := Exists(inst);
      if found {
        return;
      }
      if output.None? {
        return;
      }
      var lines, size := TailLines(output.value);
      var rec := Record(app, dep, inst, exec, node, lines, size, now);
      r := rec;
      Freeze(rec);
    }

    method Get(inst: Id, app: Id, exec: Id) returns (r: Option<seq<Bytes>>)
      ensures r.Some? <==> inst in records && records[inst].applicationId == app
                           && (exec == NO_ID || records[inst].executionId == exec)
      ensures r.Some? ==> r.value == records[inst].lines
    {
      if inst !in records {
        return None;
      }
      var rec := records[inst];
      if rec.applicationId != app || (exec != NO_ID && rec.executionId != exec) {
        return None;
      }
      r := Some(rec.lines);
    }
  }

  lemma KeptAll(b: Buffer)
    requires Good(b)
    ensures b.order[0..] == b.order && Kept(b, 0) == b
  {
    assert b.order[0..] == b.order;
    assert Restrict(b.records, b.order) == b.records;
  }

  lemma {:induction false} SumSame(records: map<Id, Record>, records': map<Id, Record>, ids: seq<Id>)
    requires forall id :: id in ids ==> SizeAt(records, id) == SizeAt(records', id)
    ensures Sum(records, ids) == Sum(records', ids)
  {
    if ids != [] {
      SumSame(records, records', ids[1..]);
    }
  }

  lemma {:induction false} SumAppended(records: map<Id, Record>, ids: seq<Id>, id: Id)
    ensures Sum(records, ids + [id]) == Sum(records, ids) + SizeAt(records, id)
  {
    if ids != [] {
      SumAppended(records, ids[1..], id);
      assert (ids + [id])[1..] == ids[1..] + [id];
    }
  }

  lemma {:induction false} SumOfSuffix(records: map<Id, Record>, ids: seq<Id>, k: nat)
    requires k <= |ids|
    ensures Sum(records, ids[k..]) <= Sum(records, ids)
    decreases k
  {
    if k == 0 {
      assert ids[0..] == ids;
    } else {
      SumOfSuffix(records, ids, k - 1);
      assert ids[k - 1..][1..] == ids[k..];
    }
  }

  /** Any newest part of a good buffer is a good buffer. */
  lemma KeptIsGood(b: Buffer, k: nat)
    requires Good(b) && k <= |b.order|
    ensures Good(Kept(b, k)) && Sum(Kept(b, k).records, b.order[k..]) == Sum(b.records, b.order[k..])
  {
    KeptIsIndexed(b, k);
    SumOfSuffix(b.records, b.order, k);
    SumSame(b.records, Kept(b, k).records, b.order[k..]);
  }

  lemma SuffixHead(ids: seq<Id>, k: nat, next: nat)
    requires Distinct(ids) && k < |ids| && next == k + 1
    ensures ids[k..] == [ids[k]] + ids[next..] && ids[k] !in ids[next..]
  {
  }

  lemma RestrictHead(records: map<Id, Record>, head: Id, rest: seq<Id>)
    requires head in records && head !in rest
    ensures Restrict(records, rest) == Restrict(records, [head] + rest) - {head}
    ensures head in Restrict(records, [head] + rest)
  {
    var ids := [head] + rest;
    assert forall id :: id in ids <==> id == head || id in rest;
  }

  /** One more eviction. */
  lemma EvictOne(b: Buffer, k: nat, next: nat)
    requires Good(b) && k < |b.order| && next == k + 1
    ensures b.order[k..] == [b.order[k]] + b.order[next..]
    ensures b.order[k] in Kept(b, k).records && Kept(b, k).records[b.order[k]] == b.records[b.order[k]]
    ensures Kept(b, next).records == Kept(b, k).records - {b.order[k]}
    ensures Sum(b.records, b.order[k..]) == Kept(b, k).records[b.order[k]].sizeBytes + Sum(b.records, b.order[next..])
  {
    var oldest, rest := b.order[k], b.order[next..];
    SuffixHead(b.order, k, next);
    RestrictHead(b.records, oldest, rest);
    assert ([oldest] + rest)[1..] == rest;
  }

  lemma KeptIsIndexed(b: Buffer, k: nat)
    requires Indexed(b.records, b.order) && k <= |b.order|
    ensures Indexed(Kept(b, k).records, Kept(b, k).order)
  {
    var rest := b.order[k..];
    forall id | id in rest ensures id in b.order {
      var i :| 0 <= i < |rest| && rest[i] == id;
      assert b.order[k + i] == id;
    }
  }

  /** Where the loop stops there is room: even an empty buffer has room for one record. */
  lemma CutFits(b: Buffer, k: nat, size: nat)
    requires Good(b) && IsCut(b, k, size) && size <= MAX_BYTES
    ensures Good(Kept(b, k)) && Sum(Kept(b, k).records, Kept(b, k).order) + size <= MAX_TOTAL
  {
    KeptIsGood(b, k);
  }

  lemma StoreKeepsGood(b: Buffer, r: Record)
    requires Good(b) && Captured(r) && r.instanceId !in b.records
    requires Sum(b.records, b.order) + r.sizeBytes <= MAX_TOTAL
    ensures Good(Stored(b, r)) && Sum(Stored(b, r).records, Stored(b, r).order) == Sum(b.records, b.order) + r.sizeBytes
  {
    var b' := Stored(b, r);
    assert Indexed(b'.records, b'.order);
    SumSame(b.records, b'.records, b.order);
    SumAppended(b'.records, b.order, r.instanceId);
  }

  // ----- runs

  /** Any interleaving of captures: between its two critical sections a capture changes nothing, and the second
      one decides alone, so a run is the sequence of the second ones. */
  ghost predicate IsRun(bs: seq<Buffer>, rs: seq<Record>) {
    && |bs| == |rs| + 1 && bs[0] == Buffer(map[], [])
    && forall k :: 0 <= k < |rs| ==> Moves(bs, rs, k)
  }

  ghost predicate Moves(bs: seq<Buffer>, rs: seq<Record>, k: nat)
    requires |bs| == |rs| + 1 && k < |rs|
  {
    Captured(rs[k]) && Freezes(bs[k], bs[k + 1], rs[k])
  }

  /** A cut is unique, so freezing has one outcome. */
  lemma CutUnique(b: Buffer, k: nat, l: nat, size: nat)
    requires IsCut(b, k, size) && IsCut(b, l, size)
    ensures k == l
  {
  }

  /** In numbers: what is kept leaves room within 50 MiB, and one record more would not. */
  lemma CutInNumbers(b: Buffer, k: nat, size: nat)
    requires k <= |b.order|
    ensures IsCut(b, k, size)
            <==> (k == |b.order| || Sum(b.records, b.order[k..]) + size <= 52428800)
                 && (k > 0 ==> Sum(b.records, b.order[k - 1..]) + size > 52428800)
  {
    if k > 0 && !Room(b, k - 1, size) {
      forall j | 0 <= j < k ensures !Room(b, j, size) {
        SumOfSuffix(b.records, b.order[j..], k - 1 - j);
        assert b.order[j..][k - 1 - j..] == b.order[k - 1..];
      }
    }
  }

  lemma FreezeKeepsGood(b: Buffer, b': Buffer, r: Record)
    requires Good(b) && Captured(r) && Freezes(b, b', r)
    ensures Good(b')
  {
    if r.instanceId !in b.records {
      var k :| IsCut(b, k, r.sizeBytes) && b' == Stored(Kept(b, k), r);
      CutFits(b, k, r.sizeBytes);
      StoreKeepsGood(Kept(b, k), r);
    }
  }

  /** The order holds the record keys, each once, the sizes add up to no more than the limit, in every reachable
      state. */
  lemma {:induction false} RunIsGood(bs: seq<Buffer>, rs: seq<Record>, k: nat)
    requires IsRun(bs, rs) && k < |bs|
    ensures Good(bs[k]) && Sum(bs[k].records, bs[k].order) <= 52428800
  {
    if k > 0 {
      RunIsGood(bs, rs, k - 1);
      assert Moves(bs, rs, k - 1);
      FreezeKeepsGood(bs[k - 1], bs[k], rs[k - 1]);
    }
  }

  /** The records that were actually stored, in order. */
  ghost function History(bs: seq<Buffer>, rs: seq<Record>, k: nat): seq<Record>
    requires |bs| == |rs| + 1 && k <= |rs|
  {
    if k == 0 then []
    else if rs[k - 1].instanceId in bs[k - 1].records then History(bs, rs, k - 1)
    else History(bs, rs, k - 1) + [rs[k - 1]]
  }

  /** The buffer is the newest part of what was stored. */
  ghost predicate IsWindow(b: Buffer, h: seq<Record>) {
    |b.order| <= |h| && forall i :: 0 <= i < |b.order| ==> Shows(b, h, i)
  }

  /** Position `i` of the order, counted from the newest end, is that of the history. */
  ghost predicate Shows(b: Buffer, h: seq<Record>, i: nat)
    requires i < |b.order| <= |h|
  {
    var r := h[|h| - |b.order| + i];
    b.order[i] == r.instanceId && r.instanceId in b.records && b.records[r.instanceId] == r
  }

  lemma ShowsStill(b: Buffer, h: seq<Record>, k: nat, i: nat, r: Record)
    requires k + i < |b.order| <= |h| && r.instanceId !in b.records && Shows(b, h, k + i)
    ensures Shows(Stored(Kept(b, k), r), h + [r], i)
  {
    var j := k + i;
    assert b.order[k..][i] == b.order[j];
  }

  lemma WindowMoves(b: Buffer, h: seq<Record>, k: nat, r: Record)
    requires Good(b) && IsWindow(b, h) && k <= |b.order| && r.instanceId !in b.records
    ensures IsWindow(Stored(Kept(b, k), r), h + [r])
  {
    var b' := Stored(Kept(b, k), r);
    forall i | 0 <= i < |b'.order| ensures Shows(b', h + [r], i) {
      if i < |b'.order| - 1 {
        var j := k + i;
        assert Shows(b, h, j);
        ShowsStill(b, h, k, i, r);
      }
    }
  }

  /** First in, first out: in every reachable state the buffer holds exactly the last stored records, unchanged
      since they were stored. */
  lemma {:induction false} RunIsWindow(bs: seq<Buffer>, rs: seq<Record>, k: nat)
    requires IsRun(bs, rs) && k < |bs|
    ensures IsWindow(bs[k], History(bs, rs, k))
  {
    if k > 0 {
      var j := k - 1;
      RunIsWindow(bs, rs, j);
      RunIsGood(bs, rs, j);
      assert Moves(bs, rs, j);
      if rs[j].instanceId !in bs[j].records {
        var cut :| IsCut(bs[j], cut, rs[j].sizeBytes) && bs[k] == Stored(Kept(bs[j], cut), rs[j]);
        WindowMoves(bs[j], History(bs, rs, j), cut, rs[j]);
      }
    }
  }

  /** A record stays as it is for as long as it stays. */
  lemma {:induction false} RecordsAreFrozen(bs: seq<Buffer>, rs: seq<Record>, i: nat, j: nat, id: Id)
    requires IsRun(bs, rs) && i <= j < |bs|
    requires forall m :: i <= m <= j ==> id in bs[m].records
    ensures bs[j].records[id] == bs[i].records[id]
    decreases j
  {
    if i < j {
      var m := j - 1;
      RecordsAreFrozen(bs, rs, i, m, id);
      assert Moves(bs, rs, m) && id in bs[m].records;
    }
  }
}
