/** The incremental usage counter of a bucket and the full scan it must agree
    with (src/bucket_usage.rs, SavingsTotals of src/deltaglider/savings.rs). */
module BucketUsage {
  import opened Common

  const I64_MAX: int := 0x7FFF_FFFF_FFFF_FFFF

  /** Sizes of single objects fit a signed 64-bit number. */
  type Size = n: nat | n <= 0x7FFF_FFFF_FFFF_FFFF

  datatype Storage = Reference | Delta(deltaSize: Size) | Passthrough

  datatype Meta = Meta(fileSize: Size, info: Storage)

  /** A (count, logical, stored) triple. */
  datatype Usage = Usage(count: int, logical: int, stored: int)

  datatype Row = Row(usage: Usage, lastScanAt: Option<int>)

  type Rows = map<string, Row>

  const NOTHING: Usage := Usage(0, 0, 0)

  function Plus(a: Usage, b: Usage): Usage {
    Usage(a.count + b.count, a.logical + b.logical, a.stored + b.stored)
  }

  function Minus(a: Usage, b: Usage): Usage {
    Usage(a.count - b.count, a.logical - b.logical, a.stored - b.stored)
  }

  // -------------------------------------------------------------- the counter

  /** usage_delta_for: what one object adds (`sign` 1) or takes away (-1). */
  function UsageDelta(meta: Meta, sign: int): Usage {
    match meta.info
    case Reference => Usage(0, 0, sign * meta.fileSize)
    case Delta(deltaSize) => Usage(sign, sign * meta.fileSize, sign * deltaSize)
    case Passthrough => Usage(sign, sign * meta.fileSize, sign * meta.fileSize)
  }

  predicate IsTransient(bucket: string) {
    "__dgmigrate_" <= bucket
  }

  function WithDelta(rows: Rows, bucket: string, d: Usage): Rows {
    if bucket in rows then rows[bucket := rows[bucket].(usage := Plus(rows[bucket].usage, d))]
    else rows[bucket := Row(d, None)]
  }

  function NetDelta(removed: Option<Meta>, added: Option<Meta>, refBytes: int): Usage {
    var d := Usage(0, 0, refBytes);
    var d1 := if removed.Some? then Plus(d, UsageDelta(removed.value, -1)) else d;
    if added.Some? then Plus(d1, UsageDelta(added.value, 1)) else d1
  }

  /** apply_net: no row is made for a net delta of nothing. */
  function WithNet(rows: Rows, bucket: string, removed: Option<Meta>, added: Option<Meta>, refBytes: int): Rows {
    var d := NetDelta(removed, added, refBytes);
    if IsTransient(bucket) || d == NOTHING then rows else WithDelta(rows, bucket, d)
  }

  function Clamped(u: Usage): Usage {
    Usage(Max(u.count, 0), Max(u.logical, 0), Max(u.stored, 0))
  }

  /** map_row_at: counters are never shown negative. */
  function Shown(rows: Rows, bucket: string): Option<Row> {
    if bucket in rows then Some(rows[bucket].(usage := Clamped(rows[bucket].usage))) else None
  }

  // ----------------------------------------------------------------- the truth

  /** What a bucket holds: objects by key, and reference sizes by prefix. */
  datatype Contents = Contents(objects: map<string, Meta>, refs: map<string, Size>)

  function CountOf(m: Meta): nat {
    if m.info.Reference? then 0 else 1
  }

  function LogicalOf(m: Meta): nat {
    if m.info.Reference? then 0 else m.fileSize
  }

  function StoredOf(m: Meta): nat {
    match m.info
    case Reference => m.fileSize
    case Delta(deltaSize) => deltaSize
    case Passthrough => m.fileSize
  }

  function BytesOf(s: Size): nat {
    s
  }

  /** What a full scan of the bucket finds. */
  ghost function Truth(c: Contents): Usage {
    Usage(Sum(c.objects, CountOf), Sum(c.objects, LogicalOf), Sum(c.objects, StoredOf) + Sum(c.refs, BytesOf))
  }

  ghost function Counter(rows: Rows, bucket: string): Usage {
    if bucket in rows then rows[bucket].usage else NOTHING
  }

  // --------------------------------------------------------------------- steps

  datatype Sys = Sys(rows: Rows, buckets: map<string, Contents>)

  /** A change of one object and one reference of a bucket (None: absent), or a
      full scan. */
  datatype Step =
    | Mutate(bucket: string, key: string, entry: Option<Meta>, prefix: string, ref: Option<Size>)
    | Scan(bucket: string, at: int)

  ghost function ContentsOf(s: Sys, bucket: string): Contents {
    if bucket in s.buckets then s.buckets[bucket] else Contents(map[], map[])
  }

  function Get<V>(m: map<string, V>, k: string): Option<V> {
    if k in m then Some(m[k]) else None
  }

  function Put<V>(m: map<string, V>, k: string, v: Option<V>): map<string, V> {
    if v.Some? then m[k := v.value] else m - {k}
  }

  function SizeOr0(s: Option<Size>): int {
    if s.Some? then s.value else 0
  }

  /** `as i64` on an unsigned total: the low 64 bits, read as a signed number. */
  function AsI64(n: nat): int {
    var bits := n % 0x1_0000_0000_0000_0000;
    if bits > I64_MAX then bits - 0x1_0000_0000_0000_0000 else bits
  }

  /** The signed 64-bit number that is the same modulo 2^64. */
  ghost predicate IsCast(n: nat, c: int) {
    -I64_MAX - 1 <= c <= I64_MAX && (n - c) % 0x1_0000_0000_0000_0000 == 0
  }

  /** There is one such number, and it is the total itself exactly when that fits. */
  lemma CastIsUnique(n: nat, c: int)
    ensures IsCast(n, c) <==> c == AsI64(n)
    ensures AsI64(n) == n <==> n <= I64_MAX
  {
  }

  /** A saturating total, cast to a signed column. */
  function Column(n: nat): int {
    AsI64(Min(n, U64_MAX))
  }

  /** overwrite_from_scan. */
  ghost function Scanned(rows: Rows, bucket: string, truth: Usage, at: int): Rows
    requires truth.count >= 0 && truth.logical >= 0 && truth.stored >= 0
  {
    rows[bucket := Row(Usage(Column(truth.count), Column(truth.logical), Column(truth.stored)), Some(at))]
  }

  /** The change is reported as it happened. */
  ghost function Do(s: Sys, step: Step): Sys {
    var c := ContentsOf(s, step.bucket);
    match step
    case Mutate(bucket, key, entry, prefix, ref) =>
      var c' := Contents(Put(c.objects, key, entry), Put(c.refs, prefix, ref));
      Sys(WithNet(s.rows, bucket, Get(c.objects, key), entry, SizeOr0(ref) - SizeOr0(Get(c.refs, prefix))),
          s.buckets[bucket := c'])
    case Scan(bucket, at) => s.(rows := Scanned(s.rows, bucket, Truth(c), at))
  }

  ghost function Drift(s: Sys, bucket: string): Usage {
    Minus(Counter(s.rows, bucket), Truth(ContentsOf(s, bucket)))
  }

  // -------------------------------------------------------------- conservation

  lemma PutChangesSum<V>(m: map<string, V>, weight: V -> nat, k: string, v: Option<V>)
    ensures Sum(Put(m, k, v), weight)
            == Sum(m, weight) - (if k in m then weight(m[k]) else 0) + (if v.Some? then weight(v.value) else 0)
  {
    if v.Some? {
      SumUpdate(m, weight, k, v.value);
    } else if k in m {
      SumRemove(m, weight, k);
    } else {
      assert m - {k} == m;
    }
  }

  /** What apply_net adds is what the bucket's totals change by. */
  lemma NetDeltaIsTheChange(c: Contents, key: string, entry: Option<Meta>, prefix: string, ref: Option<Size>)
    ensures Truth(Contents(Put(c.objects, key, entry), Put(c.refs, prefix, ref)))
            == Plus(Truth(c), NetDelta(Get(c.objects, key), entry, SizeOr0(ref) - SizeOr0(Get(c.refs, prefix))))
  {
    hide Sum;
    PutChangesSum(c.objects, CountOf, key, entry);
    PutChangesSum(c.objects, LogicalOf, key, entry);
    PutChangesSum(c.objects, StoredOf, key, entry);
    PutChangesSum(c.refs, BytesOf, prefix, ref);
  }

  /** Counter and truth move together, in every bucket that is counted. */
  lemma MutateKeepsDrift(s: Sys, step: Step, bucket: string)
    requires step.Mutate? && !("__dgmigrate_" <= bucket)
    ensures Drift(Do(s, step), bucket) == Drift(s, bucket)
  {
    hide Sum, NetDelta, Truth;
    if step.bucket == bucket {
      NetDeltaIsTheChange(ContentsOf(s, bucket), step.key, step.entry, step.prefix, step.ref);
    }
  }

  ghost predicate Fits(u: Usage) {
    u.count <= I64_MAX && u.logical <= I64_MAX && u.stored <= I64_MAX
  }

  /** A scan clears the drift of its bucket, exactly when its totals fit the
      signed columns; it leaves the other buckets alone. */
  lemma ScanClearsDriftExactlyWhenItFits(s: Sys, bucket: string, at: int, other: string)
    ensures Drift(Do(s, Scan(bucket, at)), bucket) == NOTHING <==> Fits(Truth(ContentsOf(s, bucket)))
    ensures other != bucket ==> Drift(Do(s, Scan(bucket, at)), other) == Drift(s, other)
  {
    hide Sum, Truth, AsI64;
    var truth := Truth(ContentsOf(s, bucket));
    TruthIsNatural(ContentsOf(s, bucket));
    ColumnIsExact(truth.count);
    ColumnIsExact(truth.logical);
    ColumnIsExact(truth.stored);
  }

  lemma ColumnIsExact(n: nat)
    ensures Column(n) == n <==> n <= I64_MAX
  {
  }

  ghost function RunOf(s: Sys, steps: seq<Step>): Sys
    decreases |steps|
  {
    if steps == [] then s else RunOf(Do(s, steps[0]), steps[1..])
  }

  /** Over any sequence of changes, the difference between counter and truth stays
      what it was. */
  lemma {:induction false} DriftIsConstant(s: Sys, steps: seq<Step>, bucket: string)
    requires !("__dgmigrate_" <= bucket)
    requires forall i :: 0 <= i < |steps| ==> steps[i].Mutate? || steps[i].bucket != bucket
    ensures Drift(RunOf(s, steps), bucket) == Drift(s, bucket)
    decreases |steps|
  {
    hide Drift, Do;
    if steps != [] {
      var s' := Do(s, steps[0]);
      if steps[0].Mutate? {
        MutateKeepsDrift(s, steps[0], bucket);
      } else {
        ScanClearsDriftExactlyWhenItFits(s, steps[0].bucket, steps[0].at, bucket);
      }
      DriftIsConstant(s', steps[1..], bucket);
    }
  }

  /** After a scan, whatever happens until the next one, reading the counter gives
      what a scan would find; the columns have held their values as long as what
      the bucket holds fits them. */
  lemma CounterAgreesAfterScan(s: Sys, bucket: string, at: int, steps: seq<Step>)
    requires !("__dgmigrate_" <= bucket) && Fits(Truth(ContentsOf(s, bucket)))
    requires forall i :: 0 <= i < |steps| ==> steps[i].Mutate? || steps[i].bucket != bucket
    ensures var end := RunOf(Do(s, Scan(bucket, at)), steps);
            && Shown(end.rows, bucket) == Some(Row(Truth(ContentsOf(end, bucket)), Some(at)))
            && (Fits(Counter(end.rows, bucket)) <==> Fits(Truth(ContentsOf(end, bucket))))
  {
    hide Truth, Do;
    var s1 := Do(s, Scan(bucket, at));
    var end := RunOf(s1, steps);
    ScanClearsDriftExactlyWhenItFits(s, bucket, at, bucket);
    DriftIsConstant(s1, steps, bucket);
    ScanStamps(s, bucket, at);
    RowStays(s1, steps, bucket);
    TruthIsNatural(ContentsOf(end, bucket));
  }

  lemma ScanStamps(s: Sys, bucket: string, at: int)
    ensures var s1 := Do(s, Scan(bucket, at)); bucket in s1.rows && s1.rows[bucket].lastScanAt == Some(at)
  {
  }

  lemma TruthIsNatural(c: Contents)
    ensures Truth(c).count >= 0 && Truth(c).logical >= 0 && Truth(c).stored >= 0
  {
  }

  lemma {:induction false} RowStays(s: Sys, steps: seq<Step>, bucket: string)
    requires bucket in s.rows
    requires forall i :: 0 <= i < |steps| ==> steps[i].Mutate? || steps[i].bucket != bucket
    ensures bucket in RunOf(s, steps).rows && RunOf(s, steps).rows[bucket].lastScanAt == s.rows[bucket].lastScanAt
    decreases |steps|
  {
    hide NetDelta, Truth, Sum;
    if steps != [] {
      RowStays(Do(s, steps[0]), steps[1..], bucket);
    }
  }

  /** However transient buckets change, no row of theirs is made or touched. */
  lemma {:induction false} TransientBucketsAreIgnored(s: Sys, steps: seq<Step>, bucket: string)
    requires "__dgmigrate_" <= bucket
    requires forall i :: 0 <= i < |steps| ==> steps[i].Mutate?
    ensures Get(RunOf(s, steps).rows, bucket) == Get(s.rows, bucket)
    decreases |steps|
  {
    hide NetDelta, Truth, Sum;
    if steps != [] {
      TransientBucketsAreIgnored(Do(s, steps[0]), steps[1..], bucket);
    }
  }

  // ------------------------------------------------------------------ the object

  /** SavingsTotals: what a scan accumulates, with saturating additions. */
  datatype Totals = Totals(originalBytes: nat, storedBytes: nat, deltaCount: nat, passthroughCount: nat, referenceCount: nat)

  function Accumulate(t: Totals, meta: Meta): Totals {
    match meta.info
    case Reference =>
      t.(referenceCount := SaturatingAdd(t.referenceCount, 1), storedBytes := SaturatingAdd(t.storedBytes, meta.fileSize))
    case Delta(deltaSize) =>
      t.(deltaCount := SaturatingAdd(t.deltaCount, 1), originalBytes := SaturatingAdd(t.originalBytes, meta.fileSize),
         storedBytes := SaturatingAdd(t.storedBytes, deltaSize))
    case Passthrough =>
      t.(passthroughCount := SaturatingAdd(t.passthroughCount, 1), originalBytes := SaturatingAdd(t.originalBytes, meta.fileSize),
         storedBytes := SaturatingAdd(t.storedBytes, meta.fileSize))
  }

  class BucketUsage {
    var rows: Rows

    constructor ()
      ensures rows == map[]
    {
      rows := map[];
    }

    /** apply_delta; `negative` is the case it warns about. */
    method ApplyDelta(bucket: string, d: Usage) returns (negative: bool)
      modifies this
      ensures rows == WithDelta(old(rows), bucket, d)
      ensures negative == (rows[bucket].usage != Clamped(rows[bucket].usage))
    {
      var row := if bucket in rows then rows[bucket] else Row(NOTHING, None);
      var u := Usage(row.usage.count + d.count, row.usage.logical + d.logical, row.usage.stored + d.stored);
      rows := rows[bucket := row.(usage := u)];
      negative := u.count < 0 || u.logical < 0 || u.stored < 0;
    }

    method ApplyNet(bucket: string, removed: Option<Meta>, added: Option<Meta>, refBytes: int)
      modifies this
      ensures rows == WithNet(old(rows), bucket, removed, added, refBytes)
    {
      if "__dgmigrate_" <= bucket {
        return;
      }
      var dc, dl, ds := 0, 0, refBytes;
      if removed.Some? {
        var d := UsageDelta(removed.value, -1);
        dc, dl, ds := dc + d.count, dl + d.logical, ds + d.stored;
      }
      if added.Some? {
        var d := UsageDelta(added.value, 1);
        dc, dl, ds := dc + d.count, dl + d.logical, ds + d.stored;
      }
      if dc == 0 && dl == 0 && ds == 0 {
        return;
      }
      var _ := ApplyDelta(bucket, Usage(dc, dl, ds));
    }

    /** The scan: every object and every reference, in any order. */
    static method ScanBucket(c: Contents) returns (t: Totals)
      ensures t.originalBytes == Min(Truth(c).logical, U64_MAX) && t.storedBytes == Min(Truth(c).stored, U64_MAX)
      ensures Truth(c).count <= U64_MAX ==> t.deltaCount + t.passthroughCount == Truth(c).count
    {
      hide Sum;
      t := ScanObjects(c.objects);
      t := ScanRefs(t, c.refs);
    }

    static method ScanObjects(objects: map<string, Meta>) returns (t: Totals)
      ensures t.originalBytes == Min(Sum(objects, LogicalOf), U64_MAX)
      ensures t.storedBytes == Min(Sum(objects, StoredOf), U64_MAX)
      ensures Sum(objects, CountOf) <= U64_MAX ==> t.deltaCount + t.passthroughCount == Sum(objects, CountOf)
    {
      t := Totals(0, 0, 0, 0, 0);
      var todo := objects.Keys;
      ghost var done: set<string> := {};
      assert Restrict(objects, done) == map[];
      while todo != {}
        invariant done <= objects.Keys && todo == objects.Keys - done
        invariant t.originalBytes == Min(Sum(Restrict(objects, done), LogicalOf), U64_MAX)
        invariant t.storedBytes == Min(Sum(Restrict(objects, done), StoredOf), U64_MAX)
        invariant Sum(Restrict(objects, done), CountOf) <= U64_MAX ==>
          t.deltaCount + t.passthroughCount == Sum(Restrict(objects, done), CountOf)
        decreases todo
      {
        hide Sum, Restrict;
        var key :| key in todo;
        OneMore(objects, done, key);
        t := Accumulate(t, objects[key]);
        todo, done := todo - {key}, done + {key};
      }
      assert Restrict(objects, done) == objects;
    }

    static method ScanRefs(t0: Totals, refs: map<string, Size>) returns (t: Totals)
      ensures t == t0.(storedBytes := t.storedBytes, referenceCount := t.referenceCount)
      ensures t0.storedBytes <= U64_MAX ==> t.storedBytes == Min(t0.storedBytes + Sum(refs, BytesOf), U64_MAX)
    {
      t := t0;
      var todo := refs.Keys;
      ghost var done: set<string> := {};
      assert Restrict(refs, done) == map[];
      while todo != {}
        invariant done <= refs.Keys && todo == refs.Keys - done
        invariant t == t0.(storedBytes := t.storedBytes, referenceCount := t.referenceCount)
        invariant t0.storedBytes <= U64_MAX ==>
          t.storedBytes == Min(t0.storedBytes + Sum(Restrict(refs, done), BytesOf), U64_MAX)
        decreases todo
      {
        hide Sum, Restrict;
        var prefix :| prefix in todo;
        OneMoreRef(refs, done, prefix);
        t := Accumulate(t, Meta(refs[prefix], Reference));
        todo, done := todo - {prefix}, done + {prefix};
      }
      assert Restrict(refs, done) == refs;
    }

    method OverwriteFromScan(bucket: string, t: Totals, at: int)
      modifies this
      ensures bucket in rows && rows == old(rows)[bucket := rows[bucket]] && rows[bucket].lastScanAt == Some(at)
      ensures var u := rows[bucket].usage;
              && IsCast(t.deltaCount + t.passthroughCount, u.count)
              && IsCast(t.originalBytes, u.logical) && IsCast(t.storedBytes, u.stored)
    {
      var count := AsI64(t.deltaCount + t.passthroughCount);
      CastIsUnique(t.deltaCount + t.passthroughCount, count);
      CastIsUnique(t.originalBytes, AsI64(t.originalBytes));
      CastIsUnique(t.storedBytes, AsI64(t.storedBytes));
      rows := rows[bucket := Row(Usage(count, AsI64(t.originalBytes), AsI64(t.storedBytes)), Some(at))];
    }

    /** Scan and overwrite: the refresh as the step on values has it. */
    method Refresh(bucket: string, c: Contents, at: int)
      requires Truth(c).count <= U64_MAX
      modifies this
      ensures rows == Scanned(old(rows), bucket, Truth(c), at)
    {
      hide Sum;
      var t := ScanBucket(c);
      OverwriteFromScan(bucket, t, at);
      CastIsUnique(t.deltaCount + t.passthroughCount, rows[bucket].usage.count);
      CastIsUnique(t.originalBytes, rows[bucket].usage.logical);
      CastIsUnique(t.storedBytes, rows[bucket].usage.stored);
    }

    method Read(bucket: string) returns (row: Option<Row>)
      ensures row == Shown(rows, bucket)
    {
      if bucket !in rows {
        return None;
      }
      var u := rows[bucket].usage;
      var shown := Usage(if u.count > 0 then u.count else 0, if u.logical > 0 then u.logical else 0,
                         if u.stored > 0 then u.stored else 0);
      row := Some(Row(shown, rows[bucket].lastScanAt));
    }
  }

  lemma OneMore(m: map<string, Meta>, done: set<string>, key: string)
    requires key in m && key !in done
    ensures Sum(Restrict(m, done + {key}), CountOf) == Sum(Restrict(m, done), CountOf) + CountOf(m[key])
    ensures Sum(Restrict(m, done + {key}), LogicalOf) == Sum(Restrict(m, done), LogicalOf) + LogicalOf(m[key])
    ensures Sum(Restrict(m, done + {key}), StoredOf) == Sum(Restrict(m, done), StoredOf) + StoredOf(m[key])
  {
    assert Restrict(m, done + {key}) == Restrict(m, done)[key := m[key]];
    SumUpdate(Restrict(m, done), CountOf, key, m[key]);
    SumUpdate(Restrict(m, done), LogicalOf, key, m[key]);
    SumUpdate(Restrict(m, done), StoredOf, key, m[key]);
  }

  lemma OneMoreRef(m: map<string, Size>, done: set<string>, key: string)
    requires key in m && key !in done
    ensures Sum(Restrict(m, done + {key}), BytesOf) == Sum(Restrict(m, done), BytesOf) + m[key]
  {
    assert Restrict(m, done + {key}) == Restrict(m, done)[key := m[key]];
    SumUpdate(Restrict(m, done), BytesOf, key, m[key]);
  }
}
