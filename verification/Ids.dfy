/** Fixed-width integers and the task ids that Forward hands out.

    The counter and the ids are 64 bits wide and wrap; the QuantumTask and QuantumResult messages
    carry the id in an int32 field, so every id is narrowed on the way out and sign-extended on the
    way back (section [conv.integral] of ISO C++23).
 */
module Ids {

  const TWO_28 := 0x1000_0000
  const TWO_31 := 0x8000_0000
  const TWO_32 := 0x1_0000_0000
  const TWO_60 := 0x1000_0000_0000_0000
  const TWO_64 := 0x1_0000_0000_0000_0000

  type uint64 = n: int | 0 <= n < 0x1_0000_0000_0000_0000
  type int32 = n: int | -0x8000_0000 <= n < 0x8000_0000

  /** Conversion to an unsigned 64-bit integer: the value modulo 2^64. */
  function ToUint64(n: int): uint64 {
    n % 0x1_0000_0000_0000_0000
  }

  /** Conversion to a signed 32-bit integer: the value modulo 2^32, read as two's complement. */
  function ToInt32(n: int): int32 {
    var low := n % 0x1_0000_0000;
    if low < 0x8000_0000 then low else low - 0x1_0000_0000
  }

  /** The id for one value of the counter: the product wraps, then the sum wraps. */
  function TaskId(index: uint64, uid: uint64): uint64 {
    ToUint64(ToUint64(index * 10000) + uid)
  }

  /** The key under which a result for `id` is looked up after the trip through the int32 field. */
  function ReturnKey(id: uint64): uint64 {
    ToUint64(ToInt32(id))
  }

  /** The ids that come back from the wire unchanged. */
  predicate InRange(id: uint64) {
    id < TWO_31 || id >= TWO_64 - TWO_31
  }

  // ---------- remainders ----------

  lemma SmallMultipleIsZero(m: int, d: int)
    requires m > 0 && -m < m * d < m
    ensures d == 0
  {
  }

  /** Equal remainders are a difference that the modulus divides. */
  lemma CongruentIffDivides(a: int, b: int, m: int)
    requires m > 0
    ensures a % m == b % m <==> exists q :: a - b == m * q
  {
    assert a == m * (a / m) + a % m && b == m * (b / m) + b % m;
    if a % m == b % m {
      assert a - b == m * (a / m - b / m);
    }
    if q :| a - b == m * q {
      var d := b / m + q - a / m;
      assert m * d == a % m - b % m;
      SmallMultipleIsZero(m, d);
    }
  }

  /** 10000 is 16 * 625 and 625 has an inverse modulo every power of two. */
  lemma StrideDividesTwo64(d: int)
    ensures (exists q :: d * 10000 == TWO_64 * q) <==> (exists r :: d == TWO_60 * r)
  {
    if q :| d * 10000 == TWO_64 * q {
      assert d == TWO_60 * (182622766329724561 * q - 99 * d);
    }
    if r :| d == TWO_60 * r {
      assert d * 10000 == TWO_64 * (625 * r);
    }
  }

  lemma StrideDividesTwo32(d: int)
    ensures (exists q :: d * 10000 == TWO_32 * q) <==> (exists r :: d == TWO_28 * r)
  {
    if q :| d * 10000 == TWO_32 * q {
      assert d == TWO_28 * (184254097 * q - 429 * d);
    }
    if r :| d == TWO_28 * r {
      assert d * 10000 == TWO_32 * (625 * r);
    }
  }

  /** Wrapping the product first makes no difference. */
  lemma TaskIdIsOneWrap(index: uint64, uid: uint64)
    ensures TaskId(index, uid) == (index * 10000 + uid) % TWO_64
    ensures TaskId(index, uid) % TWO_32 == (index * 10000 + uid) % TWO_32
  {
    var product := index * 10000;
    assert product == TWO_64 * (product / TWO_64) + product % TWO_64;
    var sum := product % TWO_64 + uid;
    assert sum == TWO_64 * (sum / TWO_64) + sum % TWO_64;
    assert product + uid - sum % TWO_64 == TWO_32 * (TWO_32 * (product / TWO_64 + sum / TWO_64));
    CongruentIffDivides(product + uid, sum % TWO_64, TWO_32);
    CongruentIffDivides(product + uid, sum % TWO_64, TWO_64);
    assert product + uid - sum % TWO_64 == TWO_64 * (product / TWO_64 + sum / TWO_64);
  }

  // ---------- what the ids guarantee ----------

  lemma SameIdIff(i: uint64, j: uint64, uid: uint64)
    ensures TaskId(i, uid) == TaskId(j, uid) <==> i % TWO_60 == j % TWO_60
  {
    TaskIdIsOneWrap(i, uid);
    TaskIdIsOneWrap(j, uid);
    CongruentIffDivides(i * 10000 + uid, j * 10000 + uid, TWO_64);
    assert (i * 10000 + uid) - (j * 10000 + uid) == (i - j) * 10000;
    StrideDividesTwo64(i - j);
    CongruentIffDivides(i, j, TWO_60);
  }

  lemma SameWireIdIff(i: uint64, j: uint64, uid: uint64)
    ensures ToInt32(TaskId(i, uid)) == ToInt32(TaskId(j, uid)) <==> i % TWO_28 == j % TWO_28
  {
    TaskIdIsOneWrap(i, uid);
    TaskIdIsOneWrap(j, uid);
    CongruentIffDivides(i * 10000 + uid, j * 10000 + uid, TWO_32);
    assert (i * 10000 + uid) - (j * 10000 + uid) == (i - j) * 10000;
    StrideDividesTwo32(i - j);
    CongruentIffDivides(i, j, TWO_28);
  }

  /** Narrowing then sign-extending is the identity on exactly the ids in range. */
  lemma ReturnsUnchangedIffInRange(id: uint64)
    ensures ReturnKey(id) == id <==> InRange(id)
  {
    var high := id / TWO_32;
    assert id == TWO_32 * high + id % TWO_32;
  }

  /** The other order loses nothing, so a client's own int32 id is always restored. */
  lemma Int32Survives(n: int32)
    ensures ToInt32(ToUint64(n)) == n
  {
  }

  /** A result for one id looks under another exactly when the two share the wire id and the other is in range. */
  lemma KeyMatchesIff(id: uint64, other: uint64)
    ensures ReturnKey(id) == other <==> ToInt32(id) == ToInt32(other) && InRange(other)
  {
    Int32Survives(ToInt32(id));
    ReturnsUnchangedIffInRange(other);
  }

  lemma EarlyWireIdsDiffer(i: uint64, j: uint64, uid: uint64)
    requires i < TWO_28 && j < TWO_28
    ensures ToInt32(TaskId(i, uid)) == ToInt32(TaskId(j, uid)) <==> i == j
  {
    assert i % TWO_28 == i && j % TWO_28 == j;
    SameWireIdIff(i, j, uid);
  }

  /** Among the first 2^28 ids a returning result finds its own key or no key at all. */
  lemma OwnKeyOrNone(i: uint64, j: uint64, uid: uint64)
    requires i < TWO_28 && j < TWO_28
    ensures ReturnKey(TaskId(i, uid)) == TaskId(j, uid) <==> i == j && InRange(TaskId(i, uid))
  {
    EarlyWireIdsDiffer(i, j, uid);
    if i == j {
      ReturnsUnchangedIffInRange(TaskId(i, uid));
    } else {
      KeyMatchesIff(TaskId(i, uid), TaskId(j, uid));
    }
  }

  /** Before the sum wraps it is the id, in range up to 2^31 and again for the last 2^31 values. */
  lemma UnwrappedTaskId(index: uint64, uid: uint64)
    requires index * 10000 + uid < TWO_64
    ensures TaskId(index, uid) == index * 10000 + uid
    ensures InRange(TaskId(index, uid)) <==> !(TWO_31 <= index * 10000 + uid < TWO_64 - TWO_31)
  {
  }

  /** The bound is tight: the result for index 2^28 comes back under the key of index 0. */
  lemma FirstCollision(uid: uint64)
    requires uid < TWO_31
    ensures TaskId(TWO_28, uid) != TaskId(0, uid) == ReturnKey(TaskId(TWO_28, uid))
  {
    assert TWO_28 % TWO_60 != 0 % TWO_60 && TWO_28 % TWO_28 == 0 % TWO_28;
    SameIdIff(TWO_28, 0, uid);
    SameWireIdIff(TWO_28, 0, uid);
    UnwrappedTaskId(0, uid);
    KeyMatchesIff(TaskId(TWO_28, uid), TaskId(0, uid));
  }

  /** Before the sum wraps, instances with uids below the stride share no id. */
  lemma InstancesStayApart(i: uint64, j: uint64, uidA: uint64, uidB: uint64)
    requires uidA < 10000 && uidB < 10000
    requires i * 10000 + uidA < TWO_64 && j * 10000 + uidB < TWO_64
    ensures TaskId(i, uidA) == TaskId(j, uidB) <==> i == j && uidA == uidB
  {
    UnwrappedTaskId(i, uidA);
    UnwrappedTaskId(j, uidB);
    if TaskId(i, uidA) == TaskId(j, uidB) {
      assert 10000 * (i - j) == uidB - uidA;
      SmallMultipleIsZero(10000, i - j);
    }
  }
}
