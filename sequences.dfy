/**
 * Pure sequence facts the engine relies on: duplicate-free scheduling into
 * the pending FIFO, the chunks a drain pops off its front, the round-robin
 * use of pool slots and what each slot is left holding, key/value pairing
 * for request maps, and single-match lookup.
 */
module Sequences {

  /** No element occurs twice. */
  predicate NoDuplicates<T(==)>(s: seq<T>) {
    forall i, j :: 0 <= i < j < |s| ==> s[i] != s[j]
  }

  function Min(a: int, b: int): int { if a <= b then a else b }

  /** The first n elements of s, or all of s when it is shorter. */
  function Take<T>(s: seq<T>, n: nat): (r: seq<T>)
    ensures |r| == Min(n, |s|)
  {
    if n <= |s| then s[..n] else s
  }

  /** s without its first n elements (empty when s is shorter). */
  function Drop<T>(s: seq<T>, n: nat): (r: seq<T>)
    ensures |r| == |s| - Min(n, |s|)
  {
    if n <= |s| then s[n..] else []
  }

  /** Concatenation of a sequence of chunks, in order. */
  function Concat<T>(chunks: seq<seq<T>>): seq<T> {
    if chunks == [] then [] else Concat(chunks[..|chunks| - 1]) + chunks[|chunks| - 1]
  }

  // ---------------------------------------------------------------------
  // Scheduling into the pending FIFO
  // ---------------------------------------------------------------------

  /** The pending FIFO after scheduling x: x joins the back unless it is already pending. */
  function ScheduleOnce<T(==)>(q: seq<T>, x: T): (r: seq<T>)
    ensures q <= r && |r| <= |q| + 1
    ensures x in r && forall i :: 0 <= i < |r| ==> r[i] in q || r[i] == x
    ensures NoDuplicates(q) ==> NoDuplicates(r)
  {
    if x in q then q else q + [x]
  }

  /** The pending FIFO after scheduling every element of xs, in order. */
  function ScheduleAll<T(==)>(q: seq<T>, xs: seq<T>): (r: seq<T>)
    ensures q <= r
    ensures forall i :: 0 <= i < |xs| ==> xs[i] in r
    ensures forall i :: 0 <= i < |r| ==> r[i] in q || r[i] in xs
    ensures NoDuplicates(q) ==> NoDuplicates(r)
    decreases |xs|
  {
    if xs == [] then q else ScheduleOnce(ScheduleAll(q, xs[..|xs| - 1]), xs[|xs| - 1])
  }

  /** Scheduling the same item any number of times leaves exactly one entry for it. */
  lemma {:induction false} ScheduleIsIdempotent<T>(q: seq<T>, x: T, times: nat)
    requires NoDuplicates(q) && times > 0
    ensures multiset(ScheduleAll(q, seq(times, _ => x)))[x] == 1
  {
    var r := ScheduleAll(q, seq(times, _ => x));
    assert x in r;
    OccursOnce(r, x);
  }

  /** Appending an element that is not there yet keeps a sequence duplicate-free. */
  lemma AppendFresh<T>(s: seq<T>, x: T)
    requires NoDuplicates(s) && x !in s
    ensures NoDuplicates(s + [x])
  {
    assert forall i :: 0 <= i < |s| ==> (s + [x])[i] == s[i];
  }

  /** In a duplicate-free sequence every member occurs exactly once. */
  lemma {:induction false} OccursOnce<T>(s: seq<T>, x: T)
    requires NoDuplicates(s) && x in s
    ensures multiset(s)[x] == 1
  {
    if s[|s| - 1] == x {
      assert s == s[..|s| - 1] + [x];
      assert x !in s[..|s| - 1];
    } else {
      assert s == s[..|s| - 1] + [s[|s| - 1]];
      OccursOnce(s[..|s| - 1], x);
    }
  }

  // ---------------------------------------------------------------------
  // Chunking the pending FIFO
  // ---------------------------------------------------------------------

  /**
   * The number of chunks a drain dispatches for count pending items, as
   * written: the least number of chunks of max items that hold more than
   * count, so always one more than needed when max divides count.
   */
  function ChunkCount(count: nat, max: nat): (r: nat)
    requires max > 0
    ensures r >= 1 && (r - 1) * max <= count < r * max
  {
    DivMod(count, max);
    MulSucc(count / max, max);
    count / max + 1
  }

  /** What is left of q once n chunks of max items have been popped off its front. */
  function Rest<T>(q: seq<T>, max: nat, n: nat): seq<T>
    decreases n
  {
    if n == 0 then q else Drop(Rest(q, max, n - 1), max)
  }

  /** The first n chunks popped from the front of q, each of at most max items (later ones may be empty). */
  function Chunks<T>(q: seq<T>, max: nat, n: nat): (r: seq<seq<T>>)
    ensures |r| == n
    decreases n
  {
    if n == 0 then [] else Chunks(q, max, n - 1) + [Take(Rest(q, max, n - 1), max)]
  }

  /** Popping n chunks of max items drops the first n * max items. */
  lemma {:induction false} RestIsDrop<T>(q: seq<T>, max: nat, n: nat, offset: nat)
    requires offset == n * max
    ensures Rest(q, max, n) == Drop(q, offset)
  {
    if n > 0 {
      PrevOffset(n, max);
      RestIsDrop(q, max, n - 1, offset - max);
      DropDrop(q, offset - max, max);
    }
  }

  /** The offset one chunk earlier: (n - 1) * max, which is n * max - max. */
  lemma PrevOffset(n: nat, max: nat)
    requires n > 0
    ensures n * max >= max && n * max - max == (n - 1) * max
  {
    MulSucc(n - 1, max);
    MulLe(0, n - 1, max);
  }

  /** Nothing is lost or reordered: the chunks, followed by what is left, are q again. */
  lemma {:induction false} ChunksConcat<T>(q: seq<T>, max: nat, n: nat)
    ensures Concat(Chunks(q, max, n)) + Rest(q, max, n) == q
  {
    if n > 0 {
      var prev, rest := Chunks(q, max, n - 1), Rest(q, max, n - 1);
      var front, back := Take(rest, max), Drop(rest, max);
      assert Chunks(q, max, n) == prev + [front];
      assert Rest(q, max, n) == back;
      ConcatSnoc(prev, front);
      AppendAssoc(Concat(prev), front, back);
      TakeDrop(rest, max);
      ChunksConcat(q, max, n - 1);
    }
  }

  /** Concatenating one more chunk appends it. */
  lemma ConcatSnoc<T>(chunks: seq<seq<T>>, last: seq<T>)
    ensures Concat(chunks + [last]) == Concat(chunks) + last
  {
    assert (chunks + [last])[..|chunks|] == chunks;
  }

  /** No chunk holds more than max items. */
  lemma ChunksBounded<T>(q: seq<T>, max: nat, n: nat, j: nat)
    requires j < n
    ensures |Chunks(q, max, n)[j]| <= max
  {
    ChunkAt(q, max, n, j);
  }

  lemma TakeDrop<T>(s: seq<T>, n: nat)
    ensures Take(s, n) + Drop(s, n) == s
  {
  }

  lemma AppendAssoc<T>(a: seq<T>, b: seq<T>, c: seq<T>)
    ensures (a + b) + c == a + (b + c)
  {
  }

  /** Dropping a then b items drops a + b. */
  lemma DropDrop<T>(q: seq<T>, a: nat, b: nat)
    ensures Drop(Drop(q, a), b) == Drop(q, a + b)
  {
  }

  /** The j-th chunk is the window of max items starting at j * max. */
  lemma {:induction false} ChunkAt<T>(q: seq<T>, max: nat, n: nat, j: nat)
    requires j < n
    ensures Chunks(q, max, n)[j] == Take(Drop(q, j * max), max)
  {
    if j < n - 1 {
      ChunkAt(q, max, n - 1, j);
    } else {
      RestIsDrop(q, max, j, j * max);
    }
  }

  /** After the drain's ChunkCount chunks, nothing of q is left over: the chunks are q, in order. */
  lemma ChunksCoverQueue<T>(q: seq<T>, max: nat)
    requires max > 0
    ensures Rest(q, max, ChunkCount(|q|, max)) == []
    ensures Concat(Chunks(q, max, ChunkCount(|q|, max))) == q
  {
    var n := ChunkCount(|q|, max);
    CountBound(|q|, max);
    RestIsDrop(q, max, n, n * max);
    ChunksConcat(q, max, n);
  }

  lemma CountBound(count: nat, max: nat)
    requires max > 0
    ensures count < ChunkCount(count, max) * max
  {
    var d := count / max;
    assert count == d * max + count % max;
    MulSucc(d, max);
  }

  /**
   * Every chunk but the last of a drain is full; the last holds count % max items.
   * In particular the trailing chunk is empty exactly when count is a multiple of max.
   */
  lemma ChunkSizes<T>(q: seq<T>, max: nat, j: nat)
    requires max > 0 && j < ChunkCount(|q|, max)
    ensures j < |q| / max ==> |Chunks(q, max, ChunkCount(|q|, max))[j]| == max
    ensures j == |q| / max ==> |Chunks(q, max, ChunkCount(|q|, max))[j]| == |q| % max
    ensures j == ChunkCount(|q|, max) - 1 ==> (Chunks(q, max, ChunkCount(|q|, max))[j] == [] <==> |q| % max == 0)
  {
    var n := ChunkCount(|q|, max);
    ChunkAt(q, max, n, j);
    var d, r := |q| / max, |q| % max;
    var c := Chunks(q, max, n)[j];
    DivMod(|q|, max);
    assert j <= d;
    WindowSize(q, max, j, d, r);
    if j == n - 1 {
      assert j == d;
      assert c == [] <==> |c| == 0;
    }
  }

  /** The size of the window of max items starting at j * max, given |q| == d * max + r. */
  lemma WindowSize<T>(q: seq<T>, max: nat, j: nat, d: nat, r: nat)
    requires max > 0 && j <= d && 0 <= r < max && |q| == d * max + r
    ensures |Take(Drop(q, j * max), max)| == if j < d then max else r
  {
    var w := j * max;
    MulSucc(j, max);
    if j < d {
      MulLe(j + 1, d, max);
      assert w + max <= |q|;
    } else {
      assert w == d * max;
      assert |Drop(q, w)| == r;
    }
  }

  lemma DivMod(a: nat, m: nat)
    requires m > 0
    ensures a == (a / m) * m + a % m && 0 <= a % m < m
  {
  }

  lemma MulSucc(k: int, m: int)
    ensures (k + 1) * m == k * m + m
  {
  }

  lemma MulLe(a: int, b: int, m: int)
    requires a <= b && m >= 0
    ensures a * m <= b * m
  {
    assert b * m - a * m == (b - a) * m;
  }

  /** Euclidean division is determined by quotient and remainder. */
  lemma DivModUnique(a: int, m: int, k: int, r: int)
    requires m > 0 && 0 <= r < m && a == k * m + r
    ensures a / m == k && a % m == r
  {
    var k0, r0 := a / m, a % m;
    assert a == k0 * m + r0;
    if k0 < k {
      MulLe(k0 + 1, k, m);
      MulSucc(k0, m);
      assert false;
    } else if k < k0 {
      MulLe(k + 1, k0, m);
      MulSucc(k, m);
      assert false;
    }
  }

  /** The drain of seven items in chunks of three: sizes 3, 3, 1. */
  lemma SevenInChunksOfThree<T>(q: seq<T>)
    requires |q| == 7
    ensures ChunkCount(|q|, 3) == 3
    ensures Chunks(q, 3, 3) == [q[0..3], q[3..6], q[6..]]
  {
    var c := Chunks(q, 3, 3);
    ChunkAt(q, 3, 3, 0);
    ChunkAt(q, 3, 3, 1);
    ChunkAt(q, 3, 3, 2);
    assert c[0] == q[0..3] && c[1] == q[3..6];
    assert c[2] == q[6..];
  }

  /** The drain of six items in chunks of three dispatches a third, empty, chunk. */
  lemma SixInChunksOfThree<T>(q: seq<T>)
    requires |q| == 6
    ensures ChunkCount(|q|, 3) == 3
    ensures Chunks(q, 3, 3) == [q[0..3], q[3..6], []]
  {
    var c := Chunks(q, 3, 3);
    ChunkAt(q, 3, 3, 0);
    ChunkAt(q, 3, 3, 1);
    ChunkAt(q, 3, 3, 2);
    assert c[0] == q[0..3] && c[1] == q[3..6];
    assert c[2] == [];
  }

  // ---------------------------------------------------------------------
  // Round-robin use of the task pool
  // ---------------------------------------------------------------------

  /** The cursor after one step: the source stores every new value modulo the pool size. */
  function Advance(cursor: nat, poolSize: nat): (r: nat)
    requires poolSize > 0
    ensures r < poolSize
  {
    (cursor + 1) % poolSize
  }

  /** The pool slot used by dispatch j when the cursor started at start. */
  function Slot<T>(pool: seq<T>, start: nat, j: nat): T
    requires |pool| > 0
  {
    pool[(start + j) % |pool|]
  }

  /** The pool slots visited by n consecutive dispatches starting at slot start. */
  function RoundRobin<T>(pool: seq<T>, start: nat, n: nat): (r: seq<T>)
    requires |pool| > 0
    ensures |r| == n
    ensures forall j :: 0 <= j < n ==> r[j] == Slot(pool, start, j)
    decreases n
  {
    if n == 0 then [] else RoundRobin(pool, start, n - 1) + [Slot(pool, start, n - 1)]
  }

  /** Stepping the cursor once from (start + i) mod P reaches (start + i + 1) mod P. */
  lemma ModSucc(a: nat, m: nat)
    requires m > 0
    ensures Advance(a % m, m) == (a + 1) % m
  {
    var q := a / m;
    assert a == q * m + a % m;
    if a % m + 1 == m {
      MulSucc(q, m);
      DivModUnique(a + 1, m, q + 1, 0);
      DivModUnique(a % m + 1, m, 1, 0);
    } else {
      DivModUnique(a + 1, m, q, a % m + 1);
      DivModUnique(a % m + 1, m, 0, a % m + 1);
    }
  }

  /** Starting from slot 0, dispatch j uses slot j mod P: 0, 1, ..., P-1, 0, 1, ... */
  lemma RoundRobinFromZero<T>(pool: seq<T>, n: nat, j: nat)
    requires |pool| > 0 && j < n
    ensures RoundRobin(pool, 0, n)[j] == pool[j % |pool|]
    ensures j + |pool| < n ==> RoundRobin(pool, 0, n)[j + |pool|] == RoundRobin(pool, 0, n)[j]
  {
    if j + |pool| < n {
      var p := |pool|;
      assert j == (j / p) * p + j % p;
      MulSucc(j / p, p);
      DivModUnique(j + p, p, j / p + 1, j % p);
    }
  }

  /**
   * The state after i rounds of a drain that started with FIFO q0, cursor
   * start and logs sent0 and chunks0: i chunks popped from the front, the
   * cursor i steps further round the pool, the slots used and the chunks
   * they carried appended to the logs.
   */
  predicate DrainedBy<T(==), U(==)>(q0: seq<T>, max: nat, pool: seq<U>, start: nat, sent0: seq<U>, chunks0: seq<seq<T>>,
                            i: nat, q: seq<T>, cursor: nat, sent: seq<U>, chunks: seq<seq<T>>)
    requires |pool| > 0
  {
    && q == Rest(q0, max, i)
    && cursor == (start + i) % |pool|
    && sent == sent0 + RoundRobin(pool, start, i)
    && chunks == chunks0 + Chunks(q0, max, i)
  }

  /** One round of the drain: pop a chunk, log the current slot and the chunk, advance the cursor. */
  lemma DrainStep<T, U>(q0: seq<T>, max: nat, pool: seq<U>, start: nat, sent0: seq<U>, chunks0: seq<seq<T>>,
                        i: nat, q: seq<T>, cursor: nat, sent: seq<U>, chunks: seq<seq<T>>)
    requires |pool| > 0 && DrainedBy(q0, max, pool, start, sent0, chunks0, i, q, cursor, sent, chunks)
    ensures cursor < |pool| && pool[cursor] == Slot(pool, start, i)
    ensures DrainedBy(q0, max, pool, start, sent0, chunks0, i + 1,
                      Drop(q, max), Advance(cursor, |pool|), sent + [pool[cursor]], chunks + [Take(q, max)])
  {
    ModSucc(start + i, |pool|);
    assert RoundRobin(pool, start, i + 1) == RoundRobin(pool, start, i) + [Slot(pool, start, i)];
  }

  /**
   * What each pool slot holds after the values c were set up round-robin,
   * value j on slot (start + j) mod P, over slots that held init: a later
   * value set up on a slot replaces the earlier one.
   */
  function Holdings<C>(init: seq<C>, start: nat, c: seq<C>): (r: seq<C>)
    requires |init| > 0
    ensures |r| == |init|
    decreases |c|
  {
    if c == [] then init else Holdings(init, start, c[..|c| - 1])[(start + |c| - 1) % |init| := c[|c| - 1]]
  }

  /** One more value set up: it replaces what its slot held. */
  lemma HoldingsSnoc<C>(init: seq<C>, start: nat, c: seq<C>, x: C)
    requires |init| > 0
    ensures Holdings(init, start, c + [x]) == Holdings(init, start, c)[(start + |c|) % |init| := x]
  {
    assert (c + [x])[..|c|] == c;
  }

  /** Fewer than P rounds apart, two dispatches use different slots. */
  lemma SlotsApart(start: nat, a: nat, b: nat, p: nat)
    requires p > 0 && a < b < a + p
    ensures (start + a) % p != (start + b) % p
  {
    var x, y := start + a, start + b;
    DivMod(x, p);
    DivMod(y, p);
    if x % p == y % p {
      var k := y / p - x / p;
      assert y - x == (y / p) * p - (x / p) * p;
      assert (y / p) * p - (x / p) * p == k * p;
      if k <= 0 {
        MulLe(k, 0, p);
      } else {
        MulLe(1, k, p);
      }
      assert false;
    }
  }

  /** Each of the last P values set up is still held by its slot. */
  lemma {:induction false} HoldingsRecent<C>(init: seq<C>, start: nat, c: seq<C>, j: nat)
    requires |init| > 0 && j < |c| <= j + |init|
    ensures Holdings(init, start, c)[(start + j) % |init|] == c[j]
    decreases |c|
  {
    var front := c[..|c| - 1];
    if j < |c| - 1 {
      HoldingsRecent(init, start, front, j);
      SlotsApart(start, j, |c| - 1, |init|);
    }
  }

  /** A slot no round reached still holds what it held before. */
  lemma {:induction false} HoldingsUnvisited<C>(init: seq<C>, start: nat, c: seq<C>, j: nat)
    requires |c| <= j < |init|
    ensures Holdings(init, start, c)[(start + j) % |init|] == init[(start + j) % |init|]
    decreases |c|
  {
    if c != [] {
      HoldingsUnvisited(init, start, c[..|c| - 1], j);
      SlotsApart(start, |c| - 1, j, |init|);
    }
  }

  /** The last of the n rounds that used the slot of round j: the slot comes round every p rounds. */
  function LastVisit(j: nat, n: nat, p: nat): (r: nat)
    requires p > 0 && j < n
    ensures j <= r < n <= r + p
    ensures j + p < n ==> j < r
  {
    var k := (n - 1 - j) / p;
    DivMod(n - 1 - j, p);
    MulLe(0, k, p);
    if j + p < n then
      MulLe(1, k, p);
      j + k * p
    else
      j + k * p
  }

  /** Round LastVisit(j, n, p) uses the same slot as round j. */
  lemma SameSlot(start: nat, j: nat, n: nat, p: nat)
    requires p > 0 && j < n
    ensures (start + LastVisit(j, n, p)) % p == (start + j) % p
  {
    var k := (n - 1 - j) / p;
    var a, b := (start + j) / p, (start + j) % p;
    DivMod(start + j, p);
    assert start + LastVisit(j, n, p) == (a + k) * p + b;
    DivModUnique(start + LastVisit(j, n, p), p, a + k, b);
  }

  /**
   * After n rounds a slot holds the value of the last round that used it.
   * With more rounds than slots (j + P < n) that is a later value, so the
   * value of round j is held by no slot.
   */
  lemma HoldingsLatest<C>(init: seq<C>, start: nat, c: seq<C>, j: nat)
    requires |init| > 0 && j < |c|
    ensures Holdings(init, start, c)[(start + j) % |init|] == c[LastVisit(j, |c|, |init|)]
  {
    SameSlot(start, j, |c|, |init|);
    HoldingsRecent(init, start, c, LastVisit(j, |c|, |init|));
  }

  /** On a single slot, a second value set up replaces the first. */
  lemma ReusedSlotOverwritten<C>(init: seq<C>, first: C, second: C)
    requires |init| == 1
    ensures Holdings(init, 0, [first, second]) == [second]
  {
    assert [first, second][..1] == [first];
    assert [first][..0] == [];
  }

  // ---------------------------------------------------------------------
  // Key/value pairing used for request maps
  // ---------------------------------------------------------------------

  /** The map built by adding keys[i] -> vals[i] in order (a later key overwrites an earlier one). */
  function ZipMap<K, V>(keys: seq<K>, vals: seq<V>): (m: map<K, V>)
    requires |keys| == |vals|
    ensures m.Keys == set k | k in keys
    decreases |keys|
  {
    if keys == [] then map[]
    else ZipMap(keys[..|keys| - 1], vals[..|vals| - 1])[keys[|keys| - 1] := vals[|vals| - 1]]
  }

  /** With distinct keys, every key maps to its own value and the map has one entry per key. */
  lemma {:induction false} ZipMapDistinct<K, V>(keys: seq<K>, vals: seq<V>)
    requires |keys| == |vals| && NoDuplicates(keys)
    ensures |ZipMap(keys, vals)| == |keys|
    ensures forall i :: 0 <= i < |keys| ==> ZipMap(keys, vals)[keys[i]] == vals[i]
  {
    if keys != [] {
      var n := |keys| - 1;
      var ks, vs := keys[..n], vals[..n];
      var m := ZipMap(ks, vs);
      assert ZipMap(keys, vals) == m[keys[n] := vals[n]];
      PrefixDistinct(keys, n);
      ZipMapDistinct(ks, vs);
      assert keys[n] !in m;
      forall i | 0 <= i < n
        ensures ZipMap(keys, vals)[keys[i]] == vals[i]
      {
        assert keys[i] == ks[i] && vals[i] == vs[i];
      }
    }
  }

  /** Extending a prefix by one element. */
  lemma PrefixSnoc<T>(s: seq<T>, i: nat)
    requires i < |s|
    ensures s[..i + 1] == s[..i] + [s[i]]
  {
  }

  /** An element that already occurs earlier is a duplicate. */
  lemma RepeatedElement<T>(s: seq<T>, i: nat)
    requires i < |s| && s[i] in s[..i]
    ensures !NoDuplicates(s)
  {
    var j :| 0 <= j < i && s[..i][j] == s[i];
    assert s[j] == s[i];
  }

  /** Adding one more pair to a zipped map. */
  lemma ZipMapSnoc<K, V>(keys: seq<K>, vals: seq<V>, k: K, v: V)
    requires |keys| == |vals|
    ensures ZipMap(keys + [k], vals + [v]) == ZipMap(keys, vals)[k := v]
  {
    assert (keys + [k])[..|keys|] == keys && (vals + [v])[..|vals|] == vals;
  }

  /** A prefix of a duplicate-free sequence is duplicate-free, and misses the later elements. */
  lemma PrefixDistinct<T>(s: seq<T>, n: nat)
    requires NoDuplicates(s) && n < |s|
    ensures NoDuplicates(s[..n]) && s[n] !in s[..n]
  {
  }

  // ---------------------------------------------------------------------
  // Single-match lookup (LINQ SingleOrDefault by key)
  // ---------------------------------------------------------------------

  datatype Lookup = NoMatch | Single(index: nat) | Several

  /** No two indices of s hold x. */
  predicate AtMostOnce<T(==)>(s: seq<T>, x: T) {
    forall i, j :: 0 <= i < |s| && 0 <= j < |s| && s[i] == x && s[j] == x ==> i == j
  }

  /**
   * The index of the only element equal to x; NoMatch when there is none,
   * Several (an exception in the source) when there are two or more.
   */
  function SingleIndex<T(==)>(s: seq<T>, x: T): (r: Lookup)
    ensures r == NoMatch <==> x !in s
    ensures r == Several <==> !AtMostOnce(s, x)
    ensures r.Single? ==> r.index < |s| && s[r.index] == x
    ensures r.Single? ==> forall i :: 0 <= i < |s| && s[i] == x ==> i == r.index
    decreases |s|
  {
    if s == [] then NoMatch
    else
      var n := |s| - 1;
      var r := SingleIndex(s[..n], x);
      AtMostOnceSnoc(s, x);
      if s[n] != x then r
      else if r == NoMatch then Single(n)
      else Several
  }

  /** x occurs at most once in s when it does so in all but the last element and, if it is the last, nowhere before. */
  lemma AtMostOnceSnoc<T>(s: seq<T>, x: T)
    requires |s| > 0
    ensures AtMostOnce(s, x) <==> AtMostOnce(s[..|s| - 1], x) && (s[|s| - 1] == x ==> x !in s[..|s| - 1])
    ensures x in s <==> x in s[..|s| - 1] || s[|s| - 1] == x
    ensures forall i :: 0 <= i < |s| - 1 ==> s[..|s| - 1][i] == s[i]
  {
    var init := s[..|s| - 1];
    assert s == init + [s[|s| - 1]];
  }
}
