/** The experience buffer that feeds the on-policy learner (src/memory.py):
    seven parallel lists, one entry per simulated step, the preprocessing
    applied when a step is stored, and the shuffled mini-batch partition. */
module ReplayMemory {

  /** An 8-bit channel or grey level, as pygame and PIL store them. */
  type Byte = x: int | 0 <= x < 256

  datatype Rgb = Rgb(red: Byte, green: Byte, blue: Byte)

  /** A screen capture, as pygame.surfarray.array3d returns it. */
  type RawFrame = seq<seq<Rgb>>

  /** Side of the square image the buffer stores. */
  const IMAGE_SIDE: nat := 84

  /** Maximum range of a lidar ray; stored readings are divided by it. */
  const LIDAR_RANGE: real := 200.0

  /** The largest grey level; stored pixels are divided by it. */
  const MAX_GREY: real := 255.0

  predicate IsGrid<T>(g: seq<seq<T>>, rows: nat, cols: nat) {
    |g| == rows && forall i :: 0 <= i < rows ==> |g[i]| == cols
  }

  /** An 84x84 single-channel 8-bit image: what PIL's convert('L'),
      rotate(-90), FLIP_LEFT_RIGHT and resize((84, 84)) produce. */
  type GrayImage = g: seq<seq<Byte>> | IsGrid(g, IMAGE_SIDE, IMAGE_SIDE)
    witness seq(IMAGE_SIDE, _ => seq(IMAGE_SIDE, _ => 0))

  /** An image as stored: grey levels scaled into [0, 1]. */
  type Image = seq<seq<real>>

  /** The division by 255 that follows the PIL pipeline. */
  function Normalize(g: GrayImage): (img: Image)
    ensures IsGrid(img, IMAGE_SIDE, IMAGE_SIDE)
    ensures forall i, j :: 0 <= i < IMAGE_SIDE && 0 <= j < IMAGE_SIDE ==>
      0.0 <= img[i][j] <= 1.0 && img[i][j] * MAX_GREY == g[i][j] as real
  {
    seq(IMAGE_SIDE, i requires 0 <= i < IMAGE_SIDE =>
      seq(IMAGE_SIDE, j requires 0 <= j < IMAGE_SIDE => g[i][j] as real / MAX_GREY))
  }

  /** The componentwise division of a lidar vector by the sensor range.
      No clamping: a reading beyond the range stays above 1. */
  function NormalizeLidar(raw: seq<real>): (r: seq<real>)
    ensures |r| == |raw|
    ensures forall i :: 0 <= i < |r| ==> r[i] * LIDAR_RANGE == raw[i]
    ensures (forall i :: 0 <= i < |raw| ==> 0.0 <= raw[i] <= LIDAR_RANGE) ==>
      forall i :: 0 <= i < |r| ==> 0.0 <= r[i] <= 1.0
  {
    seq(|raw|, i requires 0 <= i < |raw| => raw[i] / LIDAR_RANGE)
  }

  /** One stored step: the i-th entry of each of the seven lists. */
  datatype Transition = Transition(
    img: Image, lidar: seq<real>, action: int, prob: real, val: real, reward: real, done: bool)

  /** The transition that storing these arguments appends. */
  function Stored(preprocess: RawFrame -> GrayImage, imgState: RawFrame, lidarState: seq<real>,
                  action: int, prob: real, val: real, reward: real, done: bool): Transition
  {
    Transition(Normalize(preprocess(imgState)), NormalizeLidar(lidarState), action, prob, val, reward, done)
  }

  // ---------------------------------------------------------------------
  // Batching: numpy.arange, Python slicing and the list comprehension
  // ---------------------------------------------------------------------

  function Min(a: int, b: int): int { if a <= b then a else b }

  predicate Distinct<T(==)>(s: seq<T>) {
    forall i, j :: 0 <= i < j < |s| ==> s[i] != s[j]
  }

  /** s is an ordering of the indices 0 .. n-1, each exactly once. */
  predicate IsPermutation(s: seq<int>, n: nat) {
    |s| == n && Distinct(s) &&
    (forall i :: 0 <= i < |s| ==> 0 <= s[i] < n) &&
    (forall v :: 0 <= v < n ==> v in s)
  }

  /** numpy.arange(start, stop, step) for a positive step: start, start + step,
      ... while below stop. */
  function Arange(start: nat, stop: nat, step: nat): (r: seq<nat>)
    requires step > 0
    ensures r == [] <==> start >= stop
    ensures forall k :: 0 <= k < |r| ==> start <= r[k] < stop
    ensures |r| > 0 ==> r[0] == start && stop <= r[|r| - 1] + step
    decreases stop - start
  {
    if start >= stop then [] else [start] + Arange(start + step, stop, step)
  }

  /** The k-th entry of arange is start + k * step. */
  lemma {:induction false} ArangeAt(start: nat, stop: nat, step: nat, k: nat)
    requires step > 0 && k < |Arange(start, stop, step)|
    ensures Arange(start, stop, step)[k] == start + k * step
    decreases k
  {
    if k > 0 {
      ArangeAt(start + step, stop, step, k - 1);
      assert start + step + (k - 1) * step == start + k * step;
    }
  }

  /** Consecutive entries of arange are one step apart. */
  lemma {:induction false} ArangeNext(start: nat, stop: nat, step: nat, k: nat)
    requires step > 0 && k + 1 < |Arange(start, stop, step)|
    ensures Arange(start, stop, step)[k + 1] == Arange(start, stop, step)[k] + step
    decreases k
  {
    if k > 0 {
      ArangeNext(start + step, stop, step, k - 1);
    }
  }

  /** arange has ceil((stop - start) / step) entries: the last is below stop,
      one more step would not be. */
  lemma {:induction false} ArangeBounds(start: nat, stop: nat, step: nat)
    requires step > 0 && start < stop
    ensures var n := |Arange(start, stop, step)|;
      start + (n - 1) * step < stop <= start + n * step
  {
    var n := |Arange(start, stop, step)|;
    ArangeAt(start, stop, step, n - 1);
    assert n * step == (n - 1) * step + step;
  }

  /** Python's s[i:j] for non-negative bounds: the bounds are clamped to the length. */
  function Slice<T>(s: seq<T>, i: nat, j: nat): (r: seq<T>)
    ensures i <= j <= |s| ==> r == s[i..j]
    ensures i < |s| < j ==> r == s[i..]
    ensures Min(j, |s|) <= i ==> r == []
  {
    var hi := Min(j, |s|);
    if i < hi then s[i..hi] else []
  }

  /** [indices[i:i+batchSize] for i in np.arange(0, len(indices), batchSize)] */
  function Batches(indices: seq<int>, batchSize: nat): (r: seq<seq<int>>)
    requires batchSize > 0
    ensures |r| == |Arange(0, |indices|, batchSize)|
    ensures forall k :: 0 <= k < |r| ==> 0 < |r[k]| <= batchSize
  {
    var starts := Arange(0, |indices|, batchSize);
    seq(|starts|, k requires 0 <= k < |starts| => Slice(indices, starts[k], starts[k] + batchSize))
  }

  /** The concatenation of the first n parts, in order. */
  function FlattenFirst<T>(parts: seq<seq<T>>, n: nat): seq<T>
    requires n <= |parts|
  {
    if n == 0 then [] else FlattenFirst(parts, n - 1) + parts[n - 1]
  }

  /** The concatenation of the parts, in order. */
  function Flatten<T>(parts: seq<seq<T>>): seq<T> {
    FlattenFirst(parts, |parts|)
  }

  lemma {:induction false} MulStep(a: int, b: int, d: int)
    requires d > 0 && a < b
    ensures d * a + d <= d * b
    decreases b - a
  {
    assert d * (a + 1) == d * a + d;
    if a + 1 < b {
      MulStep(a + 1, b, d);
    }
  }

  lemma {:induction false} DivUnique(x: int, d: int, q: int)
    requires d > 0 && d * q <= x < d * q + d
    ensures x / d == q
  {
    var q', r' := x / d, x % d;
    assert x == d * q' + r' && 0 <= r' < d;
    if q' < q {
      MulStep(q', q, d);
    } else if q < q' {
      MulStep(q, q', d);
    }
  }

  /** There is one batch per start of arange(0, n, batchSize): ceil(n / batchSize). */
  lemma {:induction false} BatchCount(indices: seq<int>, batchSize: nat)
    requires batchSize > 0
    ensures |Batches(indices, batchSize)| == (|indices| + batchSize - 1) / batchSize
    ensures |indices| == 0 <==> Batches(indices, batchSize) == []
  {
    var n, m := |indices|, |Batches(indices, batchSize)|;
    if n > 0 {
      ArangeBounds(0, n, batchSize);
      assert (m - 1) * batchSize < n <= m * batchSize;
      assert batchSize * m <= n + batchSize - 1 < batchSize * m + batchSize;
      DivUnique(n + batchSize - 1, batchSize, m);
    } else {
      assert n + batchSize - 1 < batchSize;
    }
  }

  /** Batch k holds indices[k*bs .. min(k*bs + bs, n)]. */
  lemma {:induction false} BatchAt(indices: seq<int>, batchSize: nat, k: nat)
    requires batchSize > 0 && k < |Batches(indices, batchSize)|
    ensures k * batchSize < |indices|
    ensures Batches(indices, batchSize)[k]
         == indices[k * batchSize .. Min(k * batchSize + batchSize, |indices|)]
  {
    BatchSlice(indices, batchSize, k);
    ArangeAt(0, |indices|, batchSize, k);
  }

  predicate HasBatchSizes(batches: seq<seq<int>>, n: nat, batchSize: nat) {
    forall k :: 0 <= k < |batches| ==>
      |batches[k]| == if k < |batches| - 1 then batchSize else n - (|batches| - 1) * batchSize
  }

  /** Every batch holds batchSize indices, except the last, which holds the rest. */
  lemma {:induction false} BatchSizes(indices: seq<int>, batchSize: nat)
    requires batchSize > 0
    ensures HasBatchSizes(Batches(indices, batchSize), |indices|, batchSize)
  {
    var b := Batches(indices, batchSize);
    var starts := Arange(0, |indices|, batchSize);
    forall k | 0 <= k < |b|
      ensures |b[k]| == if k < |b| - 1 then batchSize else |indices| - (|b| - 1) * batchSize
    {
      BatchAt(indices, batchSize, k);
      if k < |b| - 1 {
        ArangeAt(0, |indices|, batchSize, k + 1);
        assert (k + 1) * batchSize == k * batchSize + batchSize;
      } else {
        ArangeBounds(0, |indices|, batchSize);
      }
    }
  }

  /** One more part, continuing the covered prefix, extends it. */
  lemma {:induction false} FlattenStep<T>(parts: seq<seq<T>>, m: nat, s: seq<T>, lo: nat, hi: nat)
    requires 0 < m <= |parts| && lo <= hi <= |s|
    requires FlattenFirst(parts, m - 1) == s[..lo] && parts[m - 1] == s[lo..hi]
    ensures FlattenFirst(parts, m) == s[..hi]
  {
    assert s[..lo] + s[lo..hi] == s[..hi];
  }

  /** Batch k is the slice of indices from the k-th start of arange, clamped. */
  lemma {:induction false} BatchSlice(indices: seq<int>, batchSize: nat, k: nat)
    requires batchSize > 0 && k < |Batches(indices, batchSize)|
    ensures var start := Arange(0, |indices|, batchSize)[k];
      Batches(indices, batchSize)[k] == indices[start..Min(start + batchSize, |indices|)]
  {
    var start := Arange(0, |indices|, batchSize)[k];
    assert Batches(indices, batchSize)[k] == Slice(indices, start, start + batchSize);
  }

  /** Batch k - 1 ends where batch k starts. */
  lemma {:induction false} BatchEnds(indices: seq<int>, batchSize: nat, k: nat)
    requires batchSize > 0 && 0 < k < |Batches(indices, batchSize)|
    ensures Min(Arange(0, |indices|, batchSize)[k - 1] + batchSize, |indices|) == Arange(0, |indices|, batchSize)[k]
  {
    ArangeNext(0, |indices|, batchSize, k - 1);
  }

  /** The first m batches cover indices up to the end of batch m - 1. */
  lemma {:induction false} FlattenPrefix(indices: seq<int>, batchSize: nat, m: nat)
    requires batchSize > 0 && 0 < m <= |Batches(indices, batchSize)|
    ensures FlattenFirst(Batches(indices, batchSize), m) ==
      indices[..Min(Arange(0, |indices|, batchSize)[m - 1] + batchSize, |indices|)]
  {
    var b, starts := Batches(indices, batchSize), Arange(0, |indices|, batchSize);
    var lo := starts[m - 1];
    var hi := Min(lo + batchSize, |indices|);
    BatchSlice(indices, batchSize, m - 1);
    assert b[m - 1] == indices[lo..hi];
    if m > 1 {
      FlattenPrefix(indices, batchSize, m - 1);
      BatchEnds(indices, batchSize, m - 1);
      assert FlattenFirst(b, m - 1) == indices[..lo];
    } else {
      assert FlattenFirst(b, m - 1) == [] == indices[..lo];
    }
    FlattenStep(b, m, indices, lo, hi);
  }

  /** Concatenating the batches gives back the shuffled indices. */
  lemma {:induction false} FlattenBatches(indices: seq<int>, batchSize: nat)
    requires batchSize > 0
    ensures Flatten(Batches(indices, batchSize)) == indices
  {
    var b := Batches(indices, batchSize);
    if |indices| > 0 {
      FlattenPrefix(indices, batchSize, |b|);
    }
  }

  lemma {:induction false} FlattenMember<T>(parts: seq<seq<T>>, n: nat, k: nat, x: T)
    requires k < n <= |parts| && x in parts[k]
    ensures x in FlattenFirst(parts, n)
  {
    if k < n - 1 {
      FlattenMember(parts, n - 1, k, x);
    }
  }

  lemma {:induction false} FlattenCovers<T>(parts: seq<seq<T>>, n: nat, x: T)
    requires n <= |parts| && x in FlattenFirst(parts, n)
    ensures exists k :: 0 <= k < n && x in parts[k]
  {
    if x in FlattenFirst(parts, n - 1) {
      FlattenCovers(parts, n - 1, x);
      var k :| 0 <= k < n - 1 && x in parts[k];
    } else {
      assert x in parts[n - 1];
    }
  }

  lemma {:induction false} DistinctConcat<T>(a: seq<T>, b: seq<T>)
    requires Distinct(a + b)
    ensures Distinct(a) && Distinct(b)
    ensures forall x :: x in a ==> x !in b
  {
    forall i, j | 0 <= i < j < |a| ensures a[i] != a[j] {
      assert (a + b)[i] == a[i] && (a + b)[j] == a[j];
    }
    forall i, j | 0 <= i < j < |b| ensures b[i] != b[j] {
      assert (a + b)[|a| + i] == b[i] && (a + b)[|a| + j] == b[j];
    }
    forall i, j | 0 <= i < |a| && 0 <= j < |b| ensures a[i] != b[j] {
      assert (a + b)[i] == a[i] && (a + b)[|a| + j] == b[j];
    }
  }

  /** Parts of a duplicate-free concatenation are duplicate-free and pairwise disjoint. */
  lemma {:induction false} FlattenDistinct<T>(parts: seq<seq<T>>, n: nat)
    requires n <= |parts| && Distinct(FlattenFirst(parts, n))
    ensures forall k :: 0 <= k < n ==> Distinct(parts[k])
    ensures forall k1, k2, x :: 0 <= k1 < n && 0 <= k2 < n && x in parts[k1] && x in parts[k2] ==> k1 == k2
  {
    if n > 0 {
      DistinctConcat(FlattenFirst(parts, n - 1), parts[n - 1]);
      FlattenDistinct(parts, n - 1);
      forall k1, k2, x | 0 <= k1 < n && 0 <= k2 < n && x in parts[k1] && x in parts[k2]
        ensures k1 == k2
      {
        if k1 < n - 1 && k2 == n - 1 {
          FlattenMember(parts, n - 1, k1, x);
        } else if k2 < n - 1 && k1 == n - 1 {
          FlattenMember(parts, n - 1, k2, x);
        }
      }
    }
  }

  predicate InSomeBatch(batches: seq<seq<int>>, v: int) {
    exists k :: 0 <= k < |batches| && v in batches[k]
  }

  /** Every index 0 .. n-1 is in exactly one batch, once, and nothing else is in any. */
  predicate IsPartition(batches: seq<seq<int>>, n: nat) {
    (forall k, i :: 0 <= k < |batches| && 0 <= i < |batches[k]| ==> 0 <= batches[k][i] < n) &&
    (forall v :: 0 <= v < n ==> InSomeBatch(batches, v)) &&
    (forall k1, k2, v ::
      0 <= k1 < |batches| && 0 <= k2 < |batches| && v in batches[k1] && v in batches[k2] ==> k1 == k2) &&
    (forall k :: 0 <= k < |batches| ==> Distinct(batches[k]))
  }

  /** The batches of a permutation of 0 .. n-1 partition 0 .. n-1. */
  lemma {:induction false} BatchesPartition(indices: seq<int>, n: nat, batchSize: nat)
    requires batchSize > 0 && IsPermutation(indices, n)
    ensures IsPartition(Batches(indices, batchSize), n)
  {
    var b := Batches(indices, batchSize);
    FlattenBatches(indices, batchSize);
    FlattenDistinct(b, |b|);
    forall k, i | 0 <= k < |b| && 0 <= i < |b[k]| ensures 0 <= b[k][i] < n {
      FlattenMember(b, |b|, k, b[k][i]);
    }
    forall v | 0 <= v < n ensures InSomeBatch(b, v) {
      FlattenCovers(b, |b|, v);
    }
  }

  // ---------------------------------------------------------------------
  // The buffer
  // ---------------------------------------------------------------------

  /** Seven equally long columns read as rows. */
  function Rows(imgs: seq<Image>, lidars: seq<seq<real>>, acts: seq<int>, prbs: seq<real>,
                vls: seq<real>, rwds: seq<real>, dns: seq<bool>): (ts: seq<Transition>)
    requires |lidars| == |imgs| && |acts| == |imgs| && |prbs| == |imgs|
    requires |vls| == |imgs| && |rwds| == |imgs| && |dns| == |imgs|
    ensures |ts| == |imgs|
    decreases |imgs|
  {
    if |imgs| == 0 then []
    else
      var n := |imgs| - 1;
      Rows(imgs[..n], lidars[..n], acts[..n], prbs[..n], vls[..n], rwds[..n], dns[..n]) +
        [Transition(imgs[n], lidars[n], acts[n], prbs[n], vls[n], rwds[n], dns[n])]
  }

  class Memory {
    var imgStates: seq<Image>
    var lidarStates: seq<seq<real>>
    var probs: seq<real>
    var vals: seq<real>
    var actions: seq<int>
    var rewards: seq<real>
    var dones: seq<bool>
    var batchSize: int

    /** PIL's grayscale, rotate(-90), FLIP_LEFT_RIGHT and resize((84, 84)),
        fixed for the lifetime of the buffer. */
    const preprocess: RawFrame -> GrayImage

    /** The seven lists always have the same length. */
    ghost predicate Valid()
      reads this
    {
      |lidarStates| == |imgStates| && |probs| == |imgStates| && |vals| == |imgStates| &&
      |actions| == |imgStates| && |rewards| == |imgStates| && |dones| == |imgStates|
    }

    /** The buffer read row by row. */
    ghost function Transitions(): (ts: seq<Transition>)
      reads this
      requires Valid()
      ensures |ts| == |imgStates|
    {
      Rows(imgStates, lidarStates, actions, probs, vals, rewards, dones)
    }

    constructor (batchSize: int, preprocess: RawFrame -> GrayImage)
      ensures Valid() && Transitions() == []
      ensures this.batchSize == batchSize && this.preprocess == preprocess
    {
      imgStates, lidarStates, probs, vals := [], [], [], [];
      actions, rewards, dones := [], [], [];
      this.batchSize := batchSize;
      this.preprocess := preprocess;
    }

    /** The whole buffer in insertion order, and the shuffled indices cut into
        consecutive batches; `shuffled` is what np.random.shuffle made of
        np.arange(n). */
    method GenerateBatches(shuffled: seq<int>)
      returns (imgs: seq<Image>, lidars: seq<seq<real>>, acts: seq<int>, prbs: seq<real>,
               vls: seq<real>, rwds: seq<real>, dns: seq<bool>, batches: seq<seq<int>>)
      requires Valid() && batchSize > 0
      requires IsPermutation(shuffled, |imgStates|)
      ensures imgs == imgStates && lidars == lidarStates && acts == actions && prbs == probs
      ensures vls == vals && rwds == rewards && dns == dones
      ensures batches == Batches(shuffled, batchSize)
      ensures |batches| == (|imgStates| + batchSize - 1) / batchSize
      ensures |imgStates| == 0 <==> batches == []
      ensures HasBatchSizes(batches, |imgStates|, batchSize)
      ensures Flatten(batches) == shuffled
      ensures IsPartition(batches, |imgStates|)
    {
      var nStates := |imgStates|;
      batches := Batches(shuffled, batchSize);
      BatchCount(shuffled, batchSize);
      BatchSizes(shuffled, batchSize);
      FlattenBatches(shuffled, batchSize);
      BatchesPartition(shuffled, nStates, batchSize);
      imgs, lidars, acts, prbs := imgStates, lidarStates, actions, probs;
      vls, rwds, dns := vals, rewards, dones;
    }

    /** Appends one step to each of the seven lists, preprocessing the image
        and the lidar vector first. */
    method StoreMemory(imgState: RawFrame, lidarState: seq<real>, action: int,
                       prob: real, val: real, reward: real, done: bool)
      requires Valid()
      modifies this
      ensures Valid()
      ensures imgStates == old(imgStates) + [Normalize(preprocess(imgState))]
      ensures lidarStates == old(lidarStates) + [NormalizeLidar(lidarState)]
      ensures actions == old(actions) + [action]
      ensures probs == old(probs) + [prob]
      ensures vals == old(vals) + [val]
      ensures rewards == old(rewards) + [reward]
      ensures dones == old(dones) + [done]
      ensures batchSize == old(batchSize)
      ensures Transitions() == old(Transitions()) +
        [Stored(preprocess, imgState, lidarState, action, prob, val, reward, done)]
    {
      var img := Normalize(preprocess(imgState));
      imgStates := imgStates + [img];
      var lidar := NormalizeLidar(lidarState);
      lidarStates := lidarStates + [lidar];
      actions := actions + [action];
      probs := probs + [prob];
      vals := vals + [val];
      rewards := rewards + [reward];
      dones := dones + [done];
      var n := |imgStates| - 1;
      assert imgStates[..n] == old(imgStates) && lidarStates[..n] == old(lidarStates);
      assert actions[..n] == old(actions) && probs[..n] == old(probs) && vals[..n] == old(vals);
      assert rewards[..n] == old(rewards) && dones[..n] == old(dones);
    }

    /** Empties every list; the batch size stays. */
    method ClearMemory()
      modifies this
      ensures Valid() && Transitions() == []
      ensures imgStates == [] && lidarStates == [] && probs == [] && actions == []
      ensures vals == [] && rewards == [] && dones == []
      ensures batchSize == old(batchSize)
    {
      imgStates := [];
      lidarStates := [];
      probs := [];
      actions := [];
      vals := [];
      rewards := [];
      dones := [];
    }
  }
}
