/**
 The search of one miner (`process` in `bitcoin/miner/miner.go`) and the division of a nonce range into jobs
 (`bitcoin/server/server.go`). The hash is any function of the message and the nonce.
 */
module Mining {

  type Hash = (string, nat) -> nat

  const TWO_TO_64: nat := 0x1_0000_0000_0000_0000
  const CHUNK_SIZE: nat := 10000

  datatype Best = Best(nonce: nat, hash: nat)

  // An inclusive range of nonces
  datatype Job = Job(lower: nat, upper: nat)

  // What a client is promised: a nonce of the range that attains the least hash over the range.
  ghost predicate IsMinimum(h: Hash, data: string, range: Job, r: Best) {
    && range.lower <= r.nonce <= range.upper
    && r.hash == h(data, r.nonce)
    && forall n: nat | range.lower <= n <= range.upper :: r.hash <= h(data, n)
  }

  /** The first nonce that attains the least hash. The loop variable is 64 bits wide, and no such variable ever
      exceeds the largest of its values, so the loop ends only below that. From the largest nonce the first addition
      wraps around, and the search takes in everything up to `upper` besides. */
  method Process(h: Hash, data: string, lower: nat, upper: nat) returns (r: Best)
    requires lower < TWO_TO_64 && upper < TWO_TO_64 - 1
    ensures lower <= upper ==> IsMinimum(h, data, Job(lower, upper), r)
    ensures lower <= upper ==> forall n: nat | lower <= n < r.nonce :: r.hash < h(data, n)
    ensures upper < lower < TWO_TO_64 - 1 ==> r == Best(lower, h(data, lower))
    ensures lower == TWO_TO_64 - 1 ==>
              && r.hash == h(data, r.nonce) <= h(data, lower) && (r.nonce == lower || r.nonce <= upper)
              && forall n: nat | n <= upper :: r.hash <= h(data, n)
  {
    var nonce, minHash := lower, h(data, lower);
    var i := (lower + 1) % TWO_TO_64;
    ghost var first := i;
    while i <= upper
      invariant first <= i && (i <= upper + 1 || i == first)
      invariant nonce == lower || first <= nonce < i
      invariant minHash == h(data, nonce) <= h(data, lower)
      invariant forall n: nat | first <= n < i :: minHash <= h(data, n)
      invariant nonce != lower ==>
                  minHash < h(data, lower) && forall n: nat | first <= n < nonce :: minHash < h(data, n)
    {
      var hash := h(data, i);
      if minHash > hash {
        minHash := hash;
        nonce := i;
      }
      i := i + 1;
    }
    r := Best(nonce, minHash);
  }

  lemma MinimumIsUnique(h: Hash, data: string, range: Job, a: Best, b: Best)
    requires IsMinimum(h, data, range, a) && IsMinimum(h, data, range, b)
    ensures a.hash == b.hash
  {
  }

  // ---------- The jobs of a request ----------

  function Chunks(lower: nat, upper: nat): seq<Job>
    decreases if lower <= upper then upper - lower else 0
  {
    if lower + CHUNK_SIZE < upper then
      [Job(lower, lower + CHUNK_SIZE)] + Chunks(lower + CHUNK_SIZE, upper)
    else
      [Job(lower, upper)]
  }

  // ---------- The loop that makes the jobs, on 64-bit numbers ----------

  // The value of `current` after k rounds; the additions wrap around.
  function Current(lower: nat, k: nat): nat {
    (lower + k * CHUNK_SIZE) % TWO_TO_64
  }

  // The loop stops after exactly k rounds.
  ghost predicate StopsAfter(lower: nat, upper: nat, k: nat) {
    && (forall i: nat | 1 <= i <= k :: Current(lower, i) < upper)
    && upper <= Current(lower, k + 1)
  }

  ghost predicate Stops(lower: nat, upper: nat) {
    exists k :: StopsAfter(lower, upper, k)
  }

  // The jobs it has made after k rounds, and all of them
  function Made(lower: nat, k: nat): seq<Job> {
    seq(k, i requires 0 <= i => Job(Current(lower, i), Current(lower, i + 1)))
  }

  ghost function Jobs(lower: nat, upper: nat): seq<Job>
    requires Stops(lower, upper)
  {
    var k :| StopsAfter(lower, upper, k);
    Made(lower, k) + [Job(Current(lower, k), upper)]
  }

  lemma NotBefore(lower: nat, upper: nat, j: nat, k: nat)
    requires j < k && StopsAfter(lower, upper, k)
    ensures !StopsAfter(lower, upper, j)
  {
    hide Current;
    assert Current(lower, j + 1) < upper;
  }

  lemma StopsOnce(lower: nat, upper: nat, j: nat, k: nat)
    requires StopsAfter(lower, upper, j) && StopsAfter(lower, upper, k)
    ensures j == k
  {
    if j < k {
      NotBefore(lower, upper, j, k);
    } else if k < j {
      NotBefore(lower, upper, k, j);
    }
  }

  lemma NextCurrent(lower: nat, k: nat)
    requires lower < TWO_TO_64
    ensures Current(lower, 0) == lower
    ensures Current(lower, k + 1) == (Current(lower, k) + CHUNK_SIZE) % TWO_TO_64
    ensures Made(lower, k + 1) == Made(lower, k) + [Job(Current(lower, k), Current(lower, k + 1))]
  {
    OneMoreRound(lower, k);
    OneMoreMade(lower, k);
  }

  lemma OneMoreRound(lower: nat, k: nat)
    ensures Current(lower, k + 1) == (Current(lower, k) + CHUNK_SIZE) % TWO_TO_64
  {
    assert (k + 1) * CHUNK_SIZE == k * CHUNK_SIZE + CHUNK_SIZE;
    StepWraps(lower + k * CHUNK_SIZE);
  }

  lemma StepWraps(x: nat)
    ensures (x + 10000) % 0x1_0000_0000_0000_0000 == (x % 0x1_0000_0000_0000_0000 + 10000) % 0x1_0000_0000_0000_0000
  {
  }

  lemma OneMoreMade(lower: nat, k: nat)
    ensures Made(lower, k + 1) == Made(lower, k) + [Job(Current(lower, k), Current(lower, k + 1))]
  {
    hide Current;
  }

  // The loop of the request arm, for every range on which it ends
  method Split(lower: nat, upper: nat) returns (jobs: seq<Job>)
    requires lower < TWO_TO_64 && upper < TWO_TO_64 && Stops(lower, upper)
    ensures jobs == Jobs(lower, upper)
  {
    hide Current, Made;
    ghost var last: nat :| StopsAfter(lower, upper, last);
    ghost var k := 0;
    jobs := [];
    var current := lower;
    NextCurrent(lower, 0);
    assert Made(lower, 0) == [] by {
      MadeNone(lower);
    }
    while (current + CHUNK_SIZE) % TWO_TO_64 < upper
      invariant k <= last && current == Current(lower, k) && jobs == Made(lower, k)
      invariant forall i: nat | 1 <= i <= k :: Current(lower, i) < upper
      decreases last - k
    {
      NextCurrent(lower, k);
      jobs := jobs + [Job(current, (current + CHUNK_SIZE) % TWO_TO_64)];
      current := (current + CHUNK_SIZE) % TWO_TO_64;
      k := k + 1;
    }
    NextCurrent(lower, k);
    assert StopsAfter(lower, upper, k);
    JobsAt(lower, upper, k);
    jobs := jobs + [Job(current, upper)];
  }

  lemma MadeNone(lower: nat)
    ensures Made(lower, 0) == []
  {
  }

  lemma JobsAt(lower: nat, upper: nat, k: nat)
    requires StopsAfter(lower, upper, k)
    ensures Jobs(lower, upper) == Made(lower, k) + [Job(Current(lower, k), upper)]
  {
    var j :| StopsAfter(lower, upper, j) && Jobs(lower, upper) == Made(lower, j) + [Job(Current(lower, j), upper)];
    StopsOnce(lower, upper, j, k);
  }

  // ---------- When it ends ----------

  // The inverse of 625 modulo 2^60: 10000 is 16 times 625.
  const INVERSE: nat := 182622766329724561

  lemma Residue(lower: nat, k: nat)
    ensures Current(lower, k) % 16 == lower % 16
  {
    WholeRounds(lower, k * 625);
    assert k * CHUNK_SIZE == 16 * (k * 625);
    WrappingKeepsResidue(lower + k * CHUNK_SIZE);
  }

  lemma WholeRounds(lower: nat, m: nat)
    ensures (lower + 16 * m) % 16 == lower % 16
  {
  }

  lemma WrappingKeepsResidue(x: nat)
    ensures x % 0x1_0000_0000_0000_0000 % 16 == x % 16
  {
  }

  // Every number of the right residue is met in some round but the first.
  lemma Reaches(lower: nat, n: nat) returns (k: nat)
    requires lower < TWO_TO_64 && n < TWO_TO_64 && n % 16 == lower % 16
    ensures 1 <= k && Current(lower, k) == n
  {
    var d := (n + TWO_TO_64 - lower) / 16;
    k := d * INVERSE + 0x1000_0000_0000_0000;
    assert lower + 16 * d == n + TWO_TO_64;
    Rounds(d);
    WrapsTo(n, d * 99 + 626);
  }

  lemma Rounds(d: nat)
    ensures (d * INVERSE + 0x1000_0000_0000_0000) * CHUNK_SIZE == 16 * d + TWO_TO_64 * (d * 99 + 625)
  {
    assert INVERSE * CHUNK_SIZE == 16 + TWO_TO_64 * 99;
  }

  lemma WrapsTo(n: nat, q: nat)
    requires n < TWO_TO_64
    ensures (n + TWO_TO_64 * q) % TWO_TO_64 == n
  {
  }

  lemma {:induction false} FirstStop(lower: nat, upper: nat, k: nat) returns (j: nat)
    requires upper <= Current(lower, k + 1)
    ensures StopsAfter(lower, upper, j)
    decreases k
  {
    hide Current;
    if i: nat :| 1 <= i <= k && upper <= Current(lower, i) {
      j := FirstStop(lower, upper, i - 1);
    } else {
      j := k;
    }
  }

  /** The loop ends exactly when some number from `upper` to the largest has the residue of `lower` modulo 16: a step
      that wraps around may jump over the last numbers, and the walk comes back only to numbers of its residue. */
  lemma StopsIff(lower: nat, upper: nat)
    requires lower < TWO_TO_64
    ensures Stops(lower, upper) <==> exists n: nat :: upper <= n < TWO_TO_64 && n % 16 == lower % 16
  {
    hide Current;
    if k: nat :| StopsAfter(lower, upper, k) {
      Residue(lower, k + 1);
      CurrentIsSmall(lower, k + 1);
      assert upper <= Current(lower, k + 1) < TWO_TO_64 && Current(lower, k + 1) % 16 == lower % 16;
    }
    if n: nat :| upper <= n < TWO_TO_64 && n % 16 == lower % 16 {
      var k := Reaches(lower, n);
      var j := FirstStop(lower, upper, k - 1);
    }
  }

  lemma CurrentIsSmall(lower: nat, k: nat)
    ensures Current(lower, k) < TWO_TO_64
  {
  }

  // ---------- Away from 2^64 the jobs are the chunks ----------

  lemma {:induction false} ChunksAfter(lower: nat, upper: nat, k: nat, j: nat)
    requires upper <= TWO_TO_64 - CHUNK_SIZE && lower < TWO_TO_64 - CHUNK_SIZE
    requires StopsAfter(lower, upper, k) && j <= k
    ensures Current(lower, j) < TWO_TO_64 - CHUNK_SIZE
    ensures Chunks(lower, upper) == Made(lower, j) + Chunks(Current(lower, j), upper)
  {
    hide Current, Made;
    if j == 0 {
      NextCurrent(lower, 0);
      MadeNone(lower);
      assert [] + Chunks(lower, upper) == Chunks(lower, upper);
    } else {
      ChunksAfter(lower, upper, k, j - 1);
      NextCurrent(lower, j - 1);
      assert Current(lower, j) < upper;
      ConcatOne(Made(lower, j - 1), Job(Current(lower, j - 1), Current(lower, j)), Chunks(Current(lower, j), upper));
    }
  }

  lemma ConcatOne(a: seq<Job>, j: Job, b: seq<Job>)
    ensures a + ([j] + b) == (a + [j]) + b
  {
  }

  lemma JobsAreChunks(lower: nat, upper: nat)
    requires lower < TWO_TO_64 - CHUNK_SIZE && upper <= TWO_TO_64 - CHUNK_SIZE
    ensures Stops(lower, upper) && Jobs(lower, upper) == Chunks(lower, upper)
  {
    hide Current, Made;
    var n := upper + (lower + 16 - upper % 16) % 16;
    assert n % 16 == lower % 16;
    StopsIff(lower, upper);
    var k :| StopsAfter(lower, upper, k);
    JobsAt(lower, upper, k);
    ChunksAfter(lower, upper, k, k);
    NextCurrent(lower, k);
  }

  // ---------- The chunks ----------

  ghost predicate Within(j: Job, lower: nat, upper: nat) {
    lower <= j.lower <= j.upper <= upper
  }

  // Every job lies in the range, has at most one chunk of nonces besides its first, and starts before the next.
  lemma {:induction false} ChunksAscend(lower: nat, upper: nat)
    requires lower <= upper
    ensures var jobs := Chunks(lower, upper);
            && (forall j | j in jobs :: Within(j, lower, upper) && j.upper <= j.lower + CHUNK_SIZE)
            && (forall i, k | 0 <= i < k < |jobs| :: jobs[i].lower < jobs[k].lower)
    decreases upper - lower
  {
    if lower + CHUNK_SIZE < upper {
      ChunksAscend(lower + CHUNK_SIZE, upper);
      var rest := Chunks(lower + CHUNK_SIZE, upper);
      forall k | 0 <= k < |rest|
        ensures lower < rest[k].lower
      {
        assert Within(rest[k], lower + CHUNK_SIZE, upper);
      }
    }
  }

  // Every nonce of the range is in some job; neighbouring jobs share the nonce at which they meet.
  lemma {:induction false} ChunksCover(lower: nat, upper: nat, n: nat) returns (j: Job)
    requires lower <= n <= upper
    ensures j in Chunks(lower, upper) && j.lower <= n <= j.upper
    decreases upper - lower
  {
    if lower + CHUNK_SIZE < upper && lower + CHUNK_SIZE < n {
      j := ChunksCover(lower + CHUNK_SIZE, upper, n);
    } else {
      j := Chunks(lower, upper)[0];
    }
  }

  // A range of w nonces beyond its first is divided into the fewest jobs of that size that cover it.
  lemma {:induction false} ChunksCount(lower: nat, upper: nat)
    requires lower <= upper
    ensures var k := |Chunks(lower, upper)|;
            && 1 <= k && upper - lower <= k * CHUNK_SIZE
            && (1 < k ==> (k - 1) * CHUNK_SIZE < upper - lower)
    decreases upper - lower
  {
    if lower + CHUNK_SIZE < upper {
      ChunksCount(lower + CHUNK_SIZE, upper);
    }
  }

  // A longer range has at least as many jobs.
  lemma WiderMeansMoreChunks(a: Job, b: Job)
    requires a.lower <= a.upper && b.lower <= b.upper && a.upper - a.lower <= b.upper - b.lower
    ensures |Chunks(a.lower, a.upper)| <= |Chunks(b.lower, b.upper)|
  {
    ChunksCount(a.lower, a.upper);
    ChunksCount(b.lower, b.upper);
  }

  // A least result bounds the hash of every nonce of every job.
  lemma LeastBounds(h: Hash, data: string, jobs: seq<Job>, results: seq<Best>, least: Best, j: Job, n: nat)
    requires |results| == |jobs| && forall i | 0 <= i < |jobs| :: IsMinimum(h, data, jobs[i], results[i])
    requires forall r | r in results :: least.hash <= r.hash
    requires j in jobs && j.lower <= n <= j.upper
    ensures least.hash <= h(data, n)
  {
  }

  // The least of the minima of all jobs is the minimum of the whole range.
  lemma LeastOfMinima(h: Hash, data: string, range: Job, jobs: seq<Job>, results: seq<Best>, least: Best)
    requires range.lower <= range.upper
    requires |results| == |jobs| && forall i | 0 <= i < |jobs| :: IsMinimum(h, data, jobs[i], results[i])
    requires forall j :: j in jobs <==> j in Chunks(range.lower, range.upper)
    requires least in results && forall r | r in results :: least.hash <= r.hash
    ensures IsMinimum(h, data, range, least)
  {
    ChunksAscend(range.lower, range.upper);
    var k :| 0 <= k < |results| && results[k] == least;
    assert jobs[k] in jobs;
    assert Within(jobs[k], range.lower, range.upper);
    assert IsMinimum(h, data, jobs[k], results[k]);
    forall n: nat | range.lower <= n <= range.upper
      ensures least.hash <= h(data, n)
    {
      var j := ChunksCover(range.lower, range.upper, n);
      LeastBounds(h, data, jobs, results, least, j, n);
    }
  }
}
