/**
 * The fetching side of the datum export: sources are split into one group
 * per worker, and each worker walks its sources and the monthly ranges,
 * sending every response it obtains down a channel together with the
 * 1-based position of its range.
 */
module Producer {
  import opened Wrappers
  import opened SolarNetworkApi
  import opened Util
  import opened Seqs

  // ---------------------------------------------------------------------
  // chunkArray
  // ---------------------------------------------------------------------

  /**
   * Where slice `i` of `chunkArray(arr, n)` starts: `floor(i * len / n)`
   * when there are at least as many elements as workers, `i` otherwise
   * (the chunk length is then clamped to 1). Exact arithmetic.
   */
  function ChunkBound(len: nat, n: nat, i: nat): (r: nat)
    requires n > 0
    ensures i <= ChunkCount(len, n) ==> r <= len
  {
    if len >= n then
      var r := (i * len) / n;
      if i <= n then BoundWithin(len, n, i); r else r
    else i
  }

  /** How many slices `chunkArray` produces. */
  function ChunkCount(len: nat, n: nat): nat {
    if n == 0 then 0 else if len >= n then n else len
  }

  lemma MulMono(n: nat, a: int, b: int)
    requires a <= b
    ensures n * a <= n * b
  {
    var d := b - a;
    assert n * b == n * a + n * d;
    assert n * d >= 0;
  }

  lemma DivMonotone(x: nat, y: nat, n: nat)
    requires n > 0 && x <= y
    ensures x / n <= y / n
  {
    var qx, qy := x / n, y / n;
    assert x == n * qx + x % n;
    assert y == n * qy + y % n;
    if qx > qy {
      MulMono(n, qy + 1, qx);
      assert false;
    }
  }

  lemma DivStep(x: nat, n: nat)
    requires n > 0
    ensures (x + n) / n == x / n + 1
  {
    DivShift(1, x, n);
  }

  lemma DivShift(q: nat, x: nat, n: nat)
    requires n > 0
    ensures (n * q + x) / n == q + x / n
  {
    var y := n * q + x;
    assert y == n * (q + x / n) + x % n;
    DivUnique(y, n, q + x / n, x % n);
  }

  lemma DivUnique(y: nat, n: nat, q: int, r: int)
    requires n > 0 && 0 <= r < n && y == n * q + r
    ensures y / n == q
  {
    var q2, r2 := y / n, y % n;
    assert y == n * q2 + r2;
    if q2 < q {
      MulMono(n, q2 + 1, q);
      assert false;
    } else if q2 > q {
      MulMono(n, q + 1, q2);
      assert false;
    }
  }

  /** Consecutive bounds are ordered, never past the end, and one apart at least. */
  lemma BoundsOrdered(len: nat, n: nat, i: nat)
    requires n > 0 && i < ChunkCount(len, n)
    ensures ChunkBound(len, n, i) < ChunkBound(len, n, i + 1) <= len
  {
    if len >= n {
      var lo, hi := i * len, (i + 1) * len;
      assert lo / n < hi / n by {
        assert hi == lo + len;
        DivMonotone(lo + n, hi, n);
        DivStep(lo, n);
      }
    }
  }

  /** The bound of worker `i <= n` is within the array: `i * len / n <= len`. */
  lemma BoundWithin(len: nat, n: nat, i: nat)
    requires 0 < n && i <= n
    ensures (i * len) / n <= len
  {
    MulMono(len, i, n);
    DivMonotone(i * len, len * n, n);
    DivUnique(len * n, n, len, 0);
  }

  /** Slice `i` of `chunkArray(arr, n)`. */
  function Chunk<T>(arr: seq<T>, n: nat, i: nat): (r: seq<T>)
    requires n > 0 && i < ChunkCount(|arr|, n)
  {
    var lo, hi := ChunkBound(|arr|, n, i), ChunkBound(|arr|, n, i + 1);
    BoundsOrdered(|arr|, n, i);
    arr[lo..hi]
  }

  /** What `chunkArray(arr, n)` returns, under exact arithmetic. */
  function Chunks<T>(arr: seq<T>, n: nat): seq<seq<T>> {
    if n == 0 then []
    else seq(ChunkCount(|arr|, n), i requires 0 <= i < ChunkCount(|arr|, n) => Chunk(arr, n, i))
  }

  /**
   * `chunkArray(arr, n)`: for each of the `n` workers, the slice
   * `[chunkLength * i, chunkLength * (i + 1))` when it still fits in `arr`,
   * where `chunkLength = max(len / n, 1)`.
   */
  method ChunkArray<T>(arr: seq<T>, n: nat) returns (chunks: seq<seq<T>>)
    ensures chunks == Chunks(arr, n)
  {
    var len := |arr|;
    chunks := [];
    for i := 0 to n
      invariant |chunks| == (if len >= n then i else if i <= len then i else len)
      invariant forall j :: 0 <= j < |chunks| ==> chunks[j] == Chunk(arr, n, j)
    {
      // chunkLength * (i + 1) <= len, with chunkLength = len / n or 1
      var fits := if len >= n then (i + 1) * len <= n * len else i + 1 <= len;
      if len >= n {
        EveryWorkerFits(len, n, i);
      }
      if fits {
        chunks := chunks + [Chunk(arr, n, i)];
      }
    }
  }

  /** With at least as many elements as workers, every worker's slice fits. */
  lemma EveryWorkerFits(len: nat, n: nat, i: nat)
    requires i < n
    ensures (i + 1) * len <= n * len
  {
    MulMono(len, i + 1, n);
  }

  /** The concatenation of a list of slices. */
  function Concat<T>(parts: seq<seq<T>>): seq<T> {
    if |parts| == 0 then [] else Concat(parts[..|parts| - 1]) + parts[|parts| - 1]
  }

  lemma {:induction false} ConcatChunksPrefix<T>(arr: seq<T>, n: nat, k: nat)
    requires n > 0 && k <= ChunkCount(|arr|, n)
    ensures Concat(Chunks(arr, n)[..k]) == arr[..ChunkBound(|arr|, n, k)]
  {
    if k > 0 {
      var cs := Chunks(arr, n);
      ConcatChunksPrefix(arr, n, k - 1);
      BoundsOrdered(|arr|, n, k - 1);
      var lo, hi := ChunkBound(|arr|, n, k - 1), ChunkBound(|arr|, n, k);
      assert cs[k - 1] == arr[lo..hi];
      ConcatNextSlice(cs, k, arr, lo, hi);
    }
  }

  /** When the first `k - 1` parts make `arr[..lo]` and part `k - 1` is `arr[lo..hi]`, the first `k` make `arr[..hi]`. */
  lemma ConcatNextSlice<T>(parts: seq<seq<T>>, k: nat, arr: seq<T>, lo: nat, hi: nat)
    requires 0 < k <= |parts| && lo <= hi <= |arr|
    requires Concat(parts[..k - 1]) == arr[..lo] && parts[k - 1] == arr[lo..hi]
    ensures Concat(parts[..k]) == arr[..hi]
  {
    assert parts[..k][..k - 1] == parts[..k - 1];
    assert arr[..lo] + arr[lo..hi] == arr[..hi];
  }

  /**
   * The slices are contiguous and in order, so that they concatenate to
   * `arr`: `n` of them when `len >= n`, otherwise one per element.
   * None is empty. No workers means no slices.
   */
  lemma ChunksPartition<T>(arr: seq<T>, n: nat)
    ensures n == 0 ==> Chunks(arr, n) == []
    ensures n > 0 ==> Concat(Chunks(arr, n)) == arr
    ensures |Chunks(arr, n)| == (if n == 0 then 0 else if |arr| >= n then n else |arr|)
    ensures forall i :: 0 <= i < |Chunks(arr, n)| ==> |Chunks(arr, n)[i]| >= 1
    ensures n > 0 && |arr| < n ==> forall i :: 0 <= i < |Chunks(arr, n)| ==> Chunks(arr, n)[i] == [arr[i]]
  {
    if n > 0 {
      var c := ChunkCount(|arr|, n);
      assert ChunkBound(|arr|, n, c) == |arr| by {
        if |arr| >= n {
          DivUnique(n * |arr|, n, |arr|, 0);
        }
      }
      assert Concat(Chunks(arr, n)) == arr by {
        ConcatChunksPrefix(arr, n, c);
        assert Chunks(arr, n)[..c] == Chunks(arr, n);
      }
      forall i | 0 <= i < c ensures |Chunks(arr, n)[i]| >= 1 {
        BoundsOrdered(|arr|, n, i);
      }
    }
  }

  lemma DivSpread(x: nat, r: nat, n: nat)
    requires n > 0 && r < n
    ensures x / n <= (x + r) / n <= x / n + 1
  {
    DivMonotone(x, x + r, n);
    DivMonotone(x + r, x + n, n);
    DivStep(x, n);
  }

  lemma Distribute(i: nat, n: nat, q: nat, r: nat)
    ensures i * (n * q + r) == n * (i * q) + i * r
  {
  }

  /** Consecutive bounds `floor(i * len / n)` are `len / n` or `len / n + 1` apart. */
  lemma BoundsSpread(len: nat, n: nat, i: nat)
    requires 0 < n && i < n
    ensures len / n <= ((i + 1) * len) / n - (i * len) / n <= len / n + 1
  {
    var q, r := len / n, len % n;
    assert len == n * q + r;
    assert (i * len) / n == i * q + (i * r) / n by {
      Distribute(i, n, q, r);
      DivShift(i * q, i * r, n);
    }
    assert ((i + 1) * len) / n == (i * q + q) + (i * r + r) / n by {
      Distribute(i + 1, n, q, r);
      assert (i + 1) * q == i * q + q && (i + 1) * r == i * r + r;
      DivShift((i + 1) * q, i * r + r, n);
    }
    DivSpread(i * r, r, n);
  }

  /** When `len >= n` the slices are balanced: each holds `len / n` or `len / n + 1` elements. */
  lemma ChunksBalanced<T>(arr: seq<T>, n: nat, i: nat)
    requires 0 < n <= |arr| && i < n
    ensures |arr| / n <= |Chunks(arr, n)[i]| <= |arr| / n + 1
  {
    BoundsOrdered(|arr|, n, i);
    BoundsSpread(|arr|, n, i);
  }

  // ---------------------------------------------------------------------
  // fetchSNDatumsProducer
  // ---------------------------------------------------------------------

  datatype State = Raw | Aggregated

  /** A response tagged with whether its rows are raw or aggregated. */
  datatype TaggedStreamResponse = TaggedStreamResponse(state: State, response: StreamResponse)

  /** What travels down the channel: a response and the 1-based position of its range. */
  datatype SNChunk = SNChunk(response: TaggedStreamResponse, total: nat)

  /** The channel between the workers and the writer, seen as what has been sent so far. */
  class Channel {
    var sent: seq<SNChunk>

    constructor ()
      ensures sent == []
    {
      sent := [];
    }

    method Send(c: SNChunk)
      modifies this
      ensures sent == old(sent) + [c]
    {
      sent := sent + [c];
    }
  }

  /**
   * The chunks one source yields over `ranges`: for range `k`, its response
   * tagged `k + 1` when the fetch succeeded, nothing when it failed.
   */
  function SourceChunks(source: string, ranges: seq<MomentRange>,
                        fetch: (string, MomentRange) -> Result<TaggedStreamResponse, string>): seq<SNChunk>
  {
    if |ranges| == 0 then []
    else
      var resp := fetch(source, ranges[|ranges| - 1]);
      SourceChunks(source, ranges[..|ranges| - 1], fetch) +
      (if resp.Ok? then [SNChunk(resp.value, |ranges|)] else [])
  }

  /** The chunks a worker yields: each source's chunks in turn. */
  function ProducerOutput(sources: seq<string>, ranges: seq<MomentRange>,
                          fetch: (string, MomentRange) -> Result<TaggedStreamResponse, string>): seq<SNChunk>
  {
    if |sources| == 0 then []
    else ProducerOutput(sources[..|sources| - 1], ranges, fetch) + SourceChunks(sources[|sources| - 1], ranges, fetch)
  }

  lemma SourceChunksStep(source: string, ranges: seq<MomentRange>,
                         fetch: (string, MomentRange) -> Result<TaggedStreamResponse, string>, k: nat)
    requires k < |ranges|
    ensures SourceChunks(source, ranges[..k + 1], fetch) == SourceChunks(source, ranges[..k], fetch) +
      (if fetch(source, ranges[k]).Ok? then [SNChunk(fetch(source, ranges[k]).value, k + 1)] else [])
  {
    assert ranges[..k + 1][..k] == ranges[..k];
  }

  lemma ProducerOutputStep(sources: seq<string>, ranges: seq<MomentRange>,
                           fetch: (string, MomentRange) -> Result<TaggedStreamResponse, string>, j: nat)
    requires j < |sources|
    ensures ProducerOutput(sources[..j + 1], ranges, fetch) ==
      ProducerOutput(sources[..j], ranges, fetch) + SourceChunks(sources[j], ranges, fetch)
  {
    assert sources[..j + 1][..j] == sources[..j];
  }

  /** The inner loop of `fetchSNDatumsProducer`: one source over every range, numbering the ranges from 1. */
  method FetchSource(chan: Channel, source: string, ranges: seq<MomentRange>,
                     fetch: (string, MomentRange) -> Result<TaggedStreamResponse, string>)
    modifies chan
    ensures chan.sent == old(chan.sent) + SourceChunks(source, ranges, fetch)
  {
    var total := 0;
    for k := 0 to |ranges|
      invariant total == k
      invariant chan.sent == old(chan.sent) + SourceChunks(source, ranges[..k], fetch)
    {
      total := total + 1;
      var response := fetch(source, ranges[k]);
      SourceChunksStep(source, ranges, fetch, k);
      if response.Err? {
        continue;
      }
      chan.Send(SNChunk(response.value, total));
    }
    assert ranges[..|ranges|] == ranges;
  }

  /**
   * `fetchSNDatumsProducer`: `fetch` stands for the signed HTTP query of one
   * source over one range. A worker without a group does nothing.
   */
  method FetchSNDatumsProducer(chan: Channel, group: Option<seq<string>>, start: Instant, end: Instant,
                               fetch: (string, MomentRange) -> Result<TaggedStreamResponse, string>)
    modifies chan
    ensures chan.sent == old(chan.sent) +
      (if group.None? then [] else ProducerOutput(group.value, DateRanges(start, end), fetch))
  {
    if group.None? {
      return;
    }
    var sources := group.value;
    var ranges := GetDateRanges(start, end);
    for j := 0 to |sources|
      invariant chan.sent == old(chan.sent) + ProducerOutput(sources[..j], ranges, fetch)
    {
      FetchSource(chan, sources[j], ranges, fetch);
      ProducerOutputStep(sources, ranges, fetch, j);
      AppendAssoc(old(chan.sent), ProducerOutput(sources[..j], ranges, fetch), SourceChunks(sources[j], ranges, fetch));
    }
    assert sources[..|sources|] == sources;
  }

  /**
   * Every chunk of a source names its range by 1-based position and carries
   * exactly what the fetch of that range returned; positions strictly increase.
   */
  lemma {:induction false} SourceChunksTagged(source: string, ranges: seq<MomentRange>,
                                              fetch: (string, MomentRange) -> Result<TaggedStreamResponse, string>)
    ensures forall j :: 0 <= j < |SourceChunks(source, ranges, fetch)| ==>
      var c := SourceChunks(source, ranges, fetch)[j];
      1 <= c.total <= |ranges| && fetch(source, ranges[c.total - 1]) == Ok(c.response)
    ensures forall i, j :: 0 <= i < j < |SourceChunks(source, ranges, fetch)| ==>
      SourceChunks(source, ranges, fetch)[i].total < SourceChunks(source, ranges, fetch)[j].total
  {
    if |ranges| > 0 {
      var init := ranges[..|ranges| - 1];
      SourceChunksTagged(source, init, fetch);
      forall j | 0 <= j < |SourceChunks(source, init, fetch)|
        ensures init[SourceChunks(source, init, fetch)[j].total - 1] ==
          ranges[SourceChunks(source, init, fetch)[j].total - 1]
      {
      }
    }
  }

  /** A range's response is sent exactly when its fetch succeeded. */
  lemma {:induction false} SourceChunksComplete(source: string, ranges: seq<MomentRange>,
                                                fetch: (string, MomentRange) -> Result<TaggedStreamResponse, string>, k: nat)
    requires k < |ranges|
    ensures fetch(source, ranges[k]).Ok? <==>
      exists j :: 0 <= j < |SourceChunks(source, ranges, fetch)| && SourceChunks(source, ranges, fetch)[j].total == k + 1
  {
    var n := |ranges|;
    var init := ranges[..n - 1];
    SourceChunksTagged(source, init, fetch);
    var rest := SourceChunks(source, init, fetch);
    var all := SourceChunks(source, ranges, fetch);
    assert all[..|rest|] == rest;
    assert forall j :: |rest| <= j < |all| ==> all[j].total == n;
    if k < n - 1 {
      SourceChunksComplete(source, init, fetch, k);
      assert init[k] == ranges[k];
      assert forall j :: 0 <= j < |all| && all[j].total == k + 1 ==> j < |rest| && rest[j].total == k + 1;
      if fetch(source, ranges[k]).Ok? {
        var j :| 0 <= j < |rest| && rest[j].total == k + 1;
        assert all[j] == rest[j];
        assert 0 <= j < |all| && all[j].total == k + 1;
        assert exists j :: 0 <= j < |SourceChunks(source, ranges, fetch)| && SourceChunks(source, ranges, fetch)[j].total == k + 1;
      } else {
        assert !exists j :: 0 <= j < |rest| && rest[j].total == k + 1;
        assert !exists j :: 0 <= j < |all| && all[j].total == k + 1;
      }
    } else {
      if fetch(source, ranges[k]).Ok? {
        assert |all| == |rest| + 1 && all[|rest|].total == k + 1;
        assert exists j :: 0 <= j < |SourceChunks(source, ranges, fetch)| && SourceChunks(source, ranges, fetch)[j].total == k + 1;
      } else {
        assert all == rest;
        assert forall j :: 0 <= j < |all| ==> all[j].total <= n - 1;
      }
    }
  }

  /** When every fetch succeeds a worker sends one chunk per (source, range) pair. */
  lemma {:induction false} ProducerOutputSize(sources: seq<string>, ranges: seq<MomentRange>,
                                              fetch: (string, MomentRange) -> Result<TaggedStreamResponse, string>)
    requires forall s, r :: fetch(s, r).Ok?
    ensures |ProducerOutput(sources, ranges, fetch)| == |sources| * |ranges|
  {
    if |sources| > 0 {
      var s := |sources| - 1;
      ProducerOutputSize(sources[..s], ranges, fetch);
      SourceChunksSize(sources[s], ranges, fetch);
      assert s * |ranges| + |ranges| == |sources| * |ranges| by {
        Distribute(|ranges|, 1, s, 0);
      }
    }
  }

  lemma {:induction false} SourceChunksSize(source: string, ranges: seq<MomentRange>,
                                            fetch: (string, MomentRange) -> Result<TaggedStreamResponse, string>)
    requires forall s, r :: fetch(s, r).Ok?
    ensures |SourceChunks(source, ranges, fetch)| == |ranges|
  {
    if |ranges| > 0 {
      SourceChunksSize(source, ranges[..|ranges| - 1], fetch);
    }
  }
}
