/** The per-dimension ledger the render queue consults and advances: the
    recorded timestamp of each chunk (a default where none is recorded), the
    last applied timestamp, and the backlog of chunks awaiting catchup. Only
    the operations the render queue calls are modelled. */
module DimensionStates {
  import opened Tiles

  /** The ledger as a value. */
  datatype Ledger = Ledger(
    chunkTimestamps: map<ChunkPos, int>,
    defaultTimestamp: int,
    lastTimestamp: int,
    catchupChunks: seq<ChunkPos>)

  /** The timestamp recorded for `pos`, or the default when none is. */
  function Recorded(l: Ledger, pos: ChunkPos): int
  {
    if pos in l.chunkTimestamps then l.chunkTimestamps[pos] else l.defaultTimestamp
  }

  /** How many backlog entries a poll with limit `limit` hands out. */
  function PollCount(limit: int, available: nat): (n: nat)
    ensures n <= available && (limit <= 0 ==> n == 0)
    ensures 0 < limit ==> n <= limit && (n == available || n == limit)
  {
    if limit <= 0 then 0 else if limit < available then limit else available
  }

  /** Records `ts` for `pos` and as the last timestamp, as the render queue
      does after a renderer applied a tile. */
  function Advance(l: Ledger, pos: ChunkPos, ts: int): (r: Ledger)
    ensures Recorded(r, pos) == ts && r.lastTimestamp == ts
    ensures forall p :: p != pos ==> Recorded(r, p) == Recorded(l, p)
    ensures r.defaultTimestamp == l.defaultTimestamp && r.catchupChunks == l.catchupChunks
  {
    l.(chunkTimestamps := l.chunkTimestamps[pos := ts], lastTimestamp := ts)
  }

  /** Polls up to `limit` positions from the front of the backlog: the
      positions handed out, and the ledger without them. */
  function PollCatchup(l: Ledger, limit: int): (r: (seq<ChunkPos>, Ledger))
    ensures |r.0| == PollCount(limit, |l.catchupChunks|)
    ensures r.0 + r.1.catchupChunks == l.catchupChunks
    ensures r.1.(catchupChunks := l.catchupChunks) == l
  {
    var n := PollCount(limit, |l.catchupChunks|);
    (l.catchupChunks[..n], l.(catchupChunks := l.catchupChunks[n..]))
  }

  class DimensionState {
    const defaultTimestamp: int
    var chunkTimestamps: map<ChunkPos, int>
    var lastTimestamp: int
    var catchupChunks: seq<ChunkPos>

    /** The current ledger. */
    function Snapshot(): Ledger
      reads this
    {
      Ledger(chunkTimestamps, defaultTimestamp, lastTimestamp, catchupChunks)
    }

    /** A ledger with no chunk recorded, resuming from `lastTimestamp`, with
        the given backlog. */
    constructor (defaultTimestamp: int, lastTimestamp: int, backlog: seq<ChunkPos>)
      ensures Snapshot() == Ledger(map[], defaultTimestamp, lastTimestamp, backlog)
    {
      this.defaultTimestamp := defaultTimestamp;
      this.chunkTimestamps := map[];
      this.lastTimestamp := lastTimestamp;
      this.catchupChunks := backlog;
    }

    /** The recorded timestamp of `pos`. */
    method GetChunkTimestamp(pos: ChunkPos) returns (ts: int)
      ensures ts == Recorded(Snapshot(), pos)
    {
      ts := if pos in chunkTimestamps then chunkTimestamps[pos] else defaultTimestamp;
    }

    method SetChunkTimestamp(pos: ChunkPos, ts: int)
      modifies this
      ensures Snapshot() == old(Snapshot()).(chunkTimestamps := old(chunkTimestamps)[pos := ts])
    {
      chunkTimestamps := chunkTimestamps[pos := ts];
    }

    method WriteLastTimestamp(ts: int)
      modifies this
      ensures Snapshot() == old(Snapshot()).(lastTimestamp := ts)
    {
      lastTimestamp := ts;
    }

    /** Removes and returns up to `limit` positions from the front of the
        backlog. */
    method PollCatchupChunks(limit: int) returns (chunks: seq<ChunkPos>)
      modifies this
      ensures (chunks, Snapshot()) == PollCatchup(old(Snapshot()), limit)
    {
      var n := if limit <= 0 then 0 else if limit < |catchupChunks| then limit else |catchupChunks|;
      chunks := catchupChunks[..n];
      catchupChunks := catchupChunks[n..];
    }
  }
}
