/** The part of the llama.cpp binding the core consumes, as far as the core's bookkeeping
    depends on it: token ids, the model's sizes, sampler stages and chains, batches and the
    key-value cache of a context. Tensor computation is not modelled. */
module Llama {
  import opened Base

  type LlamaToken = I32

  /** What the core reads from a loaded model: vocabulary size and training context length. */
  datatype Model = Model(nVocab: I32, nCtxTrain: U32)

  /** One token-selection stage, by the binding constructor that builds it, with the
      arguments it receives. */
  datatype Stage =
    | Penalties(lastN: I32, repeat: F32, freq: F32, present: F32)
    | Greedy
    | Dry(model: Model, multiplier: F32, base: F32, allowedLength: I32, penaltyLastN: I32, seqBreakers: seq<string>)
    | TopK(k: I32)
    | TopP(p: F32, minKeep: nat)
    | Xtc(probability: F32, threshold: F32, minKeep: nat, seed: U32)
    | Typical(p: F32, minKeep: nat)
    | Temp(t: F32)
    | Dist(seed: U32)
    | Mirostat(nVocab: I32, seed: U32, tau: F32, eta: F32, m: I32)
    | MirostatV2(seed: U32, tau: F32, eta: F32)

  /** A sampler chain: stages applied in order; `noPerf` switches off timing counters. */
  datatype Sampler = Chain(stages: seq<Stage>, noPerf: bool)

  /** A stage that draws at random. */
  predicate Draws(s: Stage) {
    s.Dist? || s.Mirostat? || s.MirostatV2? || s.Xtc?
  }

  /** One used cell of the key-value cache (sequence 0 only): the token and its position. */
  datatype Cell = Cell(token: LlamaToken, pos: int)

  /** One batch entry: a token, its position, its sequence ids, and whether logits are
      requested for it. */
  datatype BatchEntry = BatchEntry(token: LlamaToken, pos: int, seqIds: seq<I32>, logits: bool)

  function CellOf(e: BatchEntry): (c: Cell) {
    Cell(e.token, e.pos)
  }

  function CellsOf(entries: seq<BatchEntry>): (r: seq<Cell>)
    ensures |r| == |entries| && forall i :: 0 <= i < |r| ==> r[i] == CellOf(entries[i])
  {
    seq(|entries|, i requires 0 <= i < |entries| => CellOf(entries[i]))
  }

  /** Removes the cells whose position lies in [p0, p1). */
  function RemoveRange(cells: seq<Cell>, p0: int, p1: int): (r: seq<Cell>)
    ensures |r| <= |cells|
  {
    if cells == [] then []
    else
      var rest := RemoveRange(cells[1..], p0, p1);
      if p0 <= cells[0].pos < p1 then rest else [cells[0]] + rest
  }

  /** Adds `delta` to the position of every cell whose position lies in [p0, p1). */
  function ShiftRange(cells: seq<Cell>, p0: int, p1: int, delta: int): (r: seq<Cell>)
    ensures |r| == |cells|
  {
    if cells == [] then []
    else
      var c := cells[0];
      [if p0 <= c.pos < p1 then Cell(c.token, c.pos + delta) else c] + ShiftRange(cells[1..], p0, p1, delta)
  }

  /** A fixed-capacity batch of tokens to decode. */
  class Batch {
    const capacity: nat
    var entries: seq<BatchEntry>

    constructor (capacity: nat)
      ensures this.capacity == capacity && entries == []
    {
      this.capacity := capacity;
      entries := [];
    }

    method Clear()
      modifies this
      ensures entries == []
    {
      entries := [];
    }

    /** Fails (with no change) when the batch is full. */
    method Add(token: LlamaToken, pos: int, seqIds: seq<I32>, logits: bool) returns (ok: bool)
      modifies this
      ensures ok <==> |old(entries)| < capacity
      ensures entries == if ok then old(entries) + [BatchEntry(token, pos, seqIds, logits)] else old(entries)
    {
      ok := |entries| < capacity;
      if ok {
        entries := entries + [BatchEntry(token, pos, seqIds, logits)];
      }
    }
  }

  /** An inference context: its size in tokens and the used cells of its key-value cache. */
  class Context {
    const nCtx: nat
    var cells: seq<Cell>

    constructor (nCtx: nat)
      ensures this.nCtx == nCtx && cells == []
    {
      this.nCtx := nCtx;
      cells := [];
    }

    function TokenCount(): (n: nat)
      reads this
    {
      |cells|
    }

    /** Decoding commits every entry of the batch to the cache. It fails, with no change, on
        an empty batch or when the cache has no room for the batch. */
    method Decode(batch: Batch) returns (ok: bool)
      modifies this
      ensures ok <==> 0 < |batch.entries| && |old(cells)| + |batch.entries| <= nCtx
      ensures cells == if ok then old(cells) + CellsOf(batch.entries) else old(cells)
    {
      ok := 0 < |batch.entries| && |cells| + |batch.entries| <= nCtx;
      if ok {
        cells := cells + CellsOf(batch.entries);
      }
    }

    method ClearKvCache()
      modifies this
      ensures cells == []
    {
      cells := [];
    }

    /** Removes the cells of positions [p0, p1). */
    method ClearKvCacheSeq(p0: nat, p1: nat)
      modifies this
      ensures cells == RemoveRange(old(cells), p0, p1)
    {
      cells := RemoveRange(cells, p0, p1);
    }

    /** Moves the cells of positions [p0, p1) by `delta`. */
    method KvCacheSeqAdd(p0: nat, p1: nat, delta: int)
      modifies this
      ensures cells == ShiftRange(old(cells), p0, p1, delta)
    {
      cells := ShiftRange(cells, p0, p1, delta);
    }
  }
}
