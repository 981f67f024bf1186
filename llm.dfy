/** The inference worker and its handle (nobodywho/core/src/llm.rs): filling batches, the
    "drop the oldest half" context shift, the per-command state machine over the position
    counter and the key-value cache, the worker's message loop, and the handle's turn
    bookkeeping over the chat state. Tokenizing, sampling, detokenizing and end-of-generation
    checks are oracles; channels are sequences. */
module Llm {
  import opened Base
  import opened Llama
  import Sampling
  import ChatHistory

  datatype WorkerError =
    | TokenizerError
    | BatchAddError
    | DecodeError
    | GilPoisonError

  /** What the worker sends back while generating. */
  datatype LLMOutput = Token(text: string) | FatalErr(error: WorkerError) | Done(response: string)

  /** Commands to the worker. Every generation request of a handle carries a clone of that
      handle's one completion sender, so the model keeps a single output sequence. */
  datatype WorkerMsg = ReadString(text: string) | WriteUntilDone | ResetContext

  /** How a command ended: handled, with an error (the worker dies), with a panic, or still
      generating when the fuel bound on generated tokens ran out. */
  datatype Handled = Handled | Failed(error: WorkerError) | Panicked | FuelExhausted

  /** The engine calls the worker makes, as deterministic functions. `sample` sees the
      sampler chain, the caches of all the chain's earlier draws (which determine its internal
      state: penalty window, DRY history, mirostat's mu, random state) and the current cache;
      `tokenToStr` already falls back to U+FFFD on undecodable bytes; `lockPoisoned` says
      whether the process-wide inference lock is poisoned. */
  datatype Oracle = Oracle(
    strToToken: string -> Option<seq<LlamaToken>>,
    sample: (Sampler, seq<seq<Cell>>, seq<Cell>) -> LlamaToken,
    tokenToStr: LlamaToken -> string,
    isEogToken: LlamaToken -> bool,
    lockPoisoned: bool)

  /** A text the worker tokenizes (for a debug print) on every read. */
  const TOOL_CALL_END: string := "</tool_call>"

  /** The cache holds one cell per position 0 .. |cells| - 1, in position order. */
  predicate Contiguous(cells: seq<Cell>) {
    forall i :: 0 <= i < |cells| ==> cells[i].pos == i
  }

  predicate ContiguousFrom(cells: seq<Cell>, base: int) {
    forall i :: 0 <= i < |cells| ==> cells[i].pos == base + i
  }

  // ---------------------------------------------------------------- batches

  /** The batch `add_sequence` builds: token i at position `pos + i`, logits for the last
      token only. */
  function SequenceEntries(tokens: seq<LlamaToken>, pos: int, seqIds: seq<I32>): (r: seq<BatchEntry>)
    ensures |r| == |tokens|
  {
    seq(|tokens|, i requires 0 <= i < |tokens| => BatchEntry(tokens[i], pos + i, seqIds, i == |tokens| - 1))
  }

  /** The batch holds exactly one entry per token, at consecutive positions from `pos`, and
      only the last entry asks for logits. */
  lemma SequenceEntriesShape(tokens: seq<LlamaToken>, pos: int, seqIds: seq<I32>, i: int)
    requires 0 <= i < |tokens|
    ensures var e := SequenceEntries(tokens, pos, seqIds)[i];
      e.token == tokens[i] && e.pos == pos + i && (e.logits <==> i == |tokens| - 1)
  {
  }

  /** Committing the batch built at the end of a contiguous cache keeps the cache contiguous
      and adds exactly the tokens, in order. */
  lemma {:induction false} CommitKeepsContiguous(cells: seq<Cell>, tokens: seq<LlamaToken>, seqIds: seq<I32>)
    requires Contiguous(cells)
    ensures var grown := cells + CellsOf(SequenceEntries(tokens, |cells|, seqIds));
      Contiguous(grown) && |grown| == |cells| + |tokens| &&
      forall i :: 0 <= i < |tokens| ==> grown[|cells| + i].token == tokens[i]
  {
    var added := CellsOf(SequenceEntries(tokens, |cells|, seqIds));
    var grown := cells + added;
    forall i | 0 <= i < |grown|
      ensures grown[i].pos == i
    {
      if i >= |cells| {
        assert grown[i] == added[i - |cells|];
      }
    }
  }

  /** `add_sequence`: clear the batch, then add the tokens one by one; fails when the batch is
      too small, after filling it. */
  method AddSequence(batch: Batch, tokens: seq<LlamaToken>, pos: int, seqIds: seq<I32>) returns (r: Result<(), WorkerError>)
    modifies batch
    ensures r.Ok? <==> |tokens| <= batch.capacity
    ensures r.Ok? ==> batch.entries == SequenceEntries(tokens, pos, seqIds)
    ensures r.Err? ==> r.error == BatchAddError && batch.entries == SequenceEntries(tokens, pos, seqIds)[..batch.capacity]
  {
    batch.Clear();
    var nTokens := |tokens|;
    var i := 0;
    while i < nTokens
      invariant 0 <= i <= nTokens && i <= batch.capacity
      invariant batch.entries == SequenceEntries(tokens, pos, seqIds)[..i]
    {
      // only the last token's logits are computed
      var outputLogits := i == nTokens - 1;
      var ok := batch.Add(tokens[i], pos + i, seqIds, outputLogits);
      if !ok {
        return Err(BatchAddError);
      }
      i := i + 1;
    }
    return Ok(());
  }

  // ---------------------------------------------------------------- context shifting

  /** The cache after dropping its oldest `d` cells and moving the rest `d` positions left. */
  function Dropped(cells: seq<Cell>, d: nat): (r: seq<Cell>)
    requires d <= |cells|
    ensures |r| == |cells| - d && Contiguous(r)
    ensures forall i :: 0 <= i < |r| ==> r[i].token == cells[d + i].token
  {
    seq(|cells| - d, i requires 0 <= i < |cells| - d => Cell(cells[d + i].token, i))
  }

  lemma {:induction false} RemoveRangeContiguous(cells: seq<Cell>, base: int, d: int)
    requires ContiguousFrom(cells, base) && 0 <= base && d <= base + |cells|
    ensures RemoveRange(cells, 0, d) == cells[if d <= base then 0 else d - base..]
    decreases |cells|
  {
    if cells != [] {
      RemoveRangeContiguous(cells[1..], base + 1, d);
    }
  }

  lemma {:induction false} ShiftRangeContiguous(cells: seq<Cell>, base: int, p0: int, p1: int, delta: int)
    requires ContiguousFrom(cells, base) && p0 <= base && base + |cells| <= p1
    ensures ShiftRange(cells, p0, p1, delta) == seq(|cells|, i requires 0 <= i < |cells| => Cell(cells[i].token, base + i + delta))
    decreases |cells|
  {
    if cells != [] {
      var tail := cells[1..];
      assert ContiguousFrom(tail, base + 1) by {
        assert forall i :: 0 <= i < |tail| ==> tail[i] == cells[i + 1];
      }
      ShiftRangeContiguous(tail, base + 1, p0, p1, delta);
      var shifted := seq(|cells|, i requires 0 <= i < |cells| => Cell(cells[i].token, base + i + delta));
      assert cells[0].pos == base;
      assert shifted == [Cell(cells[0].token, base + delta)] + shifted[1..];
      assert shifted[1..] == seq(|tail|, i requires 0 <= i < |tail| => Cell(tail[i].token, base + 1 + i + delta));
    }
  }

  /** On a contiguous cache of `n` cells, deleting positions [0, n/2) and moving positions
      [n/2, n) left by n/2 leaves the newest n - n/2 cells, contiguous from 0. */
  lemma ShiftDropsOldestHalf(cells: seq<Cell>)
    requires Contiguous(cells)
    ensures var n := |cells|; var d := n / 2;
      |RemoveRange(cells, 0, d)| == n - d &&
      ShiftRange(RemoveRange(cells, 0, d), d, n, -d) == Dropped(cells, d)
  {
    var n := |cells|;
    var d := n / 2;
    assert ContiguousFrom(cells, 0);
    RemoveRangeContiguous(cells, 0, d);
    var kept := cells[d..];
    assert ContiguousFrom(kept, d);
    ShiftRangeContiguous(kept, d, d, n, -d);
  }

  /** `apply_context_shifting`: discard the oldest half of the `nPast` committed tokens (nothing
      is kept at the front) and move the rest to the start; returns the number discarded. The
      two debug assertions on the cache's token count panic when they fail. */
  method ApplyContextShifting(ctx: Context, nPast: I32) returns (r: Outcome<I32, WorkerError>)
    modifies ctx
    ensures !r.Failure?
    ensures nPast as int != |old(ctx.cells)| ==> r.Panic? && ctx.cells == old(ctx.cells)
    ensures Contiguous(old(ctx.cells)) && nPast as int == |old(ctx.cells)| ==>
      r == Success(nPast / 2) && ctx.cells == Dropped(old(ctx.cells), nPast as nat / 2)
  {
    var nKeep: I32 := 0;
    var nLeft := nPast - nKeep;
    if nPast as int != ctx.TokenCount() {
      return Panic;
    }
    var nDiscard := nLeft / 2;
    if Contiguous(ctx.cells) {
      ShiftDropsOldestHalf(ctx.cells);
    }
    ctx.ClearKvCacheSeq(nKeep as nat, (nKeep + nDiscard) as nat);
    if (nPast - nDiscard) as int != ctx.TokenCount() {
      return Panic;
    }
    ctx.KvCacheSeqAdd((nKeep + nDiscard) as nat, nPast as nat, -nDiscard as int);
    return Success(nDiscard);
  }

  /** The cache a generation round samples from: the shifted cache when the counter reached
      n_ctx - 1, the cache itself otherwise. */
  function BeforeSample(cells: seq<Cell>, nCtx: nat): (r: seq<Cell>)
    ensures Contiguous(cells) ==> Contiguous(r)
    ensures |r| <= |cells| && (|cells| <= nCtx ==> |r| < nCtx || nCtx < 2)
  {
    if |cells| >= nCtx - 1 then Dropped(cells, |cells| / 2) else cells
  }

  /** The cache after generation rounds that committed `sampled`, starting from `cells`:
      each round shifts a full cache (BeforeSample) and commits its token at the next
      position. */
  function CacheAfter(cells: seq<Cell>, sampled: seq<LlamaToken>, nCtx: nat): (r: seq<Cell>)
    ensures Contiguous(cells) ==> Contiguous(r)
    ensures sampled != [] ==> |r| > 0 && r[|r| - 1] == Cell(sampled[|sampled| - 1], |r| - 1)
    decreases |sampled|
  {
    if sampled == [] then cells
    else
      var cache := BeforeSample(CacheAfter(cells, sampled[..|sampled| - 1], nCtx), nCtx);
      cache + [Cell(sampled[|sampled| - 1], |cache|)]
  }

  /** The sampler's history after those rounds: the caches of its draws before them
      (`seen`), then the cache each round sampled from, in order. */
  function SeenAfter(seen: seq<seq<Cell>>, cells: seq<Cell>, sampled: seq<LlamaToken>, nCtx: nat): (r: seq<seq<Cell>>)
    ensures |r| == |seen| + |sampled| && r[..|seen|] == seen
    decreases |sampled|
  {
    if sampled == [] then seen
    else
      var front := sampled[..|sampled| - 1];
      SeenAfter(seen, cells, front, nCtx) + [BeforeSample(CacheAfter(cells, front, nCtx), nCtx)]
  }

  /** Each committed token is the sampler's choice on the cache of its round, given the
      sampler's history before that round. */
  predicate Drawn(oracle: Oracle, sampler: Sampler, seen: seq<seq<Cell>>, cells: seq<Cell>, nCtx: nat, sampled: seq<LlamaToken>)
    decreases |sampled|
  {
    sampled == [] ||
    var front := sampled[..|sampled| - 1];
    Drawn(oracle, sampler, seen, cells, nCtx, front) &&
    sampled[|sampled| - 1] == oracle.sample(sampler, SeenAfter(seen, cells, front, nCtx), BeforeSample(CacheAfter(cells, front, nCtx), nCtx))
  }

  /** One more round: it samples from the shifted cache, commits its token after it, the
      sampler's history gains that cache, and the token is drawn exactly when it is the
      sampler's choice there. */
  lemma DrawnStep(oracle: Oracle, sampler: Sampler, seen: seq<seq<Cell>>, cells: seq<Cell>, nCtx: nat,
                  sampled: seq<LlamaToken>, token: LlamaToken)
    ensures var cache := BeforeSample(CacheAfter(cells, sampled, nCtx), nCtx);
      CacheAfter(cells, sampled + [token], nCtx) == cache + [Cell(token, |cache|)] &&
      SeenAfter(seen, cells, sampled + [token], nCtx) == SeenAfter(seen, cells, sampled, nCtx) + [cache] &&
      (Drawn(oracle, sampler, seen, cells, nCtx, sampled + [token]) <==>
        Drawn(oracle, sampler, seen, cells, nCtx, sampled) &&
        token == oracle.sample(sampler, SeenAfter(seen, cells, sampled, nCtx), cache))
  {
    assert (sampled + [token])[..|sampled|] == sampled;
  }

  // ---------------------------------------------------------------- generation rules

  function TokenEvents(pieces: seq<string>): (r: seq<LLMOutput>)
    ensures |r| == |pieces| && forall i :: 0 <= i < |r| ==> r[i] == Token(pieces[i])
  {
    seq(|pieces|, i requires 0 <= i < |pieces| => Token(pieces[i]))
  }

  /** The response built from the first j pieces contains a stop string. */
  predicate StopSeen(pieces: seq<string>, stops: seq<string>, j: nat)
    requires j <= |pieces|
  {
    ContainsAny(Join(pieces[..j]), stops)
  }

  /** No response prefix built from the first j pieces, j < n, contains a stop string. */
  predicate NoStopBefore(pieces: seq<string>, stops: seq<string>, n: nat)
    requires n <= |pieces|
  {
    forall j :: 0 <= j < n ==> !StopSeen(pieces, stops, j)
  }

  lemma TokenEventsSnoc(pieces: seq<string>, piece: string)
    ensures TokenEvents(pieces + [piece]) == TokenEvents(pieces) + [Token(piece)]
  {
  }

  /** The stop rule across one emitted piece: the earlier checks stay clean, and the check on
      the response before the piece decides whether the next response is still clean or ends
      the generation on a stop string. */
  lemma {:induction false} StopRuleStep(pieces: seq<string>, stops: seq<string>, piece: string)
    requires NoStopBefore(pieces, stops, |pieces|)
    ensures !ContainsAny(Join(pieces), stops) ==> NoStopBefore(pieces + [piece], stops, |pieces| + 1)
    ensures ContainsAny(Join(pieces), stops) ==> StopsAsWritten(pieces + [piece], stops, false)
  {
    var grown := pieces + [piece];
    forall j | 0 <= j <= |pieces|
      ensures StopSeen(grown, stops, j) == StopSeen(pieces, stops, j)
    {
      assert grown[..j] == pieces[..j];
    }
    assert pieces[..|pieces|] == pieces;
  }

  /** The exit rule of the generation loop, in terms of the emitted pieces. The stop check
      looks at the response BEFORE the current piece is appended. Ending on an end-of-generation
      token: no check before it found a stop string, and that token is not emitted. Ending on a
      stop string: the response without the last emitted piece already contained one, and no
      earlier check found one; the last piece is still emitted. */
  predicate StopsAsWritten(pieces: seq<string>, stops: seq<string>, eogEnd: bool) {
    if eogEnd then NoStopBefore(pieces, stops, |pieces|)
    else
      |pieces| > 0 && NoStopBefore(pieces, stops, |pieces| - 1) && StopSeen(pieces, stops, |pieces| - 1)
  }

  /** The generation loop's record so far: each emitted piece is the text of the sampled
      token at its place, and no emitted token is an end-of-generation token; an extra last
      sampled token is the end-of-generation token; before the loop stops no stop check has
      fired, and once it stops the stop rule holds. */
  predicate Generated(oracle: Oracle, stops: seq<string>, pieces: seq<string>, sampled: seq<LlamaToken>,
                      stop: bool, eogEnd: bool) {
    |sampled| == |pieces| + (if eogEnd then 1 else 0) &&
    (forall i :: 0 <= i < |pieces| ==> pieces[i] == oracle.tokenToStr(sampled[i]) && !oracle.isEogToken(sampled[i])) &&
    (eogEnd ==> stop && oracle.isEogToken(sampled[|sampled| - 1])) &&
    (!stop ==> NoStopBefore(pieces, stops, |pieces|)) &&
    (stop ==> StopsAsWritten(pieces, stops, eogEnd))
  }

  /** One round of the generation loop keeps its record: an end-of-generation token ends it
      unemitted; any other token is emitted, and ends it when the response before it already
      contained a stop string. */
  lemma GeneratedStep(oracle: Oracle, stops: seq<string>, pieces: seq<string>, sampled: seq<LlamaToken>, token: LlamaToken)
    requires Generated(oracle, stops, pieces, sampled, false, false)
    ensures var hasEog := oracle.isEogToken(token);
      var stop := hasEog || ContainsAny(Join(pieces), stops);
      Generated(oracle, stops, if hasEog then pieces else pieces + [oracle.tokenToStr(token)], sampled + [token], stop, hasEog)
  {
    if !oracle.isEogToken(token) {
      StopRuleStep(pieces, stops, oracle.tokenToStr(token));
    }
  }

  /** A response that ended on a stop string contains that stop string; at most one piece was
      emitted after the response first contained one. */
  lemma StopEndedResponseContainsStop(pieces: seq<string>, stops: seq<string>)
    requires StopsAsWritten(pieces, stops, false)
    ensures ContainsAny(Join(pieces), stops)
    ensures forall j :: 0 <= j < |pieces| - 1 ==> !ContainsAny(Join(pieces[..j]), stops)
  {
    var front, last := pieces[..|pieces| - 1], pieces[|pieces| - 1];
    assert StopSeen(pieces, stops, |pieces| - 1);
    var k :| 0 <= k < |stops| && Contains(Join(front), stops[k]);
    assert Join(pieces) == Join(front) + last;
    ContainsAppend(Join(front), last, stops[k]);
    assert Contains(Join(pieces), stops[k]);
    forall j | 0 <= j < |pieces| - 1
      ensures !ContainsAny(Join(pieces[..j]), stops)
    {
      assert !StopSeen(pieces, stops, j);
    }
  }

  /** A piece equal to a stop string, after a first piece that does not contain it, ends the
      generation one piece later: the piece after it is still emitted. */
  lemma StopAfterStopPiece(first: string, stop: string, next: string)
    requires !Contains(first, stop)
    ensures StopsAsWritten([first, stop, next], [stop], false)
    ensures Join([first, stop, next]) == first + stop + next
  {
    var pieces := [first, stop, next];
    assert pieces[..0] == [] && pieces[..1] == [first] && pieces[..2] == [first, stop] && pieces[..3] == pieces;
    assert Join(pieces[..1]) == first;
    assert Join(pieces[..2]) == first + stop;
    ContainsParts(first, stop);
    assert !StopSeen(pieces, [stop], 1);
    assert !StopSeen(pieces, [stop], 0);
    assert Contains(Join(pieces[..2]), [stop][0]);
    assert StopSeen(pieces, [stop], 2);
  }

  /** The crate's stop-word test as an instance of StopAfterStopPiece: with stop string
      "horse", the pieces "giraffe, ", "horse" and ", " end the generation after the piece
      following "horse", and the response is their concatenation. */
  lemma HorseExample()
    ensures StopsAsWritten(["giraffe, ", "horse", ", "], ["horse"], false)
    ensures Join(["giraffe, ", "horse", ", "]) == "giraffe, " + "horse" + ", "
  {
    NotContainsShort("giraffe, ", "horse");
    StopAfterStopPiece("giraffe, ", "horse", ", ");
  }

  lemma {:induction false} NotContainsShort(s: string, sub: string)
    requires |sub| > 0 && sub[0] !in s
    ensures !Contains(s, sub)
    decreases |s|
  {
    if s != [] {
      if |sub| <= |s| {
        assert s[..|sub|][0] == s[0];
      }
      NotContainsShort(s[1..], sub);
    }
  }

  // ---------------------------------------------------------------- the worker

  /** The requested context size, capped by the model's training context; zero means the
      model's training context. */
  function ContextSize(requested: U32, trained: U32): (n: nat)
    ensures 0 < requested <= trained ==> n == requested as nat
    ensures requested == 0 || requested > trained ==> n == trained as nat
    ensures n == 0 ==> trained == 0
    ensures n <= trained as int
  {
    var capped := if requested <= trained then requested else trained;
    if capped == 0 then trained as nat else capped as nat
  }

  /** What one read does to a cache of `cells` in a context of `nCtx` positions: its outcome
      and the cache it leaves. The text and `</tool_call>` must tokenize; the token count must
      be positive and below the context size (debug assertions); the decode needs room for
      every token. */
  function ReadResult(oracle: Oracle, text: string, cells: seq<Cell>, nCtx: nat): (r: (Handled, seq<Cell>))
    ensures r.0 != Handled ==> r.1 == cells
    ensures oracle.strToToken(text).None? || oracle.strToToken(TOOL_CALL_END).None? ==> r.0 == Failed(TokenizerError)
    ensures oracle.strToToken(text).Some? && oracle.strToToken(TOOL_CALL_END).Some? ==>
      var tokens := oracle.strToToken(text).value;
      (r.0 == Panicked <==> !(0 < |tokens| < nCtx)) &&
      (r.0 == Failed(DecodeError) <==> 0 < |tokens| < nCtx && |cells| + |tokens| > nCtx) &&
      (r.0 == Handled <==> 0 < |tokens| < nCtx && |cells| + |tokens| <= nCtx)
    ensures r.0 == Handled ==>
      var tokens := oracle.strToToken(text).value;
      |r.1| == |cells| + |tokens| && r.1[..|cells|] == cells &&
      forall i :: 0 <= i < |tokens| ==> r.1[|cells| + i] == Cell(tokens[i], |cells| + i)
  {
    match oracle.strToToken(text)
    case None => (Failed(TokenizerError), cells)
    case Some(tokens) =>
      if oracle.strToToken(TOOL_CALL_END).None? then (Failed(TokenizerError), cells)
      else if !(0 < |tokens| < nCtx) then (Panicked, cells)
      else if |cells| + |tokens| > nCtx then (Failed(DecodeError), cells)
      else (Handled, cells + CellsOf(SequenceEntries(tokens, |cells|, [0])))
  }

  /** What a command sends: a generation its Token events, then, when it completes, one Done
      with their concatenation; any other command nothing. */
  function CommandEvents(msg: WorkerMsg, pieces: seq<string>, completed: bool): (r: seq<LLMOutput>) {
    if !msg.WriteUntilDone? then [] else TokenEvents(pieces) + if completed then [Done(Join(pieces))] else []
  }

  /** The ways a command can fail: a poisoned lock fails every command; otherwise a read fails
      on the tokenizer, the decode or a debug assertion, a generation on the decode or the
      fuel bound, and a reset never fails. */
  predicate FailsWith(msg: WorkerMsg, r: Handled, poisoned: bool) {
    if poisoned then r == Failed(GilPoisonError)
    else match msg
      case ReadString(_) => r == Failed(TokenizerError) || r == Failed(DecodeError) || r == Panicked
      case WriteUntilDone => r == Failed(DecodeError) || r == FuelExhausted
      case ResetContext => false
  }

  /** The part of the worker's state a command works on: the committed cache and the caches
      the sampler chain has drawn from. */
  datatype Memory = Memory(cells: seq<Cell>, seen: seq<seq<Cell>>)

  /** What a command emitted and sampled: the emitted texts, the committed tokens, and whether
      generation ended on an end-of-generation token. */
  datatype Step = Step(pieces: seq<string>, sampled: seq<LlamaToken>, eogEnd: bool)

  /** A generation command run from `before` with `fuel` rounds allowed, ending with `r` after
      `step`, leaving `after`: the loop's record (`Generated`) with completion exactly on
      `Handled`; every committed token drawn by the sampler on its round's cache (`Drawn`);
      the cache after the last commit, or after the last shift when the last decode failed;
      the sampler's history grown by every round's cache. It never panics, a decode fails
      only in a context shorter than 2, and it gives up only after `fuel` committed tokens. */
  predicate Generation(oracle: Oracle, sampler: Sampler, stops: seq<string>, nCtx: nat, fuel: nat,
                       before: Memory, r: Handled, step: Step, after: Memory)
  {
    !r.Panicked? && (r.Failed? ==> r.error == DecodeError && nCtx < 2) &&
    (r == FuelExhausted ==> |step.sampled| == fuel) &&
    Generated(oracle, stops, step.pieces, step.sampled, r == Handled, step.eogEnd) &&
    Drawn(oracle, sampler, before.seen, before.cells, nCtx, step.sampled) &&
    (r.Failed? ==>
      after.cells == BeforeSample(CacheAfter(before.cells, step.sampled, nCtx), nCtx) &&
      after.seen == SeenAfter(before.seen, before.cells, step.sampled, nCtx) + [after.cells]) &&
    (!r.Failed? ==>
      after.cells == CacheAfter(before.cells, step.sampled, nCtx) &&
      after.seen == SeenAfter(before.seen, before.cells, step.sampled, nCtx))
  }

  /** `handle_msg` on a worker with sampler chain `sampler`, stop strings `stops` and context
      size `nCtx`, from `before` to `after`, ending with `r` after `step`: a poisoned lock fails
      and changes nothing; a read does what `ReadResult` says; a generation what `Generation`
      says; a reset empties the cache. Only a generation emits or samples. */
  predicate Handles(oracle: Oracle, sampler: Sampler, stops: seq<string>, nCtx: nat, fuel: nat,
                    msg: WorkerMsg, before: Memory, r: Handled, step: Step, after: Memory)
  {
    if oracle.lockPoisoned then r == Failed(GilPoisonError) && step.pieces == [] && after == before
    else match msg
      case ReadString(text) =>
        (r, after.cells) == ReadResult(oracle, text, before.cells, nCtx) && after.seen == before.seen && step.pieces == []
      case WriteUntilDone => Generation(oracle, sampler, stops, nCtx, fuel, before, r, step, after)
      case ResetContext => r == Handled && after == Memory([], before.seen) && step.pieces == []
  }

  /** The worker's state: the position counter, the context with its cache, the sampler
      chain, the prefill batch (one slot per context position) and the one-token batch, the
      stop strings, the caches the sampler chain has drawn from (which determine its internal
      state; they survive resets and shifts), and everything the worker has sent on its
      completion channel. */
  class WorkerState {
    var nPast: I32
    const ctx: Context
    const sampler: Sampler
    const bigBatch: Batch
    const smallBatch: Batch
    const stopTokens: seq<string>
    var seen: seq<seq<Cell>>
    var outputs: seq<LLMOutput>

    /** The position counter equals the number of committed tokens, which sit at positions
        0 .. nPast - 1. */
    ghost predicate Valid()
      reads this, ctx, bigBatch, smallBatch
    {
      bigBatch != smallBatch &&
      bigBatch.capacity == ctx.nCtx && smallBatch.capacity == 1 && ctx.nCtx <= I32_MAX &&
      nPast as int == |ctx.cells| <= ctx.nCtx && Contiguous(ctx.cells)
    }

    constructor (model: Model, config: Sampling.SamplerConfig, requestedNCtx: U32, stopTokens: seq<string>)
      requires model.nCtxTrain as int <= I32_MAX
      ensures Valid() && fresh(ctx) && fresh(bigBatch) && fresh(smallBatch)
      ensures ctx.nCtx == ContextSize(requestedNCtx, model.nCtxTrain) && ctx.cells == [] && nPast == 0
      ensures sampler == Sampling.MakeSampler(model, config) && this.stopTokens == stopTokens
      ensures seen == [] && outputs == []
    {
      var n := ContextSize(requestedNCtx, model.nCtxTrain);
      ctx := new Context(n);
      bigBatch := new Batch(n);
      smallBatch := new Batch(1);
      nPast := 0;
      sampler := Sampling.MakeSampler(model, config);
      this.stopTokens := stopTokens;
      seen := [];
      outputs := [];
    }

    /** What a generation command with `fuel` rounds allowed did, from the cache `cells`, the
        sampler's history `seen0` and the outputs `out0`: what `Generation` says, with the
        Token events, then one Done with the whole response when it completed. */
    ghost predicate GeneratedFrom(oracle: Oracle, fuel: nat, cells: seq<Cell>, seen0: seq<seq<Cell>>, out0: seq<LLMOutput>,
                                  r: Handled, pieces: seq<string>, sampled: seq<LlamaToken>, eogEnd: bool)
      reads this, ctx
    {
      Generation(oracle, sampler, stopTokens, ctx.nCtx, fuel, Memory(cells, seen0), r, Step(pieces, sampled, eogEnd), Memory(ctx.cells, seen)) &&
      outputs == out0 + TokenEvents(pieces) + if r == Handled then [Done(Join(pieces))] else []
    }

    /** `handle_msg`: take the process-wide inference lock (fails if poisoned), then run the
        command. */
    method HandleMsg(msg: WorkerMsg, oracle: Oracle, fuel: nat) returns (r: Handled, ghost step: Step)
      requires Valid()
      modifies this, ctx, bigBatch, smallBatch
      ensures Valid()
      ensures outputs == old(outputs) + CommandEvents(msg, step.pieces, r == Handled)
      ensures r != Handled ==> FailsWith(msg, r, oracle.lockPoisoned)
      ensures Handles(oracle, sampler, stopTokens, ctx.nCtx, fuel, msg, Memory(old(ctx.cells), old(seen)), r, step, Memory(ctx.cells, seen))
    {
      step := Step([], [], false);
      if oracle.lockPoisoned {
        return Failed(GilPoisonError), step;
      }
      match msg
      case ReadString(text) =>
        r := ReadString(text, oracle);
      case WriteUntilDone =>
        ghost var pieces, sampled, eogEnd;
        r, pieces, sampled, eogEnd := WriteUntilDone(oracle, fuel);
        step := Step(pieces, sampled, eogEnd);
      case ResetContext =>
        ctx.ClearKvCache();
        nPast := 0;
        r := Handled;
    }

    /** The prefill command: tokenize, check the token count (debug assertions), fill the big
        batch at the current position and decode it; the counter advances by the token count
        (it stays the cache's length, by Valid). */
    method ReadString(text: string, oracle: Oracle) returns (r: Handled)
      requires Valid()
      modifies this, ctx, bigBatch
      ensures Valid() && outputs == old(outputs) && seen == old(seen)
      ensures (r, ctx.cells) == ReadResult(oracle, text, old(ctx.cells), ctx.nCtx)
    {
      var tokenized := oracle.strToToken(text);
      if tokenized.None? {
        return Failed(TokenizerError);
      }
      var tokens := tokenized.value;
      if oracle.strToToken(TOOL_CALL_END).None? {
        return Failed(TokenizerError);
      }
      if !(|tokens| > 0) || !(|tokens| < ctx.nCtx) {
        return Panicked;
      }
      var added := AddSequence(bigBatch, tokens, nPast as int, [0]);
      assert added.Ok?;
      var decoded := ctx.Decode(bigBatch);
      if !decoded {
        return Failed(DecodeError);
      }
      CommitKeepsContiguous(old(ctx.cells), tokens, [0]);
      nPast := nPast + |tokens| as I32;
      r := Handled;
    }

    /** The check at the top of a generation round: when the counter reached n_ctx - 1, shift
        the context and move the counter back by the number of discarded tokens. */
    method ShiftIfFull()
      requires Valid()
      modifies this, ctx
      ensures Valid() && outputs == old(outputs) && seen == old(seen)
      ensures ctx.cells == BeforeSample(old(ctx.cells), ctx.nCtx)
    {
      if nPast as int >= ctx.nCtx - 1 {
        var shifted := ApplyContextShifting(ctx, nPast);
        nPast := nPast - shifted.value;
      }
    }

    /** One generation round up to the decode: shift the context if full (ShiftIfFull),
        sample a token from the cache (the sampler records the draw), and decode it alone at
        the counter's position, advancing the counter by one. */
    method SampleNext(oracle: Oracle) returns (decoded: bool, token: LlamaToken)
      requires Valid()
      modifies this, ctx, smallBatch
      ensures Valid() && outputs == old(outputs)
      ensures var cache := BeforeSample(old(ctx.cells), ctx.nCtx);
        token == oracle.sample(sampler, old(seen), cache) && seen == old(seen) + [cache] &&
        (decoded <==> |cache| < ctx.nCtx) &&
        ctx.cells == if decoded then cache + [Cell(token, |cache|)] else cache
      ensures !decoded ==> ctx.nCtx < 2
      ensures ctx.nCtx >= 3 && old(nPast) as int <= ctx.nCtx - 1 ==> nPast as int <= ctx.nCtx - 1
    {
      ShiftIfFull();
      token := oracle.sample(sampler, seen, ctx.cells);
      seen := seen + [ctx.cells];
      smallBatch.Clear();
      var added := smallBatch.Add(token, nPast as int, [0], true);
      ghost var cache := ctx.cells;
      assert smallBatch.entries == SequenceEntries([token], |cache|, [0]);
      decoded := ctx.Decode(smallBatch);
      if decoded {
        CommitKeepsContiguous(cache, [token], [0]);
        assert CellsOf(smallBatch.entries) == [Cell(token, |cache|)];
        nPast := nPast + 1;
      }
    }

    /** The rest of a generation round after a token was sampled and committed: an
        end-of-generation token stops the loop unemitted; any other token is emitted (appended
        to the response and sent) and stops the loop when the response before it already
        contained a stop string. */
    method EmitToken(oracle: Oracle, token: LlamaToken, response: string, ghost emitted: seq<LLMOutput>,
                     ghost pieces: seq<string>, ghost sampled: seq<LlamaToken>)
      returns (stop: bool, newResponse: string, ghost newPieces: seq<string>, ghost eogEnd: bool)
      requires Generated(oracle, stopTokens, pieces, sampled, false, false)
      requires response == Join(pieces) && outputs == emitted + TokenEvents(pieces)
      modifies this
      ensures nPast == old(nPast) && seen == old(seen)
      ensures newResponse == Join(newPieces) && outputs == emitted + TokenEvents(newPieces)
      ensures Generated(oracle, stopTokens, newPieces, sampled + [token], stop, eogEnd)
    {
      GeneratedStep(oracle, stopTokens, pieces, sampled, token);
      var outputString := oracle.tokenToStr(token);
      var hasStopTokens := ContainsAny(response, stopTokens);
      var hasEog := oracle.isEogToken(token);
      newResponse, newPieces := response, pieces;
      if !hasEog {
        JoinSnoc(pieces, outputString);
        TokenEventsSnoc(pieces, outputString);
        newResponse := response + outputString;
        outputs := outputs + [Token(outputString)];
        newPieces := pieces + [outputString];
      }
      stop := hasEog || hasStopTokens;
      eogEnd := hasEog;
    }

    /** The generation loop's state after the rounds that committed `sampled`, from the cache
        `cells`, the sampler's history `seen0` and the outputs `out0`: the response is the
        concatenation of the emitted pieces, one Token was sent per piece, the loop's record
        holds, each token was drawn by the sampler on its round's cache, and the cache and the
        sampler's history are those the rounds left. */
    ghost predicate Generating(oracle: Oracle, cells: seq<Cell>, seen0: seq<seq<Cell>>, out0: seq<LLMOutput>,
                               response: string, pieces: seq<string>, sampled: seq<LlamaToken>, stop: bool, eogEnd: bool)
      reads this, ctx
    {
      response == Join(pieces) && outputs == out0 + TokenEvents(pieces) &&
      Generated(oracle, stopTokens, pieces, sampled, stop, eogEnd) &&
      Drawn(oracle, sampler, seen0, cells, ctx.nCtx, sampled) &&
      ctx.cells == CacheAfter(cells, sampled, ctx.nCtx) && seen == SeenAfter(seen0, cells, sampled, ctx.nCtx)
    }

    /** One round of the generation loop: sample and commit a token (SampleNext), then emit
        it or stop (EmitToken). A failed decode changes nothing but the shift and the
        sampler's history. */
    method GenerateRound(oracle: Oracle, ghost cells: seq<Cell>, ghost seen0: seq<seq<Cell>>, ghost out0: seq<LLMOutput>,
                         response: string, ghost pieces: seq<string>, ghost sampled: seq<LlamaToken>)
      returns (decoded: bool, stop: bool, newResponse: string, ghost newPieces: seq<string>,
               ghost newSampled: seq<LlamaToken>, ghost eogEnd: bool)
      requires Valid() && Generating(oracle, cells, seen0, out0, response, pieces, sampled, false, false)
      modifies this, ctx, smallBatch
      ensures Valid()
      ensures decoded ==> Generating(oracle, cells, seen0, out0, newResponse, newPieces, newSampled, stop, eogEnd)
      ensures decoded ==> |newSampled| == |sampled| + 1
      ensures !decoded ==>
        ctx.nCtx < 2 && outputs == old(outputs) && !stop && !eogEnd &&
        newResponse == response && newPieces == pieces && newSampled == sampled &&
        ctx.cells == BeforeSample(CacheAfter(cells, sampled, ctx.nCtx), ctx.nCtx) &&
        seen == SeenAfter(seen0, cells, sampled, ctx.nCtx) + [ctx.cells]
      ensures ctx.nCtx >= 3 && old(nPast) as int <= ctx.nCtx - 1 ==> nPast as int <= ctx.nCtx - 1
    {
      var token;
      decoded, token := SampleNext(oracle);
      DrawnStep(oracle, sampler, seen0, cells, ctx.nCtx, sampled, token);
      stop, newResponse, newPieces, newSampled, eogEnd := false, response, pieces, sampled, false;
      if decoded {
        newSampled := sampled + [token];
        assert ctx.cells == CacheAfter(cells, newSampled, ctx.nCtx);
        assert seen == SeenAfter(seen0, cells, newSampled, ctx.nCtx);
        assert Drawn(oracle, sampler, seen0, cells, ctx.nCtx, newSampled);
        stop, newResponse, newPieces, eogEnd := EmitToken(oracle, token, response, out0, pieces, sampled);
      }
    }

    /** The loop of the generation command: rounds (GenerateRound) until one stops the loop
        (`Handled`), `fuel` rounds have run (`FuelExhausted`) or a decode fails. It ends with
        the loop's record; after a failed decode, with the cache as the last shift left it. */
    method GenerateRounds(oracle: Oracle, fuel: nat)
      returns (r: Handled, response: string, ghost pieces: seq<string>, ghost sampled: seq<LlamaToken>, ghost eogEnd: bool)
      requires Valid()
      modifies this, ctx, smallBatch
      ensures Valid()
      ensures r == Handled || r == FuelExhausted || r == Failed(DecodeError)
      ensures r == FuelExhausted ==> |sampled| == fuel
      ensures !r.Failed? ==> Generating(oracle, old(ctx.cells), old(seen), old(outputs), response, pieces, sampled, r == Handled, eogEnd)
      ensures r.Failed? ==>
        ctx.nCtx < 2 && outputs == old(outputs) + TokenEvents(pieces) &&
        Generated(oracle, stopTokens, pieces, sampled, false, eogEnd) &&
        Drawn(oracle, sampler, old(seen), old(ctx.cells), ctx.nCtx, sampled) &&
        ctx.cells == BeforeSample(CacheAfter(old(ctx.cells), sampled, ctx.nCtx), ctx.nCtx) &&
        seen == SeenAfter(old(seen), old(ctx.cells), sampled, ctx.nCtx) + [ctx.cells]
      ensures ctx.nCtx >= 3 && old(nPast) as int <= ctx.nCtx - 1 ==> nPast as int <= ctx.nCtx - 1
    {
      response := "";
      pieces, sampled, eogEnd := [], [], false;
      ghost var cells, seen0 := ctx.cells, seen;
      ghost var bounded := ctx.nCtx >= 3 && nPast as int <= ctx.nCtx - 1;
      var remaining := fuel;
      var stop := false;
      while !stop
        invariant Valid() && Generating(oracle, cells, seen0, old(outputs), response, pieces, sampled, stop, eogEnd)
        invariant bounded ==> nPast as int <= ctx.nCtx - 1
        invariant |sampled| + remaining == fuel
        decreases remaining
      {
        if remaining == 0 {
          return FuelExhausted, response, pieces, sampled, eogEnd;
        }
        remaining := remaining - 1;
        var decoded;
        decoded, stop, response, pieces, sampled, eogEnd :=
          GenerateRound(oracle, cells, seen0, old(outputs), response, pieces, sampled);
        if !decoded {
          return Failed(DecodeError), response, pieces, sampled, eogEnd;
        }
      }
      r := Handled;
    }

    /** The generation command (`write_until_done`): the rounds (GenerateRounds), then one
        Done with the whole response when they completed. `pieces` are the emitted texts,
        `sampled` the committed tokens. */
    method WriteUntilDone(oracle: Oracle, fuel: nat)
      returns (r: Handled, ghost pieces: seq<string>, ghost sampled: seq<LlamaToken>, ghost eogEnd: bool)
      requires Valid()
      modifies this, ctx, smallBatch
      ensures Valid() && GeneratedFrom(oracle, fuel, old(ctx.cells), old(seen), old(outputs), r, pieces, sampled, eogEnd)
      ensures ctx.nCtx >= 3 && old(nPast) as int <= ctx.nCtx - 1 ==> nPast as int <= ctx.nCtx - 1
    {
      var response;
      r, response, pieces, sampled, eogEnd := GenerateRounds(oracle, fuel);
      if r == Handled {
        outputs := outputs + [Done(response)];
      }
    }
  }

  // ---------------------------------------------------------------- the worker loop

  /** The number of Done events among the outputs. */
  function CountDone(events: seq<LLMOutput>): (n: nat)
    ensures n <= |events|
    ensures n == 0 <==> forall i :: 0 <= i < |events| ==> !events[i].Done?
  {
    if events == [] then 0
    else CountDone(events[..|events| - 1]) + (if events[|events| - 1].Done? then 1 else 0)
  }

  /** The number of generation commands among the messages. */
  function CountWrites(msgs: seq<WorkerMsg>): (n: nat)
    ensures n <= |msgs|
  {
    if msgs == [] then 0
    else CountWrites(msgs[..|msgs| - 1]) + (if msgs[|msgs| - 1].WriteUntilDone? then 1 else 0)
  }

  lemma {:induction false} CountDoneAppend(a: seq<LLMOutput>, b: seq<LLMOutput>)
    ensures CountDone(a + b) == CountDone(a) + CountDone(b)
    decreases |b|
  {
    if b == [] {
      assert a + b == a;
    } else {
      assert (a + b)[..|a + b| - 1] == a + b[..|b| - 1];
      assert (a + b)[|a + b| - 1] == b[|b| - 1];
      CountDoneAppend(a, b[..|b| - 1]);
    }
  }

  /** One command's outputs: a completed generation adds one Done, nothing else adds any,
      and no command adds a FatalErr. */
  lemma CountAfterCommand(before: seq<LLMOutput>, msg: WorkerMsg, pieces: seq<string>, completed: bool)
    ensures var after := before + CommandEvents(msg, pieces, completed);
      CountDone(after) == CountDone(before) + (if completed && msg.WriteUntilDone? then 1 else 0) &&
      ((forall i :: 0 <= i < |before| ==> !before[i].FatalErr?) ==> forall i :: 0 <= i < |after| ==> !after[i].FatalErr?)
  {
    if msg.WriteUntilDone? {
      assert CountDone(TokenEvents(pieces)) == 0;
      CountDoneAppend(before, TokenEvents(pieces));
      if completed {
        CountDoneAppend(before + TokenEvents(pieces), [Done(Join(pieces))]);
        assert before + CommandEvents(msg, pieces, completed) == before + TokenEvents(pieces) + [Done(Join(pieces))];
      } else {
        assert before + CommandEvents(msg, pieces, completed) == before + TokenEvents(pieces);
      }
    } else {
      assert before + CommandEvents(msg, pieces, completed) == before;
    }
  }

  /** Everything the worker sends for the completed commands `msgs[..|pieces|]`, in order;
      `pieces[i]` are the texts command i emitted. */
  function EventsOf(msgs: seq<WorkerMsg>, pieces: seq<seq<string>>): (r: seq<LLMOutput>)
    requires |pieces| <= |msgs|
  {
    if pieces == [] then []
    else
      var n := |pieces| - 1;
      EventsOf(msgs, pieces[..n]) + CommandEvents(msgs[n], pieces[n], true)
  }

  /** The worker's outputs after the completed commands `msgs[..|pieces|]`: their events in
      order, no FatalErr, and one Done per generation command. */
  predicate SentFor(msgs: seq<WorkerMsg>, pieces: seq<seq<string>>, outputs: seq<LLMOutput>)
    requires |pieces| <= |msgs|
  {
    outputs == EventsOf(msgs, pieces) &&
    (forall i :: 0 <= i < |outputs| ==> !outputs[i].FatalErr?) &&
    CountDone(outputs) == CountWrites(msgs[..|pieces|])
  }

  /** Running the next command keeps the record when it completes; when it fails, its partial
      events add no Done and no FatalErr. */
  lemma SentForStep(msgs: seq<WorkerMsg>, pieces: seq<seq<string>>, outputs: seq<LLMOutput>, emitted: seq<string>, completed: bool)
    requires |pieces| < |msgs| && SentFor(msgs, pieces, outputs)
    ensures var after := outputs + CommandEvents(msgs[|pieces|], emitted, completed);
      (completed ==> SentFor(msgs, pieces + [emitted], after)) &&
      (!completed ==>
        (forall i :: 0 <= i < |after| ==> !after[i].FatalErr?) && CountDone(after) == CountWrites(msgs[..|pieces|]))
  {
    var n := |pieces|;
    CountAfterCommand(outputs, msgs[n], emitted, completed);
    assert (pieces + [emitted])[..n] == pieces;
    assert msgs[..n + 1][..n] == msgs[..n];
  }

  /** The first `n` commands of `msgs` were handled one after another, each completing:
      command i took the worker from `memories[i]` to `memories[i + 1]` doing `steps[i]`. */
  predicate HandledRun(oracle: Oracle, sampler: Sampler, stops: seq<string>, nCtx: nat, fuel: nat,
                       msgs: seq<WorkerMsg>, memories: seq<Memory>, steps: seq<Step>, n: nat)
  {
    n <= |msgs| && |memories| == n + 1 && n <= |steps| &&
    forall i :: 0 <= i < n ==> Handles(oracle, sampler, stops, nCtx, fuel, msgs[i], memories[i], Handled, steps[i], memories[i + 1])
  }

  /** The worker's record after `n` completed commands: the run of memories and steps from an
      empty cache and an unused sampler, the texts each command emitted, and the outputs sent. */
  predicate Served(oracle: Oracle, sampler: Sampler, stops: seq<string>, nCtx: nat, fuel: nat, msgs: seq<WorkerMsg>,
                   n: nat, pieces: seq<seq<string>>, memories: seq<Memory>, steps: seq<Step>, outputs: seq<LLMOutput>)
  {
    HandledRun(oracle, sampler, stops, nCtx, fuel, msgs, memories, steps, n) &&
    |pieces| == n && |steps| == n && memories[0] == Memory([], []) &&
    (forall i :: 0 <= i < n ==> steps[i].pieces == pieces[i]) &&
    SentFor(msgs, pieces, outputs)
  }

  /** The record grows by one completed command. */
  lemma ServedStep(oracle: Oracle, sampler: Sampler, stops: seq<string>, nCtx: nat, fuel: nat, msgs: seq<WorkerMsg>,
                   n: nat, pieces: seq<seq<string>>, memories: seq<Memory>, steps: seq<Step>, outputs: seq<LLMOutput>,
                   step: Step, after: Memory)
    requires Served(oracle, sampler, stops, nCtx, fuel, msgs, n, pieces, memories, steps, outputs) && n < |msgs|
    requires Handles(oracle, sampler, stops, nCtx, fuel, msgs[n], memories[n], Handled, step, after)
    ensures Served(oracle, sampler, stops, nCtx, fuel, msgs, n + 1, pieces + [step.pieces], memories + [after], steps + [step],
                   outputs + CommandEvents(msgs[n], step.pieces, true))
  {
    SentForStep(msgs, pieces, outputs, step.pieces, true);
    var ms, ss := memories + [after], steps + [step];
    forall i | 0 <= i < n + 1
      ensures Handles(oracle, sampler, stops, nCtx, fuel, msgs[i], ms[i], Handled, ss[i], ms[i + 1])
    {
      if i < n {
        assert ms[i] == memories[i] && ms[i + 1] == memories[i + 1] && ss[i] == steps[i];
      }
    }
  }

  /** What the worker's record says when command `n` fails: the completed run, the failing
      command's own step, and the outputs ending with what it sent before failing. */
  lemma ServedFailed(oracle: Oracle, sampler: Sampler, stops: seq<string>, nCtx: nat, fuel: nat, msgs: seq<WorkerMsg>,
                     n: nat, pieces: seq<seq<string>>, memories: seq<Memory>, steps: seq<Step>, outputs: seq<LLMOutput>,
                     r: Handled, step: Step, after: Memory)
    requires Served(oracle, sampler, stops, nCtx, fuel, msgs, n, pieces, memories, steps, outputs) && n < |msgs|
    requires Handles(oracle, sampler, stops, nCtx, fuel, msgs[n], memories[n], r, step, after)
    ensures var ps, ms, ss := pieces + [step.pieces], memories + [after], steps + [step];
      var out := outputs + CommandEvents(msgs[n], step.pieces, false);
      |ss| == |ps| == n + 1 && |ms| == n + 2 && ms[0] == Memory([], []) &&
      (forall i :: 0 <= i < |ps| ==> ss[i].pieces == ps[i]) &&
      HandledRun(oracle, sampler, stops, nCtx, fuel, msgs, ms[..n + 1], ss, n) &&
      Handles(oracle, sampler, stops, nCtx, fuel, msgs[n], ms[n], r, ss[n], ms[n + 1]) &&
      out == EventsOf(msgs, ps[..n]) + CommandEvents(msgs[n], ps[n], false) &&
      (forall i :: 0 <= i < |out| ==> !out[i].FatalErr?) && CountDone(out) == CountWrites(msgs[..n])
  {
    SentForStep(msgs, pieces, outputs, step.pieces, false);
    var ps, ms, ss := pieces + [step.pieces], memories + [after], steps + [step];
    assert ps[..n] == pieces;
    assert ms[..n + 1] == memories;
    forall i | 0 <= i < n
      ensures Handles(oracle, sampler, stops, nCtx, fuel, msgs[i], memories[i], Handled, ss[i], memories[i + 1])
    {
      assert ss[i] == steps[i];
    }
  }

  /** `completion_worker_actor`: set up the worker state (context size capped by the model's
      training context, an empty cache, a sampler chain that has drawn nothing), then handle
      the commands in arrival order until the channel closes. Each command is `handle_msg` on
      the state the previous one left (`memories`, `steps`); the first failing command ends
      the worker with its error; no FatalErr is ever sent. The outputs are the completed
      commands' events in order, then what the failing command sent before failing;
      `pieces[i]` are the texts command i emitted. */
  method CompletionWorkerActor(model: Model, config: Sampling.SamplerConfig, requestedNCtx: U32,
                               stopTokens: seq<string>, msgs: seq<WorkerMsg>, oracle: Oracle, fuel: nat)
    returns (r: Handled, processed: nat, outputs: seq<LLMOutput>, ghost pieces: seq<seq<string>>,
             ghost memories: seq<Memory>, ghost steps: seq<Step>)
    requires model.nCtxTrain as int <= I32_MAX
    ensures processed <= |msgs|
    ensures r == Handled <==> processed == |msgs|
    ensures |steps| == |pieces| && forall i :: 0 <= i < |pieces| ==> steps[i].pieces == pieces[i]
    ensures processed < |memories| && memories[0] == Memory([], [])
    ensures HandledRun(oracle, Sampling.MakeSampler(model, config), stopTokens, ContextSize(requestedNCtx, model.nCtxTrain),
                       fuel, msgs, memories[..processed + 1], steps, processed)
    ensures r == Handled ==> |pieces| == processed && outputs == EventsOf(msgs, pieces)
    ensures r != Handled ==>
      |pieces| == processed + 1 && |memories| == processed + 2 && FailsWith(msgs[processed], r, oracle.lockPoisoned) &&
      Handles(oracle, Sampling.MakeSampler(model, config), stopTokens, ContextSize(requestedNCtx, model.nCtxTrain), fuel,
              msgs[processed], memories[processed], r, steps[processed], memories[processed + 1]) &&
      outputs == EventsOf(msgs, pieces[..processed]) + CommandEvents(msgs[processed], pieces[processed], false)
    ensures forall i :: 0 <= i < |outputs| ==> !outputs[i].FatalErr?
    ensures CountDone(outputs) == CountWrites(msgs[..processed])
    ensures oracle.lockPoisoned && msgs != [] ==> r == Failed(GilPoisonError) && processed == 0 && outputs == []
  {
    var state := new WorkerState(model, config, requestedNCtx, stopTokens);
    ghost var sampler, nCtx := state.sampler, state.ctx.nCtx;
    processed, pieces, memories, steps := 0, [], [Memory([], [])], [];
    while processed < |msgs|
      invariant state.Valid() && fresh(state.ctx) && fresh(state.bigBatch) && fresh(state.smallBatch)
      invariant state.sampler == sampler && state.stopTokens == stopTokens && state.ctx.nCtx == nCtx
      invariant processed <= |msgs|
      invariant Served(oracle, sampler, stopTokens, nCtx, fuel, msgs, processed, pieces, memories, steps, state.outputs)
      invariant memories[processed] == Memory(state.ctx.cells, state.seen)
      invariant oracle.lockPoisoned ==> processed == 0 && state.outputs == []
    {
      ghost var before := state.outputs;
      var handled, step := state.HandleMsg(msgs[processed], oracle, fuel);
      ghost var after := Memory(state.ctx.cells, state.seen);
      if handled != Handled {
        ServedFailed(oracle, sampler, stopTokens, nCtx, fuel, msgs, processed, pieces, memories, steps, before, handled, step, after);
        return handled, processed, state.outputs, pieces + [step.pieces], memories + [after], steps + [step];
      }
      ServedStep(oracle, sampler, stopTokens, nCtx, fuel, msgs, processed, pieces, memories, steps, before, step, after);
      processed, pieces, memories, steps := processed + 1, pieces + [step.pieces], memories + [after], steps + [step];
    }
    assert msgs[..processed] == msgs;
    assert memories[..processed + 1] == memories;
    return Handled, processed, state.outputs, pieces, memories, steps;
  }

  // ---------------------------------------------------------------- the handle

  datatype SayError = TemplateError(error: ChatHistory.TemplateError) | SendError

  /** What one receive on the completion channel gives: an output, nothing (`recv` then
      blocks forever, because the handle itself holds a sender; `try_recv` reports the channel
      empty), or a panic while updating the chat state. */
  datatype Received = Received(out: LLMOutput) | Empty | RecvPanicked

  /** How waiting for a whole response ends. */
  datatype Response = Reply(text: string) | Fatal(error: WorkerError) | Blocked | ResponsePanicked

  /** The index of the first Done or FatalErr event, or the length when there is none. */
  function FirstTerminal(events: seq<LLMOutput>): (k: nat)
    ensures k <= |events|
    ensures forall i :: 0 <= i < k ==> events[i].Token?
    ensures k < |events| ==> !events[k].Token?
  {
    if events == [] || !events[0].Token? then 0 else 1 + FirstTerminal(events[1..])
  }

  /** What the worker sends for one completed generation is read back as exactly one response:
      the Done event after the streamed pieces, which carries their concatenation. */
  lemma {:induction false} GenerationReadBack(pieces: seq<string>, later: seq<LLMOutput>)
    ensures var events := TokenEvents(pieces) + [Done(Join(pieces))] + later;
      FirstTerminal(events) == |pieces| && events[|pieces|] == Done(Join(pieces))
    decreases |pieces|
  {
    var events := TokenEvents(pieces) + [Done(Join(pieces))] + later;
    if pieces != [] {
      var rest := TokenEvents(pieces[1..]) + [Done(Join(pieces))] + later;
      assert events[1..] == rest;
      FirstTerminalTokens(pieces[1..], [Done(Join(pieces))] + later);
      assert rest == TokenEvents(pieces[1..]) + ([Done(Join(pieces))] + later);
    }
  }

  lemma {:induction false} FirstTerminalTokens(pieces: seq<string>, tail: seq<LLMOutput>)
    requires tail != [] && !tail[0].Token?
    ensures FirstTerminal(TokenEvents(pieces) + tail) == |pieces|
    decreases |pieces|
  {
    if pieces != [] {
      assert (TokenEvents(pieces) + tail)[1..] == TokenEvents(pieces[1..]) + tail;
      FirstTerminalTokens(pieces[1..], tail);
    }
  }

  /** `LLMActorHandle`: the session's chat state, the command channel to the worker (`sent`)
      and the completion channel from it (`inbox`). The worker runs elsewhere. */
  class LLMActorHandle {
    const chatState: ChatHistory.ChatState
    const engine: ChatHistory.Engine
    var sent: seq<WorkerMsg>
    var inbox: seq<LLMOutput>

    ghost predicate Valid()
      reads this, chatState
    {
      chatState.Valid()
    }

    /** A handle with an empty chat over the model's chat template. */
    constructor (chatTemplate: string, engine: ChatHistory.Engine)
      ensures Valid() && fresh(chatState)
      ensures chatState.messages == [] && chatState.length == 0 && chatState.chatTemplate == chatTemplate
      ensures this.engine == engine && sent == [] && inbox == []
    {
      chatState := new ChatHistory.ChatState(chatTemplate);
      this.engine := engine;
      sent := [];
      inbox := [];
    }

    method WithSystemMessage(systemPrompt: string)
      requires Valid()
      modifies chatState
      ensures Valid()
      ensures chatState.messages == old(chatState.messages) + [ChatHistory.Message(ChatHistory.SYSTEM, systemPrompt)]
      ensures chatState.length == old(chatState.length)
    {
      chatState.AddMessage(ChatHistory.SYSTEM, systemPrompt);
    }

    /** `say`: add the user message, render the diff, and on success ask the worker to read
        the diff and then to generate. Sending fails when the worker is gone. */
    method Say(text: string, workerAlive: bool) returns (r: Outcome<(), SayError>)
      requires Valid()
      modifies this, chatState
      ensures Valid() && inbox == old(inbox)
      ensures chatState.appended == old(chatState.appended) + [ChatHistory.Message(ChatHistory.USER, text)]
      ensures var (out, history, length) := ChatHistory.RenderingDiff(engine, chatState.chatTemplate,
                old(chatState.messages) + [ChatHistory.Message(ChatHistory.USER, text)], old(chatState.length));
        chatState.messages == history && chatState.length == length &&
        (out.Panic? ==> r.Panic? && sent == old(sent)) &&
        (out.Failure? ==> r == Failure(TemplateError(out.error)) && sent == old(sent)) &&
        (out.Success? && !workerAlive ==> r == Failure(SendError) && sent == old(sent)) &&
        (out.Success? && workerAlive ==> r == Success(()) && sent == old(sent) + [ReadString(out.value), WriteUntilDone])
    {
      chatState.AddMessage(ChatHistory.USER, text);
      var diff := chatState.RenderDiff(engine);
      match diff
      case Panic =>
        return Panic;
      case Failure(e) =>
        return Failure(TemplateError(e));
      case Success(d) =>
        if !workerAlive {
          return Failure(SendError);
        }
        sent := sent + [ReadString(d)];
        sent := sent + [WriteUntilDone];
        return Success(());
    }

    /** `handle_llmoutput`: a Done response is recorded as the assistant's message and the
        bookkeeping length moves past it; a failure to render there is a panic. */
    method HandleLLMOutput(out: LLMOutput) returns (panicked: bool)
      requires Valid()
      modifies chatState
      ensures Valid()
      ensures !out.Done? ==>
        !panicked && chatState.messages == old(chatState.messages) && chatState.length == old(chatState.length)
      ensures out.Done? ==>
        var (rendered, history, length) := ChatHistory.RenderingDiff(engine, chatState.chatTemplate,
          old(chatState.messages) + [ChatHistory.Message(ChatHistory.ASSISTANT, out.response)], old(chatState.length));
        chatState.messages == history && chatState.length == length && (panicked <==> !rendered.Success?)
    {
      panicked := false;
      if out.Done? {
        chatState.AddMessage(ChatHistory.ASSISTANT, out.response);
        var rendered := chatState.RenderDiff(engine);
        panicked := !rendered.Success?;
      }
    }

    /** `recv`: take the oldest output and let the chat state see it. */
    method Recv() returns (r: Received)
      requires Valid()
      modifies this, chatState
      ensures Valid() && sent == old(sent)
      ensures old(inbox) == [] ==>
        r == Empty && inbox == [] && chatState.messages == old(chatState.messages) && chatState.length == old(chatState.length)
      ensures old(inbox) != [] ==> inbox == old(inbox)[1..] && (r == Received(old(inbox)[0]) || r == RecvPanicked)
      ensures old(inbox) != [] && !old(inbox)[0].Done? ==>
        r == Received(old(inbox)[0]) && chatState.messages == old(chatState.messages) && chatState.length == old(chatState.length)
      ensures old(inbox) != [] && old(inbox)[0].Done? ==>
        var (rendered, history, length) := ChatHistory.RenderingDiff(engine, chatState.chatTemplate,
          old(chatState.messages) + [ChatHistory.Message(ChatHistory.ASSISTANT, old(inbox)[0].response)], old(chatState.length));
        chatState.messages == history && chatState.length == length &&
        r == if rendered.Success? then Received(old(inbox)[0]) else RecvPanicked
    {
      if inbox == [] {
        return Empty;
      }
      var out := inbox[0];
      inbox := inbox[1..];
      var panicked := HandleLLMOutput(out);
      r := if panicked then RecvPanicked else Received(out);
    }

    /** `try_recv`: as `recv`, but an empty channel is reported rather than waited on. */
    method TryRecv() returns (r: Received)
      requires Valid()
      modifies this, chatState
      ensures Valid() && sent == old(sent)
      ensures old(inbox) == [] ==>
        r == Empty && inbox == [] && chatState.messages == old(chatState.messages) && chatState.length == old(chatState.length)
      ensures old(inbox) != [] ==> inbox == old(inbox)[1..] && (r == Received(old(inbox)[0]) || r == RecvPanicked)
      ensures old(inbox) != [] && !old(inbox)[0].Done? ==>
        r == Received(old(inbox)[0]) && chatState.messages == old(chatState.messages) && chatState.length == old(chatState.length)
      ensures old(inbox) != [] && old(inbox)[0].Done? ==>
        var (rendered, history, length) := ChatHistory.RenderingDiff(engine, chatState.chatTemplate,
          old(chatState.messages) + [ChatHistory.Message(ChatHistory.ASSISTANT, old(inbox)[0].response)], old(chatState.length));
        chatState.messages == history && chatState.length == length &&
        r == if rendered.Success? then Received(old(inbox)[0]) else RecvPanicked
    {
      r := Recv();
    }

    /** `get_response_blocking`: receive until a Done or a FatalErr arrives; the streamed pieces
        before it are consumed and ignored. With no terminal event queued, it waits forever. */
    method GetResponseBlocking() returns (r: Response)
      requires Valid()
      modifies this, chatState
      ensures Valid() && sent == old(sent)
      ensures var k := FirstTerminal(old(inbox));
        (k == |old(inbox)| ==>
          r == Blocked && inbox == [] &&
          chatState.messages == old(chatState.messages) && chatState.length == old(chatState.length)) &&
        (k < |old(inbox)| ==> inbox == old(inbox)[k + 1..]) &&
        (k < |old(inbox)| && old(inbox)[k].FatalErr? ==>
          r == Fatal(old(inbox)[k].error) &&
          chatState.messages == old(chatState.messages) && chatState.length == old(chatState.length)) &&
        (k < |old(inbox)| && old(inbox)[k].Done? ==>
          var (rendered, history, length) := ChatHistory.RenderingDiff(engine, chatState.chatTemplate,
            old(chatState.messages) + [ChatHistory.Message(ChatHistory.ASSISTANT, old(inbox)[k].response)], old(chatState.length));
          chatState.messages == history && chatState.length == length &&
          r == if rendered.Success? then Reply(old(inbox)[k].response) else ResponsePanicked)
    {
      ghost var k := FirstTerminal(inbox);
      ghost var i := 0;
      while true
        invariant Valid() && sent == old(sent)
        invariant 0 <= i <= k && inbox == old(inbox)[i..]
        invariant chatState.messages == old(chatState.messages) && chatState.length == old(chatState.length)
        decreases |inbox|
      {
        var received := Recv();
        match received
        case Empty =>
          return Blocked;
        case RecvPanicked =>
          return ResponsePanicked;
        case Received(out) =>
          match out
          case Done(response) =>
            return Reply(response);
          case FatalErr(error) =>
            return Fatal(error);
          case Token(_) =>
            i := i + 1;
      }
    }
  }
}
