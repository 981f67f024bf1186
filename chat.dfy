/** The chat and embedding drivers (nobodywho/core/src/chat.rs): each user message is one turn
    over the chat state, whose response stream is reduced by a fold to a full response; the
    worker behind the stream is abstract. */
module ChatDriver {
  import opened Base
  import opened ChatHistory

  /** The worker's error while generating, by its debug text. */
  datatype GenerateError = GenerateError(description: string)

  /** One item of a response stream: a streamed token, the whole response, or an error. */
  datatype StreamItem = StreamToken(token: string) | StreamDone(response: string) | StreamErr(error: GenerateError)

  /** The side effects on the output sink, in the order they happen. */
  datatype Emission = EmitToken(token: string) | EmitResponse(response: string) | EmitError(error: GenerateError)

  datatype ChatLoopError = NoResponseError | GenerateResponseError(error: GenerateError)

  /** The fold's accumulator together with the effects emitted so far. */
  datatype FoldState = FoldState(result: Option<Result<string, GenerateError>>, effects: seq<Emission>)

  /** What the fold's closure returns for one item, whatever it was given. */
  function Classify(item: StreamItem): (r: Option<Result<string, GenerateError>>) {
    match item
    case StreamToken(_) => None
    case StreamErr(e) => Some(Err(e))
    case StreamDone(response) => Some(Ok(response))
  }

  /** What the fold's closure emits for one item. */
  function Emitted(item: StreamItem): (r: seq<Emission>) {
    match item
    case StreamToken(t) => [EmitToken(t)]
    case StreamErr(e) => [EmitError(e)]
    case StreamDone(_) => []
  }

  /** One step of the fold: the closure ignores the accumulator. */
  function Step(acc: FoldState, item: StreamItem): (r: FoldState) {
    FoldState(Classify(item), acc.effects + Emitted(item))
  }

  /** The fold over the stream, front to back. */
  function FoldStream(acc: FoldState, stream: seq<StreamItem>): (r: FoldState)
    decreases |stream|
  {
    if stream == [] then acc else FoldStream(Step(acc, stream[0]), stream[1..])
  }

  /** Everything the items emit, in stream order. */
  function EmittedBy(stream: seq<StreamItem>): (r: seq<Emission>)
    decreases |stream|
  {
    if stream == [] then [] else Emitted(stream[0]) + EmittedBy(stream[1..])
  }

  /** The fold's result depends only on the last item: an empty stream keeps the initial
      value, a last Token gives None, a last Done gives the response, a last error the error. */
  lemma {:induction false} FoldResultIsLastItem(acc: FoldState, stream: seq<StreamItem>)
    ensures FoldStream(acc, stream).result ==
      if stream == [] then acc.result else Classify(stream[|stream| - 1])
    decreases |stream|
  {
    if stream != [] {
      FoldResultIsLastItem(Step(acc, stream[0]), stream[1..]);
      if |stream| > 1 {
        assert stream[1..][|stream| - 2] == stream[|stream| - 1];
      }
    }
  }

  /** The fold emits exactly what the items emit, in stream order, after what was emitted before. */
  lemma {:induction false} FoldEffects(acc: FoldState, stream: seq<StreamItem>)
    ensures FoldStream(acc, stream).effects == acc.effects + EmittedBy(stream)
    decreases |stream|
  {
    if stream != [] {
      FoldEffects(Step(acc, stream[0]), stream[1..]);
      assert acc.effects + Emitted(stream[0]) + EmittedBy(stream[1..]) ==
        acc.effects + (Emitted(stream[0]) + EmittedBy(stream[1..]));
    }
  }

  lemma {:induction false} EmittedByConcat(s: seq<StreamItem>, t: seq<StreamItem>)
    ensures EmittedBy(s + t) == EmittedBy(s) + EmittedBy(t)
    decreases |s|
  {
    if s == [] {
      assert s + t == t;
    } else {
      assert (s + t)[1..] == s[1..] + t;
      EmittedByConcat(s[1..], t);
    }
  }

  /** An item's effects appear at its place in the stream, between those of the items before
      and after it. The three per-kind clauses unfold `Emitted` for each kind of item, for
      callers; the counts are in EmittedTokens, EmittedErrors and EmittedNoResponse. */
  lemma StreamEffects(before: seq<StreamItem>, item: StreamItem, after: seq<StreamItem>)
    ensures EmittedBy(before + [item] + after) == EmittedBy(before) + Emitted(item) + EmittedBy(after)
    ensures item.StreamToken? ==>
      EmittedBy(before + [item] + after) == EmittedBy(before) + [EmitToken(item.token)] + EmittedBy(after)
    ensures item.StreamErr? ==>
      EmittedBy(before + [item] + after) == EmittedBy(before) + [EmitError(item.error)] + EmittedBy(after)
    ensures item.StreamDone? ==> EmittedBy(before + [item] + after) == EmittedBy(before) + EmittedBy(after)
  {
    var front, back := EmittedBy(before), EmittedBy(after);
    assert EmittedBy(before + [item] + after) == front + Emitted(item) + back by {
      EmittedByConcat(before + [item], after);
      EmittedByConcat(before, [item]);
      assert EmittedBy([item]) == Emitted(item) by {
        assert [item][1..] == [];
      }
    }
    if item.StreamDone? {
      assert front + [] + back == front + back;
    }
  }

  /** Each token text is emitted as often as the stream carries it. */
  lemma {:induction false} EmittedTokens(stream: seq<StreamItem>, token: string)
    ensures multiset(EmittedBy(stream))[EmitToken(token)] == multiset(stream)[StreamToken(token)]
    decreases |stream|
  {
    if stream != [] {
      var head, rest := stream[0], stream[1..];
      EmittedTokens(rest, token);
      assert stream == [head] + rest;
      assert multiset(stream) == multiset([head]) + multiset(rest);
      assert multiset(EmittedBy(stream)) == multiset(Emitted(head)) + multiset(EmittedBy(rest));
      assert multiset(Emitted(head))[EmitToken(token)] == multiset([head])[StreamToken(token)] by {
        if head.StreamToken? { assert multiset(Emitted(head)) == multiset{EmitToken(head.token)}; }
      }
    }
  }

  /** Each error is emitted as often as the stream carries it. */
  lemma {:induction false} EmittedErrors(stream: seq<StreamItem>, error: GenerateError)
    ensures multiset(EmittedBy(stream))[EmitError(error)] == multiset(stream)[StreamErr(error)]
    decreases |stream|
  {
    if stream != [] {
      var head, rest := stream[0], stream[1..];
      EmittedErrors(rest, error);
      assert stream == [head] + rest;
      assert multiset(stream) == multiset([head]) + multiset(rest);
      assert multiset(EmittedBy(stream)) == multiset(Emitted(head)) + multiset(EmittedBy(rest));
      assert multiset(Emitted(head))[EmitError(error)] == multiset([head])[StreamErr(error)] by {
        if head.StreamErr? { assert multiset(Emitted(head)) == multiset{EmitError(head.error)}; }
      }
    }
  }

  /** The fold itself never emits a response; the chat loop does, after the fold. */
  lemma {:induction false} EmittedNoResponse(stream: seq<StreamItem>)
    ensures forall i :: 0 <= i < |EmittedBy(stream)| ==> !EmittedBy(stream)[i].EmitResponse?
    decreases |stream|
  {
    if stream != [] {
      EmittedNoResponse(stream[1..]);
    }
  }

  const EMPTY_FOLD := FoldState(None, [])

  /** How turn `i` ends when the worker answers `prompt` with its stream. */
  function TurnResult(generate: (nat, string) -> seq<StreamItem>, i: nat, prompt: string): (r: Option<Result<string, GenerateError>>) {
    FoldStream(EMPTY_FOLD, generate(i, prompt)).result
  }

  /** Turn i was answered with `responses[i]` by the worker's stream for `prompts[i]`, for
      every response. */
  predicate Answered(generate: (nat, string) -> seq<StreamItem>, prompts: seq<string>, responses: seq<string>)
    requires |responses| <= |prompts|
  {
    responses == [] ||
    (Answered(generate, prompts, responses[..|responses| - 1]) &&
     TurnResult(generate, |responses| - 1, prompts[|responses| - 1]) == Some(Ok(responses[|responses| - 1])))
  }

  /** Each emitted response is the Done of its own turn's stream. */
  lemma {:induction false} AnsweredTurns(generate: (nat, string) -> seq<StreamItem>, prompts: seq<string>, responses: seq<string>)
    requires |responses| <= |prompts| && Answered(generate, prompts, responses)
    ensures forall i :: 0 <= i < |responses| ==> TurnResult(generate, i, prompts[i]) == Some(Ok(responses[i]))
    decreases |responses|
  {
    if responses != [] {
      var front := responses[..|responses| - 1];
      AnsweredTurns(generate, prompts, front);
      forall i | 0 <= i < |responses|
        ensures TurnResult(generate, i, prompts[i]) == Some(Ok(responses[i]))
      {
        if i < |front| {
          assert responses[i] == front[i];
        }
      }
    }
  }

  lemma {:induction false} AnsweredExtend(generate: (nat, string) -> seq<StreamItem>, prompts: seq<string>, prompt: string, responses: seq<string>)
    requires |responses| <= |prompts| && Answered(generate, prompts, responses)
    ensures Answered(generate, prompts + [prompt], responses)
    decreases |responses|
  {
    if responses != [] {
      AnsweredExtend(generate, prompts, prompt, responses[..|responses| - 1]);
      assert (prompts + [prompt])[|responses| - 1] == prompts[|responses| - 1];
    }
  }

  /** The messages a run of turns adds after the system message: per started turn the user's
      message and, once the turn produced one, the assistant's response. */
  function Dialogue(says: seq<string>, responses: seq<string>, turns: nat): (r: seq<Message>)
    requires turns <= |says|
    ensures |r| == turns + (if |responses| < turns then |responses| else turns)
  {
    if turns == 0 then []
    else
      Dialogue(says, responses, turns - 1) + [Message(USER, says[turns - 1])] +
      (if turns - 1 < |responses| then [Message(ASSISTANT, responses[turns - 1])] else [])
  }

  /** The effects of the turns that sent a prompt: the fold's effects over the turn's stream,
      then the response when the turn produced one. */
  function TurnEffects(generate: (nat, string) -> seq<StreamItem>, prompts: seq<string>, responses: seq<string>): (r: seq<Emission>) {
    if prompts == [] then []
    else
      var n := |prompts| - 1;
      TurnEffects(generate, prompts[..n], responses) + FoldStream(EMPTY_FOLD, generate(n, prompts[n])).effects +
      (if n < |responses| then [EmitResponse(responses[n])] else [])
  }

  lemma {:induction false} TurnEffectsIgnoresLaterResponses(generate: (nat, string) -> seq<StreamItem>, prompts: seq<string>, responses: seq<string>, response: string)
    requires |prompts| <= |responses|
    ensures TurnEffects(generate, prompts, responses + [response]) == TurnEffects(generate, prompts, responses)
    decreases |prompts|
  {
    if prompts != [] {
      TurnEffectsIgnoresLaterResponses(generate, prompts[..|prompts| - 1], responses, response);
      assert (responses + [response])[|prompts| - 1] == responses[|prompts| - 1];
    }
  }

  /** Starting a turn adds the user's message; answering it adds the assistant's. */
  lemma DialogueStep(says: seq<string>, responses: seq<string>, turns: nat, response: string)
    requires turns < |says| && |responses| == turns
    ensures Dialogue(says, responses, turns + 1) == Dialogue(says, responses, turns) + [Message(USER, says[turns])]
    ensures Dialogue(says, responses + [response], turns + 1) ==
      Dialogue(says, responses, turns) + [Message(USER, says[turns]), Message(ASSISTANT, response)]
  {
    DialogueIgnoresLaterResponses(says, responses, turns, response);
  }

  /** A turn that sent `prompt` adds the fold's effects, then its response if it has one. */
  lemma TurnEffectsStep(generate: (nat, string) -> seq<StreamItem>, prompts: seq<string>, responses: seq<string>,
                        prompt: string, response: string)
    requires |prompts| == |responses|
    ensures TurnEffects(generate, prompts + [prompt], responses) ==
      TurnEffects(generate, prompts, responses) + FoldStream(EMPTY_FOLD, generate(|prompts|, prompt)).effects
    ensures TurnEffects(generate, prompts + [prompt], responses + [response]) ==
      TurnEffects(generate, prompts, responses) + FoldStream(EMPTY_FOLD, generate(|prompts|, prompt)).effects +
      [EmitResponse(response)]
  {
    assert (prompts + [prompt])[..|prompts|] == prompts;
    TurnEffectsIgnoresLaterResponses(generate, prompts, responses, response);
  }

  lemma {:induction false} DialogueIgnoresLaterResponses(says: seq<string>, responses: seq<string>, turns: nat, response: string)
    requires turns <= |says| && turns <= |responses|
    ensures Dialogue(says, responses + [response], turns) == Dialogue(says, responses, turns)
  {
    if turns > 0 {
      DialogueIgnoresLaterResponses(says, responses, turns - 1, response);
    }
  }

  /** The opening of a turn: add the user's message and render the diff to send; None when
      the render fails (the loop panics on it). */
  method AddUserMessage(chat: ChatState, engine: Engine, text: string) returns (prompt: Option<string>)
    requires chat.Valid()
    modifies chat
    ensures chat.Valid() && chat.appended == old(chat.appended) + [Message(USER, text)]
    ensures var (out, history, length) := RenderingDiff(engine, chat.chatTemplate, old(chat.messages) + [Message(USER, text)], old(chat.length));
      chat.messages == history && chat.length == length &&
      prompt == if out.Success? then Some(out.value) else None
  {
    chat.AddMessage(USER, text);
    var diff := chat.RenderDiff(engine);
    prompt := if diff.Success? then Some(diff.value) else None;
  }

  /** The close of a turn: add the assistant's response and render the diff, ignoring a
      render error; true when the render panics. */
  method AddAssistantMessage(chat: ChatState, engine: Engine, response: string) returns (panicked: bool)
    requires chat.Valid()
    modifies chat
    ensures chat.Valid() && chat.appended == old(chat.appended) + [Message(ASSISTANT, response)]
    ensures var (out, history, length) := RenderingDiff(engine, chat.chatTemplate, old(chat.messages) + [Message(ASSISTANT, response)], old(chat.length));
      chat.messages == history && chat.length == length && (panicked <==> out.Panic?)
  {
    chat.AddMessage(ASSISTANT, response);
    var diff := chat.RenderDiff(engine);
    panicked := diff.Panic?;
  }

  /** The response a fold result carries, if any. */
  predicate IsResponse(result: Option<Result<string, GenerateError>>) {
    result.Some? && result.value.Ok?
  }

  /** A chat state's rendering bookkeeping as a value: the history the template sees and the
      length of the last full render. */
  datatype Snapshot = Snapshot(messages: seq<Message>, length: nat)

  /** How one turn goes on a chat state: the prompt sent (None when rendering the user's
      message fails), the fold over the worker's stream for it, whether the turn panicked, and
      the chat state it leaves. */
  datatype TurnOutcome = TurnOutcome(prompt: Option<string>, folded: FoldState, panicked: bool, after: Snapshot)

  /** A turn that ran to the end: it sent a prompt, the stream gave a response, and nothing
      panicked. */
  predicate Completed(t: TurnOutcome) {
    t.prompt.Some? && IsResponse(t.folded.result) && !t.panicked
  }

  /** One turn of the chat loop on the chat state `before`: add the user's message and render
      the diff (a failure there panics); fold the worker's stream for the diff; on a response,
      add it as the assistant's message and render the diff again (an error there is ignored,
      a panic is not). */
  function Turn(engine: Engine, template: string, before: Snapshot, say: string, turn: nat,
                generate: (nat, string) -> seq<StreamItem>): (t: TurnOutcome)
  {
    var (out, history, length) := RenderingDiff(engine, template, before.messages + [Message(USER, say)], before.length);
    if !out.Success? then TurnOutcome(None, EMPTY_FOLD, true, Snapshot(history, length))
    else
      var folded := FoldStream(EMPTY_FOLD, generate(turn, out.value));
      if !IsResponse(folded.result) then TurnOutcome(Some(out.value), folded, false, Snapshot(history, length))
      else
        var (answer, history', length') :=
          RenderingDiff(engine, template, history + [Message(ASSISTANT, folded.result.value.value)], length);
        TurnOutcome(Some(out.value), folded, answer.Panic?, Snapshot(history', length'))
  }

  /** What a turn sends and when it panics: the prompt is the new tail of the full render of
      the history with the user's message, provided that render succeeds and does not shrink;
      the fold runs over the worker's stream for that prompt; the turn panics when there is no
      prompt, or when the assistant's message comes back and its render panics. */
  lemma TurnSpec(engine: Engine, template: string, before: Snapshot, say: string, turn: nat,
                 generate: (nat, string) -> seq<StreamItem>)
    ensures var t := Turn(engine, template, before, say, turn, generate);
      var full := Rendering(engine, template, before.messages + [Message(USER, say)]).0;
      (t.prompt.Some? <==> full.Success? && before.length <= |full.value|) &&
      (t.prompt.Some? ==> full.value[..before.length] + t.prompt.value == full.value)
    ensures var t := Turn(engine, template, before, say, turn, generate);
      t.prompt.Some? ==> t.folded == FoldStream(EMPTY_FOLD, generate(turn, t.prompt.value))
    ensures var t := Turn(engine, template, before, say, turn, generate);
      var user := RenderingDiff(engine, template, before.messages + [Message(USER, say)], before.length);
      t.panicked <==>
        t.prompt.None? ||
        (IsResponse(t.folded.result) &&
         RenderingDiff(engine, template, user.1 + [Message(ASSISTANT, t.folded.result.value.value)], user.2).0.Panic?)
  {
  }

  /** A turn keeps the history faithful to the messages appended: the user's message, then
      the assistant's when the stream gave a response. */
  lemma TurnRecords(engine: Engine, template: string, before: Snapshot, say: string, turn: nat,
                    generate: (nat, string) -> seq<StreamItem>, appended: seq<Message>)
    requires Records(before.messages, appended)
    ensures var t := Turn(engine, template, before, say, turn, generate);
      Records(t.after.messages, appended + [Message(USER, say)] +
        if t.prompt.Some? && IsResponse(t.folded.result) then [Message(ASSISTANT, t.folded.result.value.value)] else [])
  {
    var user := Message(USER, say);
    RecordsAppend(before.messages, appended, user);
    RecordsRendering(engine, template, before.messages + [user], appended + [user]);
    var (out, history, length) := RenderingDiff(engine, template, before.messages + [user], before.length);
    var t := Turn(engine, template, before, say, turn, generate);
    if t.prompt.Some? && IsResponse(t.folded.result) {
      var answer := Message(ASSISTANT, t.folded.result.value.value);
      RecordsAppend(history, appended + [user], answer);
      RecordsRendering(engine, template, history + [answer], appended + [user] + [answer]);
    } else {
      assert appended + [user] + [] == appended + [user];
    }
  }

  /** One turn over the chat state, as `Turn` describes it. */
  method ChatTurn(chat: ChatState, engine: Engine, say: string, turn: nat, generate: (nat, string) -> seq<StreamItem>)
    returns (prompt: Option<string>, folded: FoldState, panicked: bool)
    requires chat.Valid()
    modifies chat
    ensures chat.Valid()
    ensures TurnOutcome(prompt, folded, panicked, Snapshot(chat.messages, chat.length)) ==
      Turn(engine, chat.chatTemplate, Snapshot(old(chat.messages), old(chat.length)), say, turn, generate)
    ensures prompt.None? ==> panicked
    ensures panicked ==> prompt.None? || IsResponse(folded.result)
    ensures chat.appended == old(chat.appended) + [Message(USER, say)] +
      if prompt.Some? && IsResponse(folded.result) then [Message(ASSISTANT, folded.result.value.value)] else []
  {
    panicked, folded := false, EMPTY_FOLD;
    prompt := AddUserMessage(chat, engine, say);
    if prompt.None? {
      panicked := true;
      return;
    }
    folded := FoldStream(EMPTY_FOLD, generate(turn, prompt.value));
    if IsResponse(folded.result) {
      panicked := AddAssistantMessage(chat, engine, folded.result.value.value);
    }
  }

  /** The bookkeeping of a turn that sent `prompt`: the prompt joins the record, the fold's
      effects follow the earlier turns' effects, and a response completes the turn. */
  lemma {:induction false} PromptStep(generate: (nat, string) -> seq<StreamItem>, prompts: seq<string>, responses: seq<string>,
                                      effects: seq<Emission>, prompt: string, response: string)
    requires |prompts| == |responses| && Answered(generate, prompts, responses)
    requires effects == TurnEffects(generate, prompts, responses)
    ensures var folded := FoldStream(EMPTY_FOLD, generate(|prompts|, prompt));
      Answered(generate, prompts + [prompt], responses) &&
      effects + folded.effects == TurnEffects(generate, prompts + [prompt], responses) &&
      (folded.result == Some(Ok(response)) ==>
        Answered(generate, prompts + [prompt], responses + [response]) &&
        effects + folded.effects + [EmitResponse(response)] == TurnEffects(generate, prompts + [prompt], responses + [response]))
  {
    AnsweredExtend(generate, prompts, prompt, responses);
    TurnEffectsStep(generate, prompts, responses, prompt, response);
    assert (responses + [response])[..|responses|] == responses;
  }

  /** The history of a turn: the user's message, then the assistant's when there is one. */
  lemma OpeningDialogueStep(opening: seq<Message>, says: seq<string>, responses: seq<string>, turns: nat, response: string)
    requires turns < |says| && |responses| == turns
    ensures opening + Dialogue(says, responses, turns + 1) == opening + Dialogue(says, responses, turns) + [Message(USER, says[turns])]
    ensures opening + Dialogue(says, responses + [response], turns + 1) ==
      opening + Dialogue(says, responses, turns) + [Message(USER, says[turns])] + [Message(ASSISTANT, response)]
  {
    DialogueStep(says, responses, turns, response);
  }

  /** The chat state before the next turn: `start`, or what the last turn left. */
  function StateAfter(start: Snapshot, outcomes: seq<TurnOutcome>): (r: Snapshot) {
    if outcomes == [] then start else outcomes[|outcomes| - 1].after
  }

  /** The turns so far, each as `Turn` runs it on the chat state the turns before it left
      (`start` for the first) with its own user message. */
  predicate Ran(engine: Engine, template: string, says: seq<string>, generate: (nat, string) -> seq<StreamItem>,
                start: Snapshot, outcomes: seq<TurnOutcome>)
  {
    |outcomes| <= |says| &&
    forall i {:trigger StateAfter(start, outcomes[..i])} :: 0 <= i < |outcomes| ==>
      outcomes[i] == Turn(engine, template, StateAfter(start, outcomes[..i]), says[i], i, generate)
  }

  /** The prompts the turns sent, in order. */
  function PromptsOf(outcomes: seq<TurnOutcome>): (r: seq<string>)
    ensures |r| <= |outcomes|
    decreases |outcomes|
  {
    if outcomes == [] then []
    else
      var last := outcomes[|outcomes| - 1];
      PromptsOf(outcomes[..|outcomes| - 1]) + if last.prompt.Some? then [last.prompt.value] else []
  }

  /** The responses the turns got, in order. */
  function ResponsesOf(outcomes: seq<TurnOutcome>): (r: seq<string>)
    ensures |r| <= |outcomes|
    decreases |outcomes|
  {
    if outcomes == [] then []
    else
      var last := outcomes[|outcomes| - 1];
      ResponsesOf(outcomes[..|outcomes| - 1]) +
        if last.prompt.Some? && IsResponse(last.folded.result) then [last.folded.result.value.value] else []
  }

  /** The next turn extends the run, and its prompt and response (when it has them) extend
      the record. */
  lemma RanStep(engine: Engine, template: string, says: seq<string>, generate: (nat, string) -> seq<StreamItem>,
                start: Snapshot, outcomes: seq<TurnOutcome>, t: TurnOutcome)
    requires Ran(engine, template, says, generate, start, outcomes) && |outcomes| < |says|
    requires t == Turn(engine, template, StateAfter(start, outcomes), says[|outcomes|], |outcomes|, generate)
    ensures Ran(engine, template, says, generate, start, outcomes + [t])
  {
    var grown := outcomes + [t];
    forall i | 0 <= i < |grown|
      ensures grown[i] == Turn(engine, template, StateAfter(start, grown[..i]), says[i], i, generate)
    {
      assert grown[..i] == outcomes[..i];
      if i < |outcomes| {
        assert StateAfter(start, outcomes[..i]) == StateAfter(start, grown[..i]);
      } else {
        assert outcomes[..i] == outcomes;
      }
    }
  }

  /** A turn's prompt and response, when it has them, extend the record of those sent and
      received. */
  lemma RecordStep(outcomes: seq<TurnOutcome>, t: TurnOutcome)
    ensures PromptsOf(outcomes + [t]) == PromptsOf(outcomes) + if t.prompt.Some? then [t.prompt.value] else []
    ensures ResponsesOf(outcomes + [t]) == ResponsesOf(outcomes) +
      if t.prompt.Some? && IsResponse(t.folded.result) then [t.folded.result.value.value] else []
  {
    assert (outcomes + [t])[..|outcomes|] == outcomes;
  }

  /** The loop's record after the turns `outcomes`, run from `start`: the prompts they sent
      and the responses they got, each response the Done of its own turn's stream, and the
      effects of all their folds and emitted responses, in order. */
  predicate Progress(engine: Engine, template: string, says: seq<string>, generate: (nat, string) -> seq<StreamItem>,
                     start: Snapshot, outcomes: seq<TurnOutcome>, prompts: seq<string>, responses: seq<string>,
                     effects: seq<Emission>)
  {
    Ran(engine, template, says, generate, start, outcomes) &&
    prompts == PromptsOf(outcomes) && responses == ResponsesOf(outcomes) && |responses| <= |prompts| &&
    Answered(generate, prompts, responses) && effects == TurnEffects(generate, prompts, responses)
  }

  /** The next turn, with the prompt, response and effects it adds, extends the record. */
  lemma ProgressStep(engine: Engine, template: string, says: seq<string>, generate: (nat, string) -> seq<StreamItem>,
                     start: Snapshot, outcomes: seq<TurnOutcome>, prompts: seq<string>, responses: seq<string>,
                     effects: seq<Emission>, t: TurnOutcome, prompts': seq<string>, responses': seq<string>,
                     effects': seq<Emission>)
    requires Progress(engine, template, says, generate, start, outcomes, prompts, responses, effects) && |outcomes| < |says|
    requires t == Turn(engine, template, StateAfter(start, outcomes), says[|outcomes|], |outcomes|, generate)
    requires prompts' == if t.prompt.Some? then prompts + [t.prompt.value] else prompts
    requires responses' == if t.prompt.Some? && IsResponse(t.folded.result) then responses + [t.folded.result.value.value] else responses
    requires |responses'| <= |prompts'| && Answered(generate, prompts', responses')
    requires effects' == TurnEffects(generate, prompts', responses')
    ensures Progress(engine, template, says, generate, start, outcomes + [t], prompts', responses', effects')
    ensures StateAfter(start, outcomes + [t]) == t.after
  {
    RanStep(engine, template, says, generate, start, outcomes, t);
    RecordStep(outcomes, t);
  }

  /** The bookkeeping of the chat loop's body after a turn: the prompt sent, the response
      emitted and the effects, appended to those of the earlier turns. `stopped` is how the loop
      ends when this turn ends it: a panic when the turn panicked, NoResponseError when the
      stream ends without a result, the worker's error when it ends on one. */
  method RecordTurn(generate: (nat, string) -> seq<StreamItem>, turns: nat, prompts: seq<string>, responses: seq<string>,
                    effects: seq<Emission>, prompt: Option<string>, folded: FoldState, panicked: bool)
    returns (stopped: Option<Outcome<(), ChatLoopError>>, newPrompts: seq<string>, newResponses: seq<string>,
             newEffects: seq<Emission>)
    requires turns == |prompts| == |responses|
    requires Answered(generate, prompts, responses) && effects == TurnEffects(generate, prompts, responses)
    requires prompt.None? ==> panicked
    requires panicked ==> prompt.None? || IsResponse(folded.result)
    requires prompt.Some? ==> folded == FoldStream(EMPTY_FOLD, generate(turns, prompt.value))
    ensures newPrompts == if prompt.Some? then prompts + [prompt.value] else prompts
    ensures newResponses == if prompt.Some? && IsResponse(folded.result) then responses + [folded.result.value.value] else responses
    ensures Answered(generate, newPrompts, newResponses) && newEffects == TurnEffects(generate, newPrompts, newResponses)
    ensures stopped == Some(Panic) <==> panicked
    ensures stopped.None? <==> prompt.Some? && IsResponse(folded.result) && !panicked
    ensures stopped.Some? ==> !stopped.value.Success?
    ensures stopped.Some? && stopped.value.Failure? ==>
      |newPrompts| == turns + 1 && |newResponses| == turns &&
      TurnResult(generate, turns, newPrompts[turns]) ==
      if stopped.value.error.NoResponseError? then None else Some(Err(stopped.value.error.error))
  {
    newPrompts, newResponses, newEffects := prompts, responses, effects;
    if prompt.None? {
      return Some(Panic), newPrompts, newResponses, newEffects;
    }
    var response := if IsResponse(folded.result) then folded.result.value.value else "";
    PromptStep(generate, prompts, responses, effects, prompt.value, response);
    newPrompts := prompts + [prompt.value];
    newEffects := effects + folded.effects;
    assert TurnResult(generate, turns, newPrompts[turns]) == folded.result;
    if !IsResponse(folded.result) {
      var error := if folded.result.None? then NoResponseError else GenerateResponseError(folded.result.value.error);
      assert !panicked;
      return Some(Failure(error)), newPrompts, newResponses, newEffects;
    }
    assert folded.result == Some(Ok(response));
    newEffects := newEffects + [EmitResponse(response)];
    newResponses := responses + [response];
    stopped := if panicked then Some(Panic) else None;
  }

  /** One pass of the chat loop's body: the turn (ChatTurn), then its bookkeeping
      (RecordTurn). */
  method LoopTurn(chat: ChatState, engine: Engine, says: seq<string>, generate: (nat, string) -> seq<StreamItem>,
                  ghost opening: seq<Message>, turns: nat, prompts: seq<string>, responses: seq<string>, effects: seq<Emission>)
    returns (stopped: Option<Outcome<(), ChatLoopError>>, newPrompts: seq<string>, newResponses: seq<string>,
             newEffects: seq<Emission>, ghost outcome: TurnOutcome)
    requires chat.Valid() && turns < |says| && turns == |prompts| == |responses|
    requires chat.appended == opening + Dialogue(says, responses, turns)
    requires Answered(generate, prompts, responses) && effects == TurnEffects(generate, prompts, responses)
    modifies chat
    ensures chat.Valid() && chat.appended == opening + Dialogue(says, newResponses, turns + 1)
    ensures outcome == Turn(engine, chat.chatTemplate, Snapshot(old(chat.messages), old(chat.length)), says[turns], turns, generate)
    ensures outcome.after == Snapshot(chat.messages, chat.length)
    ensures newPrompts == if outcome.prompt.Some? then prompts + [outcome.prompt.value] else prompts
    ensures newResponses == if outcome.prompt.Some? && IsResponse(outcome.folded.result)
      then responses + [outcome.folded.result.value.value] else responses
    ensures Answered(generate, newPrompts, newResponses) && newEffects == TurnEffects(generate, newPrompts, newResponses)
    ensures stopped == Some(Panic) <==> outcome.panicked
    ensures stopped.None? <==> Completed(outcome)
    ensures stopped.Some? ==> !stopped.value.Success?
    ensures stopped.Some? && stopped.value.Failure? ==>
      |newPrompts| == turns + 1 && |newResponses| == turns &&
      TurnResult(generate, turns, newPrompts[turns]) ==
      if stopped.value.error.NoResponseError? then None else Some(Err(stopped.value.error.error))
  {
    var prompt, folded, panicked := ChatTurn(chat, engine, says[turns], turns, generate);
    outcome := TurnOutcome(prompt, folded, panicked, Snapshot(chat.messages, chat.length));
    stopped, newPrompts, newResponses, newEffects := RecordTurn(generate, turns, prompts, responses, effects, prompt, folded, panicked);
    var response := if IsResponse(folded.result) then folded.result.value.value else "";
    OpeningDialogueStep(opening, says, responses, turns, response);
  }

  /** The chat loop between turns: every turn so far was answered, and the chat state is what
      they left. */
  predicate Looping(says: seq<string>, start: Snapshot, state: Snapshot, outcomes: seq<TurnOutcome>,
                    prompts: seq<string>, responses: seq<string>)
  {
    |outcomes| <= |says| && |prompts| == |responses| == |outcomes| &&
    StateAfter(start, outcomes) == state &&
    forall i :: 0 <= i < |outcomes| ==> Completed(outcomes[i])
  }

  /** How the chat loop ends with `r` after the turns `outcomes`: every turn before the last
      was answered; Ok exactly when every user message was answered; a panic exactly when the
      last turn panicked; a failure when the last turn's stream ended without a response, with
      NoResponseError when it ended without a result and the worker's error otherwise. The
      chat state is what the turns left. */
  predicate Ended(says: seq<string>, generate: (nat, string) -> seq<StreamItem>, start: Snapshot, state: Snapshot,
                  r: Outcome<(), ChatLoopError>, outcomes: seq<TurnOutcome>, prompts: seq<string>, responses: seq<string>)
  {
    var turns := |outcomes|;
    |responses| <= |prompts| <= turns <= |says| && turns <= |responses| + 1 &&
    StateAfter(start, outcomes) == state &&
    (forall i :: 0 <= i < turns - 1 ==> Completed(outcomes[i])) &&
    (r.Success? <==> turns == |says| && (turns == 0 || Completed(outcomes[turns - 1]))) &&
    (r.Success? ==> |responses| == turns) &&
    (r.Panic? <==> turns > 0 && outcomes[turns - 1].panicked) &&
    (r.Failure? ==> turns == |prompts| == |responses| + 1) &&
    (r.Failure? ==>
      TurnResult(generate, |responses|, prompts[|responses|]) ==
      if r.error.NoResponseError? then None else Some(Err(r.error.error)))
  }

  /** An answered turn keeps the loop Looping. */
  lemma LoopingContinues(says: seq<string>, start: Snapshot, state: Snapshot, outcomes: seq<TurnOutcome>,
                         prompts: seq<string>, responses: seq<string>, outcome: TurnOutcome)
    requires Looping(says, start, state, outcomes, prompts, responses)
    requires |outcomes| < |says| && Completed(outcome)
    requires StateAfter(start, outcomes + [outcome]) == outcome.after
    ensures Looping(says, start, outcome.after, outcomes + [outcome],
                    prompts + [outcome.prompt.value], responses + [outcome.folded.result.value.value])
  {
    var grown := outcomes + [outcome];
    assert grown[|outcomes|] == outcome;
    assert forall i :: 0 <= i < |outcomes| ==> grown[i] == outcomes[i];
  }

  /** A turn that is not answered ends the loop as Ended says. */
  lemma LoopingEnds(says: seq<string>, generate: (nat, string) -> seq<StreamItem>, start: Snapshot, state: Snapshot,
                    outcomes: seq<TurnOutcome>, prompts: seq<string>, responses: seq<string>,
                    stopped: Outcome<(), ChatLoopError>, outcome: TurnOutcome, newPrompts: seq<string>, newResponses: seq<string>)
    requires Looping(says, start, state, outcomes, prompts, responses)
    requires |outcomes| < |says| && !Completed(outcome) && !stopped.Success?
    requires newPrompts == if outcome.prompt.Some? then prompts + [outcome.prompt.value] else prompts
    requires newResponses == if outcome.prompt.Some? && IsResponse(outcome.folded.result)
      then responses + [outcome.folded.result.value.value] else responses
    requires StateAfter(start, outcomes + [outcome]) == outcome.after
    requires stopped.Panic? <==> outcome.panicked
    requires stopped.Failure? ==>
      |newPrompts| == |outcomes| + 1 && |newResponses| == |outcomes| &&
      TurnResult(generate, |outcomes|, newPrompts[|outcomes|]) ==
      if stopped.error.NoResponseError? then None else Some(Err(stopped.error.error))
    ensures Ended(says, generate, start, outcome.after, stopped, outcomes + [outcome], newPrompts, newResponses)
  {
    var grown := outcomes + [outcome];
    assert grown[|outcomes|] == outcome;
    assert forall i :: 0 <= i < |grown| - 1 ==> Completed(grown[i]) by {
      assert forall i :: 0 <= i < |outcomes| ==> grown[i] == outcomes[i];
    }
    if outcome.prompt.None? {
      assert newPrompts == prompts && newResponses == responses;
    } else if !IsResponse(outcome.folded.result) {
      assert |newPrompts| == |grown| && newResponses == responses;
    } else {
      assert |newPrompts| == |newResponses| == |grown|;
    }
  }

  /** One pass of the chat loop's body (LoopTurn) with its place in the run: the turn is
      `Turn` on the chat state the earlier turns left and the record grows by it; when it is
      answered the loop goes on, otherwise the loop ends with `stopped`. */
  method ChatLoopStep(chat: ChatState, engine: Engine, says: seq<string>, generate: (nat, string) -> seq<StreamItem>,
                      ghost opening: seq<Message>, ghost start: Snapshot, ghost outcomes: seq<TurnOutcome>,
                      turns: nat, prompts: seq<string>, responses: seq<string>, effects: seq<Emission>)
    returns (stopped: Option<Outcome<(), ChatLoopError>>, newPrompts: seq<string>, newResponses: seq<string>,
             newEffects: seq<Emission>, ghost newOutcomes: seq<TurnOutcome>)
    requires chat.Valid() && turns == |outcomes| < |says|
    requires chat.appended == opening + Dialogue(says, responses, turns)
    requires Looping(says, start, Snapshot(chat.messages, chat.length), outcomes, prompts, responses)
    requires Progress(engine, chat.chatTemplate, says, generate, start, outcomes, prompts, responses, effects)
    modifies chat
    ensures chat.Valid() && |newOutcomes| == |outcomes| + 1
    ensures chat.appended == opening + Dialogue(says, newResponses, turns + 1)
    ensures Progress(engine, chat.chatTemplate, says, generate, start, newOutcomes, newPrompts, newResponses, newEffects)
    ensures stopped.None? ==> Looping(says, start, Snapshot(chat.messages, chat.length), newOutcomes, newPrompts, newResponses)
    ensures stopped.Some? ==>
      Ended(says, generate, start, Snapshot(chat.messages, chat.length), stopped.value, newOutcomes, newPrompts, newResponses)
  {
    ghost var outcome;
    ghost var state := Snapshot(chat.messages, chat.length);
    stopped, newPrompts, newResponses, newEffects, outcome :=
      LoopTurn(chat, engine, says, generate, opening, turns, prompts, responses, effects);
    StepConcludes(engine, chat.chatTemplate, says, generate, start, state, outcomes, prompts, responses, effects,
                  stopped, outcome, newPrompts, newResponses, newEffects);
    newOutcomes := outcomes + [outcome];
  }

  /** What one pass of the chat loop's body means for the run, from LoopTurn's contract: the
      record grows by the turn, and the loop goes on (Looping) or ends (Ended). */
  lemma StepConcludes(engine: Engine, template: string, says: seq<string>, generate: (nat, string) -> seq<StreamItem>,
                      start: Snapshot, state: Snapshot, outcomes: seq<TurnOutcome>, prompts: seq<string>,
                      responses: seq<string>, effects: seq<Emission>, stopped: Option<Outcome<(), ChatLoopError>>,
                      outcome: TurnOutcome, newPrompts: seq<string>, newResponses: seq<string>, newEffects: seq<Emission>)
    requires |outcomes| < |says| && Looping(says, start, state, outcomes, prompts, responses)
    requires Progress(engine, template, says, generate, start, outcomes, prompts, responses, effects)
    requires outcome == Turn(engine, template, state, says[|outcomes|], |outcomes|, generate)
    requires newPrompts == if outcome.prompt.Some? then prompts + [outcome.prompt.value] else prompts
    requires newResponses == if outcome.prompt.Some? && IsResponse(outcome.folded.result)
      then responses + [outcome.folded.result.value.value] else responses
    requires Answered(generate, newPrompts, newResponses) && newEffects == TurnEffects(generate, newPrompts, newResponses)
    requires stopped == Some(Panic) <==> outcome.panicked
    requires stopped.None? <==> Completed(outcome)
    requires stopped.Some? ==> !stopped.value.Success?
    requires stopped.Some? && stopped.value.Failure? ==>
      |newPrompts| == |outcomes| + 1 && |newResponses| == |outcomes| &&
      TurnResult(generate, |outcomes|, newPrompts[|outcomes|]) ==
      if stopped.value.error.NoResponseError? then None else Some(Err(stopped.value.error.error))
    ensures Progress(engine, template, says, generate, start, outcomes + [outcome], newPrompts, newResponses, newEffects)
    ensures stopped.None? ==> Looping(says, start, outcome.after, outcomes + [outcome], newPrompts, newResponses)
    ensures stopped.Some? ==>
      Ended(says, generate, start, outcome.after, stopped.value, outcomes + [outcome], newPrompts, newResponses)
  {
    ProgressStep(engine, template, says, generate, start, outcomes, prompts, responses, effects,
                 outcome, newPrompts, newResponses, newEffects);
    if stopped.None? {
      LoopingContinues(says, start, state, outcomes, prompts, responses, outcome);
    } else {
      LoopingEnds(says, generate, start, state, outcomes, prompts, responses, stopped.value, outcome, newPrompts, newResponses);
    }
  }

  /** The turns of `simple_chat_loop`, one per user message, in order (ChatLoopStep), on a
      chat state that holds the messages `opening`, until every message is answered or a turn
      ends the loop (Ended). `generate(i, prompt)` is the worker's stream for turn i;
      `outcomes` are the turns as `Turn` runs them from the chat state `start`; `prompts` are
      the diffs sent, `responses` the responses emitted, `effects` what the folds and the
      responses emitted, `turns` the user messages added. */
  method ChatLoop(chat: ChatState, engine: Engine, says: seq<string>, generate: (nat, string) -> seq<StreamItem>,
                  ghost opening: seq<Message>, ghost start: Snapshot)
    returns (r: Outcome<(), ChatLoopError>, turns: nat, prompts: seq<string>,
             responses: seq<string>, effects: seq<Emission>, ghost outcomes: seq<TurnOutcome>)
    requires chat.Valid() && chat.appended == opening && start == Snapshot(chat.messages, chat.length)
    modifies chat
    ensures chat.Valid() && |outcomes| == turns
    ensures Progress(engine, chat.chatTemplate, says, generate, start, outcomes, prompts, responses, effects)
    ensures chat.appended == opening + Dialogue(says, responses, turns)
    ensures Ended(says, generate, start, Snapshot(chat.messages, chat.length), r, outcomes, prompts, responses)
  {
    turns, prompts, responses, effects, outcomes := 0, [], [], [], [];
    while turns < |says|
      invariant chat.Valid() && turns == |outcomes|
      invariant Progress(engine, chat.chatTemplate, says, generate, start, outcomes, prompts, responses, effects)
      invariant chat.appended == opening + Dialogue(says, responses, turns)
      invariant Looping(says, start, Snapshot(chat.messages, chat.length), outcomes, prompts, responses)
    {
      var stopped;
      stopped, prompts, responses, effects, outcomes :=
        ChatLoopStep(chat, engine, says, generate, opening, start, outcomes, turns, prompts, responses, effects);
      turns := turns + 1;
      if stopped.Some? {
        return stopped.value, turns, prompts, responses, effects, outcomes;
      }
    }
    r := Success(());
  }

  /** `simple_chat_loop`: add the system message to a fresh chat state, then run the turns
      (ChatLoop) from the chat state holding just that message. `history` is the chat state's
      history when the loop ends. */
  method SimpleChatLoop(engine: Engine, chatTemplate: string, systemPrompt: string, says: seq<string>,
                        generate: (nat, string) -> seq<StreamItem>)
    returns (r: Outcome<(), ChatLoopError>, history: seq<Message>, turns: nat, prompts: seq<string>,
             responses: seq<string>, effects: seq<Emission>, ghost outcomes: seq<TurnOutcome>)
    ensures |responses| <= |prompts| <= turns <= |says| && turns <= |responses| + 1
    ensures |outcomes| == turns &&
      Progress(engine, chatTemplate, says, generate, Snapshot([Message(SYSTEM, systemPrompt)], 0), outcomes, prompts, responses, effects)
    ensures history == StateAfter(Snapshot([Message(SYSTEM, systemPrompt)], 0), outcomes).messages
    ensures forall i :: 0 <= i < turns - 1 ==> Completed(outcomes[i])
    ensures r.Success? <==> turns == |says| && (turns == 0 || Completed(outcomes[turns - 1]))
    ensures r.Success? ==> |responses| == |says|
    ensures r.Panic? <==> turns > 0 && outcomes[turns - 1].panicked
    ensures r.Failure? ==> turns == |prompts| == |responses| + 1
    ensures r.Failure? ==>
      TurnResult(generate, |responses|, prompts[|responses|]) ==
      if r.error.NoResponseError? then None else Some(Err(r.error.error))
    ensures Records(history, [Message(SYSTEM, systemPrompt)] + Dialogue(says, responses, turns))
  {
    var chat := new ChatState(chatTemplate);
    chat.AddMessage(SYSTEM, systemPrompt);
    ghost var start := Snapshot([Message(SYSTEM, systemPrompt)], 0);
    r, turns, prompts, responses, effects, outcomes :=
      ChatLoop(chat, engine, says, generate, [Message(SYSTEM, systemPrompt)], start);
    history := chat.messages;
    EndedMeans(says, generate, start, Snapshot(chat.messages, chat.length), r, outcomes, prompts, responses);
  }

  /** Ended spelled out clause by clause. */
  lemma EndedMeans(says: seq<string>, generate: (nat, string) -> seq<StreamItem>, start: Snapshot, state: Snapshot,
                   r: Outcome<(), ChatLoopError>, outcomes: seq<TurnOutcome>, prompts: seq<string>, responses: seq<string>)
    requires Ended(says, generate, start, state, r, outcomes, prompts, responses)
    ensures var turns := |outcomes|;
      |responses| <= |prompts| <= turns <= |says| && turns <= |responses| + 1 &&
      state.messages == StateAfter(start, outcomes).messages &&
      (forall i :: 0 <= i < turns - 1 ==> Completed(outcomes[i])) &&
      (r.Success? <==> turns == |says| && (turns == 0 || Completed(outcomes[turns - 1]))) &&
      (r.Success? ==> |responses| == |says|) &&
      (r.Panic? <==> turns > 0 && outcomes[turns - 1].panicked) &&
      (r.Failure? ==> turns == |prompts| == |responses| + 1)
    ensures r.Failure? ==>
      TurnResult(generate, |responses|, prompts[|responses|]) ==
      if r.error.NoResponseError? then None else Some(Err(r.error.error))
  {
  }

  /** `simple_embedding_loop`: embed each received text in arrival order and emit the
      embedding; the first failure ends the loop with its error. */
  method SimpleEmbeddingLoop<E>(texts: seq<string>, embed: string -> Result<seq<F32>, E>)
    returns (r: Result<(), E>, embeddings: seq<seq<F32>>)
    ensures |embeddings| <= |texts|
    ensures forall i :: 0 <= i < |embeddings| ==> embed(texts[i]) == Ok(embeddings[i])
    ensures r.Ok? <==> |embeddings| == |texts|
    ensures r.Err? ==> embed(texts[|embeddings|]) == Err(r.error)
  {
    embeddings := [];
    var i := 0;
    while i < |texts|
      invariant i == |embeddings| <= |texts|
      invariant forall j :: 0 <= j < i ==> embed(texts[j]) == Ok(embeddings[j])
    {
      var embedding := embed(texts[i]);
      if embedding.Err? {
        return Err(embedding.error), embeddings;
      }
      embeddings := embeddings + [embedding.value];
      i := i + 1;
    }
    return Ok(()), embeddings;
  }
}
