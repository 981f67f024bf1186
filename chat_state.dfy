/** The chat history of one session and its incremental rendering through the model's chat
    template (nobodywho/src/chat_state.rs). The template engine is left uninterpreted. */
module ChatHistory {
  import opened Base

  datatype Message = Message(role: string, content: string)

  const SYSTEM: string := "system"
  const USER: string := "user"
  const ASSISTANT: string := "assistant"

  /** The text with which a template reports that it refuses a leading system message. */
  const SYSTEM_ROLE_NOT_SUPPORTED: string := "System role not supported"

  /** The error kinds `render` tells apart: `InvalidOperation` (what a template's
      `raise_exception` produces) and every other kind. */
  datatype ErrorKind = InvalidOperation | OtherKind

  /** A template-engine error: its kind and its display text. */
  datatype TemplateError = TemplateError(kind: ErrorKind, display: string)

  /** The template engine, uninterpreted and deterministic: compiling a template source
      (`Some` is a compile error) and rendering it against a message list, always with the
      generation prompt requested. */
  datatype Engine = Engine(
    compile: string -> Option<TemplateError>,
    render: (string, seq<Message>) -> Result<string, TemplateError>)

  /** The preconditions (assertions) of the merge: a system message followed by a user message. */
  predicate Mergeable(messages: seq<Message>) {
    |messages| >= 2 && messages[0].role == SYSTEM && messages[1].role == USER
  }

  /** Replaces the leading system and user messages by one user message holding both texts,
      separated by a blank line; the rest of the history is kept. */
  function ConcatSystemAndFirstUserMessages(messages: seq<Message>): (r: seq<Message>)
    requires Mergeable(messages)
    ensures |r| == |messages| - 1 && r[1..] == messages[2..]
    ensures r[0].role == USER && r[0].content == messages[0].content + "\n\n" + messages[1].content
    ensures !Mergeable(r)
  {
    [Message(USER, messages[0].content + "\n\n" + messages[1].content)] + messages[2..]
  }

  /** The merged message still holds the system text and the user text, each intact. */
  lemma MergeKeepsBothTexts(messages: seq<Message>)
    requires Mergeable(messages)
    ensures var merged := ConcatSystemAndFirstUserMessages(messages)[0].content;
      Contains(merged, messages[0].content) && Contains(merged, messages[1].content)
  {
    var system, user := messages[0].content, messages[1].content;
    ContainsParts(system, "\n\n" + user);
    ContainsParts(system + "\n\n", user);
    assert system + ("\n\n" + user) == system + "\n\n" + user;
  }

  /** The one error `render` recovers from. */
  predicate IsSystemRoleError(e: TemplateError) {
    e.kind == InvalidOperation && Contains(e.display, SYSTEM_ROLE_NOT_SUPPORTED)
  }

  /** One call of `render` on a history: what it returns, and the history it leaves behind.
      The merge is a persistent rewrite of the history; the merged history starts with a user
      message, so a second refusal fails the merge's assertions (a panic). */
  function Rendering(engine: Engine, template: string, messages: seq<Message>): (r: (Outcome<string, TemplateError>, seq<Message>))
    decreases if Mergeable(messages) then 1 else 0
    ensures r.1 == messages || (Mergeable(messages) && r.1 == ConcatSystemAndFirstUserMessages(messages))
    ensures r.1 != messages ==>
      engine.compile(template).None? && engine.render(template, messages).Err? &&
      IsSystemRoleError(engine.render(template, messages).error)
    ensures engine.compile(template).None? && Mergeable(messages) && engine.render(template, messages).Err? &&
            IsSystemRoleError(engine.render(template, messages).error)
      ==> r.1 == ConcatSystemAndFirstUserMessages(messages)
    ensures r.0.Success? ==> engine.compile(template).None? && engine.render(template, r.1) == Ok(r.0.value)
    ensures engine.compile(template).Some? ==> r.0 == Failure(engine.compile(template).value)
    ensures engine.compile(template).None? && engine.render(template, r.1).Err? &&
            !IsSystemRoleError(engine.render(template, r.1).error)
      ==> r.0 == Failure(engine.render(template, r.1).error)
    ensures r.0.Failure? ==>
      engine.compile(template) == Some(r.0.error) ||
      (engine.render(template, r.1) == Err(r.0.error) && !IsSystemRoleError(r.0.error))
    ensures r.0.Panic? <==>
      engine.compile(template).None? && engine.render(template, r.1).Err? &&
      IsSystemRoleError(engine.render(template, r.1).error)
  {
    match engine.compile(template)
    case Some(e) => (Failure(e), messages)
    case None =>
      match engine.render(template, messages)
      case Ok(text) => (Success(text), messages)
      case Err(e) =>
        if !IsSystemRoleError(e) then (Failure(e), messages)
        else if !Mergeable(messages) then (Panic, messages)
        else Rendering(engine, template, ConcatSystemAndFirstUserMessages(messages))
  }

  /** One call of `render_diff` with bookkeeping length `length`: what it returns, the history
      it leaves behind and the new bookkeeping length. Slicing the render at a length past its
      end panics. */
  function RenderingDiff(engine: Engine, template: string, messages: seq<Message>, length: nat)
    : (r: (Outcome<string, TemplateError>, seq<Message>, nat))
    ensures r.1 == Rendering(engine, template, messages).1
    ensures r.0.Success? <==>
      Rendering(engine, template, messages).0.Success? &&
      length <= |Rendering(engine, template, messages).0.value|
    ensures r.0.Success? ==>
      var text := Rendering(engine, template, messages).0.value;
      r.2 == |text| && text[..length] + r.0.value == text
    ensures r.0.Failure? <==> Rendering(engine, template, messages).0.Failure?
    ensures r.0.Failure? ==> r.0 == Rendering(engine, template, messages).0
    ensures !r.0.Success? ==> r.2 == length
  {
    var (out, rewritten) := Rendering(engine, template, messages);
    match out
    case Failure(e) => (Failure(e), rewritten, length)
    case Panic => (Panic, rewritten, length)
    case Success(text) =>
      if length <= |text| then (Success(text[length..]), rewritten, |text|)
      else (Panic, rewritten, length)
  }

  /** The recovery: when the template refuses the leading system message but renders the
      merged history, `render` returns that render and keeps the merged history, whose first
      message holds both texts. */
  lemma MergeRecovers(engine: Engine, template: string, messages: seq<Message>, text: string)
    requires engine.compile(template).None? && Mergeable(messages)
    requires engine.render(template, messages).Err? && IsSystemRoleError(engine.render(template, messages).error)
    requires engine.render(template, ConcatSystemAndFirstUserMessages(messages)) == Ok(text)
    ensures Rendering(engine, template, messages) == (Success(text), ConcatSystemAndFirstUserMessages(messages))
    ensures var merged := Rendering(engine, template, messages).1[0].content;
      Contains(merged, messages[0].content) && Contains(merged, messages[1].content)
  {
    MergeKeepsBothTexts(messages);
  }

  /** A successful render leaves a history that renders to the same text with no further
      rewrite. */
  lemma RenderingStable(engine: Engine, template: string, messages: seq<Message>)
    requires Rendering(engine, template, messages).0.Success?
    ensures Rendering(engine, template, Rendering(engine, template, messages).1) == Rendering(engine, template, messages)
  {
  }

  /** With a deterministic template and no message added in between, a second `render_diff`
      returns the empty string and changes nothing. */
  lemma RenderDiffTwiceIsEmpty(engine: Engine, template: string, messages: seq<Message>, length: nat)
    requires RenderingDiff(engine, template, messages, length).0.Success?
    ensures
      var (_, history, newLength) := RenderingDiff(engine, template, messages, length);
      RenderingDiff(engine, template, history, newLength) == (Success(""), history, newLength)
  {
    RenderingStable(engine, template, messages);
  }

  /** `history` is the list of appended messages `appended`, except that its leading system and
      user messages may have been merged by a recovery. */
  predicate Records(history: seq<Message>, appended: seq<Message>) {
    history == appended || (Mergeable(appended) && history == ConcatSystemAndFirstUserMessages(appended))
  }

  /** Appending to a history appends to the messages it records. */
  lemma RecordsAppend(history: seq<Message>, appended: seq<Message>, m: Message)
    requires Records(history, appended)
    ensures Records(history + [m], appended + [m])
  {
    if history != appended {
      assert (appended + [m])[2..] == appended[2..] + [m];
      assert ConcatSystemAndFirstUserMessages(appended + [m]) == history + [m];
    }
  }

  /** Rendering keeps a history faithful to the messages appended to it. */
  lemma RecordsRendering(engine: Engine, template: string, history: seq<Message>, appended: seq<Message>)
    requires Records(history, appended)
    ensures Records(Rendering(engine, template, history).1, appended)
  {
  }

  /** Every render extends the one before it. */
  predicate Grows(renders: seq<string>) {
    forall i :: 0 < i < |renders| ==> StartsWith(renders[i], renders[i - 1])
  }

  /** The `render_diff` results of a run of successful renders, starting from a fresh state
      (bookkeeping length 0): each is the new render past the previous render's length. */
  function Diffs(renders: seq<string>): (r: seq<string>)
    requires Grows(renders)
    ensures |r| == |renders|
  {
    if renders == [] then []
    else if |renders| == 1 then [renders[0]]
    else Diffs(renders[..|renders| - 1]) + [renders[|renders| - 1][|renders[|renders| - 2]|..]]
  }

  /** When every render extends the one before it, the successive diffs concatenate to the
      latest full render: nothing is skipped and nothing is sent twice. */
  lemma {:induction false} DiffsRebuildRender(renders: seq<string>)
    requires renders != [] && Grows(renders)
    ensures Join(Diffs(renders)) == renders[|renders| - 1]
  {
    if |renders| > 1 {
      var front := renders[..|renders| - 1];
      var prev, last := renders[|renders| - 2], renders[|renders| - 1];
      GrowsFront(renders);
      DiffsRebuildRender(front);
      assert front[|front| - 1] == prev;
      assert Diffs(renders) == Diffs(front) + [last[|prev|..]];
      JoinSnoc(Diffs(front), last[|prev|..]);
      assert StartsWith(last, prev);
      assert prev + last[|prev|..] == last by {
        assert last[..|prev|] == prev;
      }
    }
  }

  lemma GrowsFront(renders: seq<string>)
    requires renders != [] && Grows(renders)
    ensures Grows(renders[..|renders| - 1])
  {
    var front := renders[..|renders| - 1];
    forall i | 0 < i < |front|
      ensures StartsWith(front[i], front[i - 1])
    {
      assert front[i] == renders[i] && front[i - 1] == renders[i - 1];
    }
  }

  /** The i-th diff is the i-th render past the end of the render before it. */
  lemma {:induction false} DiffsAt(renders: seq<string>, i: nat)
    requires Grows(renders) && i < |renders|
    ensures i == 0 ==> Diffs(renders)[i] == renders[0]
    ensures i > 0 ==> |renders[i - 1]| <= |renders[i]| && Diffs(renders)[i] == renders[i][|renders[i - 1]|..]
    decreases |renders|
  {
    assert i > 0 ==> StartsWith(renders[i], renders[i - 1]);
    if i < |renders| - 1 {
      var front := renders[..|renders| - 1];
      GrowsFront(renders);
      DiffsAt(front, i);
      assert Diffs(renders)[i] == Diffs(front)[i];
      assert front[i] == renders[i] && (i > 0 ==> front[i - 1] == renders[i - 1]);
    }
  }

  /** `render_diff` reproduces `Diffs`: on a run of renders from a fresh state, each extending
      the one before, the call made with the length the previous call left (0 for the first)
      returns the next diff and leaves the length of its own render. */
  lemma RenderingDiffRun(engine: Engine, template: string, messages: seq<Message>, renders: seq<string>, i: nat)
    requires Grows(renders) && i < |renders|
    requires Rendering(engine, template, messages).0 == Success(renders[i])
    ensures var length := if i == 0 then 0 else |renders[i - 1]|;
      RenderingDiff(engine, template, messages, length) ==
        (Success(Diffs(renders)[i]), Rendering(engine, template, messages).1, |renders[i]|)
  {
    DiffsAt(renders, i);
  }

  /** The chat state of one session: the history as the template sees it, the template, and the
      length of the last full render. `appended` is the list of messages ever added. */
  class ChatState {
    var messages: seq<Message>
    const chatTemplate: string
    var length: nat
    ghost var appended: seq<Message>

    ghost predicate Valid()
      reads this
    {
      Records(messages, appended)
    }

    constructor (chatTemplate: string)
      ensures Valid()
      ensures messages == [] && appended == [] && this.chatTemplate == chatTemplate && length == 0
    {
      messages := [];
      this.chatTemplate := chatTemplate;
      length := 0;
      appended := [];
    }

    method AddMessage(role: string, content: string)
      requires Valid()
      modifies this
      ensures Valid()
      ensures messages == old(messages) + [Message(role, content)]
      ensures appended == old(appended) + [Message(role, content)]
      ensures length == old(length)
    {
      RecordsAppend(messages, appended, Message(role, content));
      messages := messages + [Message(role, content)];
      appended := appended + [Message(role, content)];
    }

    /** `render`: compile the template, render the history, and on a refused system message
        merge the first two messages in place and render again. */
    method Render(engine: Engine) returns (r: Outcome<string, TemplateError>)
      requires Valid()
      modifies this
      decreases if Mergeable(messages) then 1 else 0
      ensures Valid()
      ensures (r, messages) == Rendering(engine, chatTemplate, old(messages))
      ensures length == old(length) && appended == old(appended)
    {
      RecordsRendering(engine, chatTemplate, messages, appended);
      var compiled := engine.compile(chatTemplate);
      if compiled.Some? {
        return Failure(compiled.value);
      }
      match engine.render(chatTemplate, messages)
      case Ok(text) =>
        r := Success(text);
      case Err(e) =>
        if !IsSystemRoleError(e) {
          r := Failure(e);
        } else if !Mergeable(messages) {
          // the merge's assertions fail
          r := Panic;
        } else {
          messages := ConcatSystemAndFirstUserMessages(messages);
          r := Render(engine);
        }
    }

    /** `render_diff`: render the whole history, return the part past the previous render's
        length, and remember the new length. */
    method RenderDiff(engine: Engine) returns (r: Outcome<string, TemplateError>)
      requires Valid()
      modifies this
      ensures Valid()
      ensures (r, messages, length) == RenderingDiff(engine, chatTemplate, old(messages), old(length))
      ensures appended == old(appended)
    {
      var rendered := Render(engine);
      match rendered
      case Failure(e) =>
        r := Failure(e);
      case Panic =>
        r := Panic;
      case Success(text) =>
        if length <= |text| {
          r := Success(text[length..]);
          length := |text|;
        } else {
          // slicing past the end of the render
          r := Panic;
        }
    }
  }
}
