/**
 * The builder page of morph-e2b/app/page.tsx: it folds the tool results of
 * the chat into the current code and the last execution result, shows the
 * clear button while there is code, and picks what the preview pane shows.
 */
module BuilderPage {
  import opened Wrappers
  import opened Text
  import opened PreviewRoute
  import opened AgentTools

  /** A chat message's role; `system` and `data` are `OtherRole`. */
  datatype Role = User | Assistant | OtherRole

  /** The state of a tool invocation: `'partial-call'`, `'call'` or `'result'`. */
  datatype InvocationState = PartialCall | Call | ResultState

  /** A tool's name: `createFile`, `editFile`, `executeCode`, or any other name. */
  datatype ToolName = CreateFileTool | EditFileTool | ExecuteCodeTool | OtherTool

  datatype Invocation = Invocation(toolName: ToolName, state: InvocationState, result: Option<ToolResult>)

  /** A message and its tool invocations (an absent list is the empty one). */
  datatype Message = Message(role: Role, toolInvocations: seq<Invocation>)

  /** The page state the reducer writes: `currentCode` and `executionResult`. */
  datatype PageState = PageState(code: string, execution: Option<ToolResult>)

  /** A result of `createFile` or `editFile` whose `newCode` is truthy. */
  predicate SetsCode(inv: Invocation) {
    (inv.toolName == CreateFileTool || inv.toolName == EditFileTool) &&
    inv.result.Some? && inv.result.value.Saved? && inv.result.value.newCode != ""
  }

  /** A present result of `executeCode`. */
  predicate SetsExecution(inv: Invocation) {
    inv.toolName == ExecuteCodeTool && inv.result.Some?
  }

  /** A completed invocation that writes the code. */
  predicate WritesCode(inv: Invocation) {
    inv.state == ResultState && SetsCode(inv)
  }

  /** A completed invocation that writes the execution result. */
  predicate WritesExecution(inv: Invocation) {
    inv.state == ResultState && SetsExecution(inv)
  }

  /**
   * What one invocation does to the page state: a code writer sets the
   * code, an execution writer sets the result, anything else changes
   * nothing. No invocation is both, so one invocation never sets both.
   */
  function Step(s: PageState, inv: Invocation): (r: PageState)
    ensures WritesCode(inv) ==> r == s.(code := inv.result.value.newCode)
    ensures WritesExecution(inv) ==> r == s.(execution := inv.result)
    ensures !WritesCode(inv) && !WritesExecution(inv) ==> r == s
  {
    if WritesCode(inv) then s.(code := inv.result.value.newCode)
    else if WritesExecution(inv) then s.(execution := inv.result)
    else s
  }

  /**
   * The page state after the invocations of one message, in order. The code
   * is the starting one or the `newCode` of some writer among them, and
   * likewise the execution result.
   */
  function Run(s: PageState, invs: seq<Invocation>): (r: PageState)
    ensures r.code == s.code || exists k :: 0 <= k < |invs| && WritesCode(invs[k]) && r.code == invs[k].result.value.newCode
    ensures r.execution == s.execution || exists k :: 0 <= k < |invs| && WritesExecution(invs[k]) && r.execution == invs[k].result
    decreases |invs|
  {
    if invs == [] then s
    else
      var init := invs[..|invs| - 1];
      var last := invs[|invs| - 1];
      assert forall k :: 0 <= k < |init| ==> init[k] == invs[k];
      Step(Run(s, init), last)
  }

  /** The page state after all messages, in order; only assistant messages take part. */
  function RunMessages(s: PageState, messages: seq<Message>): (r: PageState)
    ensures (forall i :: 0 <= i < |messages| ==> messages[i].role != Assistant) ==> r == s
    decreases |messages|
  {
    if messages == [] then s
    else
      var init := messages[..|messages| - 1];
      var last := messages[|messages| - 1];
      assert forall i :: 0 <= i < |init| ==> init[i] == messages[i];
      var before := RunMessages(s, init);
      if last.role == Assistant then Run(before, last.toolInvocations) else before
  }

  /** The invocations in state `'result'`, in order: all of them and nothing else. */
  function Completed(invocations: seq<Invocation>): (done: seq<Invocation>)
    ensures |done| <= |invocations|
    ensures forall k :: 0 <= k < |done| ==> done[k].state == ResultState && done[k] in invocations
    ensures forall k :: 0 <= k < |invocations| && invocations[k].state == ResultState ==> invocations[k] in done
    decreases |invocations|
  {
    if invocations == [] then []
    else
      var last := invocations[|invocations| - 1];
      var init := invocations[..|invocations| - 1];
      assert forall k :: 0 <= k < |init| ==> init[k] == invocations[k];
      Completed(init) + (if last.state == ResultState then [last] else [])
  }

  /** Completion keeps order: the completed invocations of `a + b` are those of `a`, then those of `b`. */
  lemma {:induction false} CompletedAppend(a: seq<Invocation>, b: seq<Invocation>)
    ensures Completed(a + b) == Completed(a) + Completed(b)
    decreases |b|
  {
    if b == [] {
      assert a + b == a;
    } else {
      var init := b[..|b| - 1];
      CompletedAppend(a, init);
      assert (a + b)[..|a + b| - 1] == a + init;
      assert (a + b)[|a + b| - 1] == b[|b| - 1];
    }
  }

  /** The completed invocations of all assistant messages, message by message. */
  function Considered(messages: seq<Message>): seq<Invocation>
  {
    if messages == [] then []
    else
      var last := messages[|messages| - 1];
      Considered(messages[..|messages| - 1]) + (if last.role == Assistant then Completed(last.toolInvocations) else [])
  }

  lemma {:induction false} RunAppend(s: PageState, a: seq<Invocation>, b: seq<Invocation>)
    ensures Run(s, a + b) == Run(Run(s, a), b)
    decreases |b|
  {
    if b == [] {
      assert a + b == a;
    } else {
      RunAppend(s, a, b[..|b| - 1]);
      assert (a + b)[..|a + b| - 1] == a + b[..|b| - 1];
    }
  }

  /** Invocations not yet in state `'result'` change nothing. */
  lemma {:induction false} RunCompleted(s: PageState, invs: seq<Invocation>)
    ensures Run(s, Completed(invs)) == Run(s, invs)
    decreases |invs|
  {
    if invs != [] {
      var init := invs[..|invs| - 1];
      var last := invs[|invs| - 1];
      RunCompleted(s, init);
      if last.state == ResultState {
        assert (Completed(init) + [last])[..|Completed(init)|] == Completed(init);
      } else {
        assert Completed(invs) == Completed(init);
      }
    }
  }

  /**
   * Folding the messages is folding their considered invocations: the
   * completed invocations of assistant messages, in message-then-invocation
   * order.
   */
  lemma {:induction false} RunMessagesIsRunConsidered(s: PageState, messages: seq<Message>)
    ensures RunMessages(s, messages) == Run(s, Considered(messages))
    decreases |messages|
  {
    if messages != [] {
      var init := messages[..|messages| - 1];
      var last := messages[|messages| - 1];
      RunMessagesIsRunConsidered(s, init);
      if last.role == Assistant {
        RunAppend(s, Considered(init), Completed(last.toolInvocations));
        RunCompleted(Run(s, Considered(init)), last.toolInvocations);
      } else {
        assert Considered(messages) == Considered(init) + [];
        assert Considered(init) + [] == Considered(init);
      }
    }
  }

  predicate NoCodeWriter(invs: seq<Invocation>) {
    forall k :: 0 <= k < |invs| ==> !WritesCode(invs[k])
  }

  /** `invs[j]` writes the code and nothing after it does. */
  predicate LastCodeWriter(invs: seq<Invocation>, j: int) {
    0 <= j < |invs| && WritesCode(invs[j]) && forall k :: j < k < |invs| ==> !WritesCode(invs[k])
  }

  predicate NoExecutionWriter(invs: seq<Invocation>) {
    forall k :: 0 <= k < |invs| ==> !WritesExecution(invs[k])
  }

  /** `invs[j]` writes the execution result and nothing after it does. */
  predicate LastExecutionWriter(invs: seq<Invocation>, j: int) {
    0 <= j < |invs| && WritesExecution(invs[j]) && forall k :: j < k < |invs| ==> !WritesExecution(invs[k])
  }

  /** With no invocation writing it, a run leaves the code as it was. */
  lemma {:induction false} CodeKept(s: PageState, invs: seq<Invocation>)
    requires NoCodeWriter(invs)
    ensures Run(s, invs).code == s.code
    decreases |invs|
  {
    if invs != [] {
      var init := invs[..|invs| - 1];
      assert NoCodeWriter(init) by {
        forall k | 0 <= k < |init| ensures !WritesCode(init[k]) {
          assert init[k] == invs[k];
        }
      }
      CodeKept(s, init);
    }
  }

  /** The code after a run is the `newCode` of the last invocation that writes it. */
  lemma {:induction false} CodeFromLastWriter(s: PageState, invs: seq<Invocation>, j: int)
    requires LastCodeWriter(invs, j)
    ensures Run(s, invs).code == invs[j].result.value.newCode
    decreases |invs|
  {
    var init := invs[..|invs| - 1];
    if j < |invs| - 1 {
      assert !WritesCode(invs[|invs| - 1]);
      assert LastCodeWriter(init, j) by {
        forall k | j < k < |init| ensures !WritesCode(init[k]) {
          assert init[k] == invs[k];
        }
      }
      CodeFromLastWriter(s, init, j);
    }
  }

  /** With no invocation writing it, a run leaves the execution result as it was. */
  lemma {:induction false} ExecutionKept(s: PageState, invs: seq<Invocation>)
    requires NoExecutionWriter(invs)
    ensures Run(s, invs).execution == s.execution
    decreases |invs|
  {
    if invs != [] {
      var init := invs[..|invs| - 1];
      assert NoExecutionWriter(init) by {
        forall k | 0 <= k < |init| ensures !WritesExecution(init[k]) {
          assert init[k] == invs[k];
        }
      }
      ExecutionKept(s, init);
    }
  }

  /**
   * The execution result after a run is the result of the last completed
   * `executeCode` invocation that has one.
   */
  lemma {:induction false} ExecutionFromLastWriter(s: PageState, invs: seq<Invocation>, j: int)
    requires LastExecutionWriter(invs, j)
    ensures Run(s, invs).execution == invs[j].result
    decreases |invs|
  {
    var init := invs[..|invs| - 1];
    if j < |invs| - 1 {
      assert !WritesExecution(invs[|invs| - 1]);
      assert LastExecutionWriter(init, j) by {
        forall k | j < k < |init| ensures !WritesExecution(init[k]) {
          assert init[k] == invs[k];
        }
      }
      ExecutionFromLastWriter(s, init, j);
    }
  }

  /**
   * For the whole chat: the code is the `newCode` of the last considered
   * invocation that writes it (unchanged if none), and likewise the
   * execution result.
   */
  lemma PageIsLastWriter(s: PageState, messages: seq<Message>)
    ensures var invs := Considered(messages);
            && (NoCodeWriter(invs) ==> RunMessages(s, messages).code == s.code)
            && (forall j :: LastCodeWriter(invs, j) ==> RunMessages(s, messages).code == invs[j].result.value.newCode)
            && (NoExecutionWriter(invs) ==> RunMessages(s, messages).execution == s.execution)
            && (forall j :: LastExecutionWriter(invs, j) ==> RunMessages(s, messages).execution == invs[j].result)
  {
    var invs := Considered(messages);
    RunMessagesIsRunConsidered(s, messages);
    if NoCodeWriter(invs) {
      CodeKept(s, invs);
    }
    if NoExecutionWriter(invs) {
      ExecutionKept(s, invs);
    }
    forall j | LastCodeWriter(invs, j)
      ensures RunMessages(s, messages).code == invs[j].result.value.newCode
    {
      CodeFromLastWriter(s, invs, j);
    }
    forall j | LastExecutionWriter(invs, j)
      ensures RunMessages(s, messages).execution == invs[j].result
    {
      ExecutionFromLastWriter(s, invs, j);
    }
  }

  /** Messages from the user and other roles, and invocations not yet in state `'result'`, never matter. */
  lemma {:induction false} ConsideredOnlyAssistantResults(messages: seq<Message>)
    ensures forall k :: 0 <= k < |Considered(messages)| ==> Considered(messages)[k].state == ResultState
    ensures forall inv :: inv in Considered(messages) ==>
              exists i :: 0 <= i < |messages| && messages[i].role == Assistant && inv in messages[i].toolInvocations
    decreases |messages|
  {
    if messages != [] {
      var init := messages[..|messages| - 1];
      var last := messages[|messages| - 1];
      ConsideredOnlyAssistantResults(init);
      var extra := if last.role == Assistant then Completed(last.toolInvocations) else [];
      assert Considered(messages) == Considered(init) + extra;
      forall inv | inv in Considered(messages)
        ensures exists i :: 0 <= i < |messages| && messages[i].role == Assistant && inv in messages[i].toolInvocations
      {
        if inv in Considered(init) {
          var i :| 0 <= i < |init| && init[i].role == Assistant && inv in init[i].toolInvocations;
          assert messages[i] == init[i];
        } else {
          assert inv in extra;
          var k :| 0 <= k < |extra| && extra[k] == inv;
          assert messages[|messages| - 1] == last;
        }
      }
    }
  }

  /** What the preview pane shows. */
  datatype PreviewPane = Frame(html: string) | ErrorPane(error: string) | FailurePane(result: ToolResult) | Placeholder

  /** `executionResult?.results?.outputs?.[0]?.type === 'html'`. */
  predicate HasHtmlOutput(exec: Option<ToolResult>) {
    exec.Some? && exec.value.Executed? && |exec.value.outputs| > 0 && exec.value.outputs[0].kind == "html"
  }

  /** `executionResult?.error`, as a string (`''` when absent). */
  function ErrorOf(exec: Option<ToolResult>): string {
    if exec.Some? && (exec.value.Failed? || exec.value.Refused?) then exec.value.error else ""
  }

  /**
   * The preview branch, tried in order: an iframe of the first output when it
   * is HTML, else the error text when there is one, else the raw result when
   * it does not report success, else the placeholder.
   */
  function PreviewBranch(exec: Option<ToolResult>): (p: PreviewPane)
    ensures p.Frame? <==> HasHtmlOutput(exec)
    ensures p.Frame? ==> p.html == exec.value.outputs[0].html
    ensures p.ErrorPane? <==> !HasHtmlOutput(exec) && ErrorOf(exec) != ""
    ensures p.ErrorPane? ==> p.error == ErrorOf(exec)
    ensures p.FailurePane? ==> exec == Some(p.result)
    ensures p.FailurePane? <==> exec.Some? && (exec.value.Failed? || exec.value.Refused?) && ErrorOf(exec) == ""
    ensures p.Placeholder? <==> exec.None? || exec.value.Saved? || (exec.value.Executed? && !HasHtmlOutput(exec))
  {
    if HasHtmlOutput(exec) then Frame(exec.value.outputs[0].html)
    else if ErrorOf(exec) != "" then ErrorPane(ErrorOf(exec))
    else if exec.Some? && (exec.value.Failed? || exec.value.Refused?) then FailurePane(exec.value)
    else Placeholder
  }

  /**
   * Executing stored code through the preview route puts exactly that code
   * in the iframe; executing with an empty store shows the refusal text.
   */
  lemma PreviewShowsExecutedCode(code: string, message: string)
    ensures var response := PreviewRoute.Post(Success(Some(code)));
            code != "" ==> PreviewBranch(Some(Executed(message, response.outputs))) == Frame(code)
    ensures PreviewBranch(Some(Refused(NoCode))) == ErrorPane(NoCode)
  {
  }

  class Builder {
    var currentCode: string
    var executionResult: Option<ToolResult>

    constructor ()
      ensures currentCode == "" && executionResult == None
    {
      currentCode := "";
      executionResult := None;
    }

    function State(): PageState
      reads this
    {
      PageState(currentCode, executionResult)
    }

    /** `isClearButtonVisible`, kept equal to `!!currentCode` by its effect. */
    function ClearButtonVisible(): (visible: bool)
      reads this
      ensures visible <==> |currentCode| > 0
    {
      currentCode != ""
    }

    /** `clearAll`: local state is reset only once the server reports the store cleared. */
    method ClearAll(serverOk: bool)
      modifies this
      ensures serverOk ==> currentCode == "" && executionResult == None && !ClearButtonVisible()
      ensures !serverOk ==> currentCode == old(currentCode) && executionResult == old(executionResult)
    {
      if serverOk {
        currentCode := "";
        executionResult := None;
      }
    }

    /**
     * `processMessages`: every message, every invocation, in order; the
     * completed ones of assistant messages update the code and the result.
     */
    method ProcessMessages(messages: seq<Message>)
      modifies this
      ensures State() == RunMessages(old(State()), messages)
    {
      for i := 0 to |messages|
        invariant State() == RunMessages(old(State()), messages[..i])
      {
        var message := messages[i];
        assert messages[..i + 1][..i] == messages[..i];
        if message.role == Assistant {
          ghost var before := State();
          var invocations := message.toolInvocations;
          for j := 0 to |invocations|
            invariant State() == Run(before, invocations[..j])
          {
            var invocation := invocations[j];
            assert invocations[..j + 1][..j] == invocations[..j];
            if invocation.state == ResultState {
              if SetsCode(invocation) {
                currentCode := invocation.result.value.newCode;
              } else if SetsExecution(invocation) {
                executionResult := invocation.result;
              }
            }
          }
          assert invocations[..|invocations|] == invocations;
        }
      }
      assert messages[..|messages|] == messages;
    }
  }
}
