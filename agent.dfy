/** The control loop of one audit run (agent.py, lines 55-120): the history starts with
    the system prompt and the audit request; each iteration asks the model, appends its
    reply, stops on a reply without tool calls, and otherwise appends one ToolMessage per
    tool call, in request order; after at most MaxIterations iterations the loop ends and
    reports whether the bound was reached. */
module Agent {
  import opened Messages
  import opened ToolResults

  const MaxIterations: nat := 10
  const AuditRequestPrefix: string := "Audit this URL: "

  /** The model: given the whole history, it replies or raises. */
  type ModelOracle = seq<Message> -> ModelReply

  /** The tool gateway: the outcome of one call. The history passed with it stands for
      the external state the tool provider has reached by that point of the run. */
  type ToolGateway = (seq<Message>, ToolCall) -> CallOutcome

  function InitialHistory(prompt: string, target: string): seq<Message>
  {
    [SystemMessage(prompt), HumanMessage(AuditRequestPrefix + target)]
  }

  /** The ToolMessages appended, one per call, when the history before the first of them is `history`. */
  function Dispatched(gateway: ToolGateway, history: seq<Message>, calls: seq<ToolCall>): (r: seq<Message>)
    ensures |r| == |calls|
    decreases |calls|
  {
    if calls == [] then []
    else
      var m := ToolMessage(Normalised(gateway(history, calls[0])), calls[0].id, calls[0].name);
      [m] + Dispatched(gateway, history + [m], calls[1..])
  }

  /** How the loop ended: the bound was hit without a final answer, the model gave a
      final answer, or invoking the model raised. */
  datatype LoopExit = NoFinalAnswer | FinalAnswer(report: string) | ModelFailure(error: string)

  datatype LoopState = LoopState(history: seq<Message>, iteration: nat, exit: LoopExit)

  /** The outcome of the run: the report (if the model gave one) and whether the
      "max iterations reached" diagnostic is given; or the model's exception, which
      ends the run before that check. */
  datatype Outcome =
    | Completed(report: Option<string>, maxIterationsReached: bool)
    | Crashed(error: string)

  /** The loop, run from `history` with the counter at `iteration`. */
  function RunLoop(ask: ModelOracle, gateway: ToolGateway, history: seq<Message>, iteration: nat): LoopState
    decreases MaxIterations - iteration
  {
    if iteration >= MaxIterations then LoopState(history, iteration, NoFinalAnswer)
    else
      var n := iteration + 1;
      match ask(history)
      case Failed(e) => LoopState(history, n, ModelFailure(e))
      case Reply(content, calls) =>
        var h := history + [AssistantMessage(content, calls)];
        if calls == [] then LoopState(h, n, FinalAnswer(content))
        else RunLoop(ask, gateway, h + Dispatched(gateway, h, calls), n)
  }

  /** The post-loop check: the diagnostic is given whenever the counter reached the bound. */
  function OutcomeOf(s: LoopState): Outcome
  {
    match s.exit
    case ModelFailure(e) => Crashed(e)
    case FinalAnswer(r) => Completed(Some(r), s.iteration >= MaxIterations)
    case NoFinalAnswer => Completed(None, s.iteration >= MaxIterations)
  }

  // ----- The loop state as the source keeps it -----

  class AuditRun {
    var messages: seq<Message>
    var iteration: nat

    constructor (prompt: string, target: string)
      ensures messages == InitialHistory(prompt, target) && iteration == 0
    {
      messages := InitialHistory(prompt, target);
      iteration := 0;
    }

    /** Execute the calls one after another and append their results in request order. */
    method DispatchToolCalls(gateway: ToolGateway, calls: seq<ToolCall>)
      modifies this
      ensures messages == old(messages) + Dispatched(gateway, old(messages), calls)
      ensures iteration == old(iteration)
    {
      ghost var goal := messages + Dispatched(gateway, messages, calls);
      for i := 0 to |calls|
        invariant messages + Dispatched(gateway, messages, calls[i..]) == goal
        invariant iteration == old(iteration)
      {
        assert calls[i..][0] == calls[i] && calls[i..][1..] == calls[i + 1..];
        var call := calls[i];
        var content := NormaliseResult(gateway(messages, call));
        messages := messages + [ToolMessage(content, call.id, call.name)];
      }
      assert calls[|calls|..] == [];
    }

    /** Run the loop until a final answer, a model failure or the iteration bound. */
    method Run(ask: ModelOracle, gateway: ToolGateway) returns (outcome: Outcome)
      modifies this
      ensures var s := RunLoop(ask, gateway, old(messages), old(iteration));
                messages == s.history && iteration == s.iteration && outcome == OutcomeOf(s)
    {
      ghost var goal := RunLoop(ask, gateway, messages, iteration);
      var report: Option<string> := None;
      while iteration < MaxIterations
        invariant RunLoop(ask, gateway, messages, iteration) == goal
        invariant report == None
        decreases MaxIterations - iteration
      {
        iteration := iteration + 1;
        var reply := ask(messages);
        if reply.Failed? {
          outcome := Crashed(reply.error);
          return;
        }
        messages := messages + [AssistantMessage(reply.content, reply.toolCalls)];
        if reply.toolCalls == [] {
          report := Some(reply.content);
          assert goal == LoopState(messages, iteration, FinalAnswer(reply.content));
          break;
        }
        DispatchToolCalls(gateway, reply.toolCalls);
      }
      outcome := Completed(report, iteration >= MaxIterations);
    }
  }

  /** The whole audit: set up the history, run the loop, and give back the outcome and the
      history the run built. */
  method RunAudit(prompt: string, target: string, ask: ModelOracle, gateway: ToolGateway)
    returns (outcome: Outcome, history: seq<Message>)
    ensures InitialHistory(prompt, target) <= history
    ensures ValidExchanges(history[2..])
    ensures AssistantCount(history) <= MaxIterations
    ensures history == RunLoop(ask, gateway, InitialHistory(prompt, target), 0).history
    ensures outcome == OutcomeOf(RunLoop(ask, gateway, InitialHistory(prompt, target), 0))
    ensures outcome.Completed? && outcome.report.Some? ==>
              history[|history| - 1] == AssistantMessage(outcome.report.value, [])
  {
    ghost var init := InitialHistory(prompt, target);
    ghost var s := RunLoop(ask, gateway, init, 0);
    var run := new AuditRun(prompt, target);
    outcome := run.Run(ask, gateway);
    history := run.messages;
    assert history == s.history && outcome == OutcomeOf(s);
    LoopAppendsExchanges(ask, gateway, init, 0);
    FinalAnswerIsLast(ask, gateway, init, 0);
    LoopBounded(ask, gateway, init, 0);
    assert AssistantCount(init) == 0 by {
      var human := [HumanMessage(AuditRequestPrefix + target)];
      assert init[1..] == human && human[1..] == [];
      assert AssistantCount(human) == 0;
    }
  }

  // ----- Properties of the loop -----

  /** The i-th appended message answers the i-th call: it carries the call's identifier and
      name, and the normalised outcome of that call made after the i earlier results. */
  lemma {:induction false} DispatchedAt(gateway: ToolGateway, history: seq<Message>, calls: seq<ToolCall>, i: nat)
    requires i < |calls|
    ensures var r := Dispatched(gateway, history, calls);
              Answers(r[i], calls[i]) &&
              r[i] == ToolMessage(Normalised(gateway(history + r[..i], calls[i])), calls[i].id, calls[i].name)
    decreases i
  {
    var r := Dispatched(gateway, history, calls);
    if i == 0 {
      assert history + r[..0] == history;
    } else {
      var m := r[0];
      var tail := Dispatched(gateway, history + [m], calls[1..]);
      DispatchedAt(gateway, history + [m], calls[1..], i - 1);
      assert tail == r[1..];
      assert tail[i - 1] == r[i] && calls[1..][i - 1] == calls[i];
      assert history + [m] + tail[..i - 1] == history + r[..i];
    }
  }

  /** Dispatching appends no assistant message. */
  lemma {:induction false} DispatchedHasNoReply(gateway: ToolGateway, history: seq<Message>, calls: seq<ToolCall>)
    ensures AssistantCount(Dispatched(gateway, history, calls)) == 0
    decreases |calls|
  {
    if calls != [] {
      var r := Dispatched(gateway, history, calls);
      DispatchedHasNoReply(gateway, history + [r[0]], calls[1..]);
      assert r[1..] == Dispatched(gateway, history + [r[0]], calls[1..]);
    }
  }

  /** The counter never passes the bound, and every iteration adds exactly one model reply
      to the history, except one whose model invocation raised. */
  lemma {:induction false} LoopBounded(ask: ModelOracle, gateway: ToolGateway, history: seq<Message>, iteration: nat)
    requires iteration <= MaxIterations
    ensures var s := RunLoop(ask, gateway, history, iteration);
              iteration <= s.iteration <= MaxIterations &&
              AssistantCount(s.history) + (if s.exit.ModelFailure? then 1 else 0) ==
                AssistantCount(history) + (s.iteration - iteration)
    decreases MaxIterations - iteration
  {
    var s := RunLoop(ask, gateway, history, iteration);
    if iteration == MaxIterations {
      assert s == LoopState(history, iteration, NoFinalAnswer);
    } else if ask(history).Failed? {
      assert s == LoopState(history, iteration + 1, ModelFailure(ask(history).error));
    } else {
      var reply := ask(history);
      var a := AssistantMessage(reply.content, reply.toolCalls);
      var h := history + [a];
      AssistantCountAppend(history, [a]);
      assert AssistantCount([a]) == 1;
      if reply.toolCalls == [] {
        assert s == LoopState(h, iteration + 1, FinalAnswer(reply.content));
      } else {
        var d := Dispatched(gateway, h, reply.toolCalls);
        RunLoopDelegates(ask, gateway, history, iteration);
        assert s == RunLoop(ask, gateway, h + d, iteration + 1);
        AssistantCountAppend(h, d);
        DispatchedHasNoReply(gateway, h, reply.toolCalls);
        LoopBounded(ask, gateway, h + d, iteration + 1);
      }
    }
  }

  /** Every appended message answers the call at its position. */
  lemma DispatchedAnswers(gateway: ToolGateway, history: seq<Message>, calls: seq<ToolCall>)
    ensures var r := Dispatched(gateway, history, calls);
              forall i :: 0 <= i < |calls| ==> Answers(r[i], calls[i])
  {
    forall i | 0 <= i < |calls|
      ensures Answers(Dispatched(gateway, history, calls)[i], calls[i])
    {
      DispatchedAt(gateway, history, calls, i);
    }
  }

  /** An iteration whose reply asks for tools appends the reply and its results and goes on. */
  lemma RunLoopDelegates(ask: ModelOracle, gateway: ToolGateway, history: seq<Message>, iteration: nat)
    requires iteration < MaxIterations && ask(history).Reply? && ask(history).toolCalls != []
    ensures var h := history + [AssistantMessage(ask(history).content, ask(history).toolCalls)];
              RunLoop(ask, gateway, history, iteration) ==
                RunLoop(ask, gateway, h + Dispatched(gateway, h, ask(history).toolCalls), iteration + 1)
  {
  }

  /** The loop only appends to the history, and what it appends is a sequence of valid
      exchanges: each reply followed by one answering message per tool call, in order. */
  lemma {:induction false} LoopAppendsExchanges(ask: ModelOracle, gateway: ToolGateway, history: seq<Message>, iteration: nat)
    ensures var s := RunLoop(ask, gateway, history, iteration);
              history <= s.history && ValidExchanges(s.history[|history|..])
    decreases MaxIterations - iteration
  {
    var s := RunLoop(ask, gateway, history, iteration);
    if iteration >= MaxIterations || ask(history).Failed? {
      assert s.history == history;
      assert history[|history|..] == [];
    } else if ask(history).toolCalls == [] {
      var a := AssistantMessage(ask(history).content, []);
      assert s.history == history + [a];
      assert s.history[|history|..] == [a];
      assert [a][1..] == [] && ValidExchanges([]);
      assert ValidExchanges([a]);
    } else {
      var reply := ask(history);
      var a := AssistantMessage(reply.content, reply.toolCalls);
      var h := history + [a];
      var d := Dispatched(gateway, h, reply.toolCalls);
      RunLoopDelegates(ask, gateway, history, iteration);
      assert s == RunLoop(ask, gateway, h + d, iteration + 1);
      LoopAppendsExchanges(ask, gateway, h + d, iteration + 1);
      DispatchedAnswers(gateway, h, reply.toolCalls);
      var rest := s.history[|h + d|..];
      assert s.history[|history|..] == [a] + d + rest;
      ExchangeStep(a, d, rest);
    }
  }

  /** A final answer is the last message of the history, and it makes no tool call. */
  lemma {:induction false} FinalAnswerIsLast(ask: ModelOracle, gateway: ToolGateway, history: seq<Message>, iteration: nat)
    ensures var s := RunLoop(ask, gateway, history, iteration);
              s.exit.FinalAnswer? ==>
                |s.history| > |history| && s.history[|s.history| - 1] == AssistantMessage(s.exit.report, [])
    decreases MaxIterations - iteration
  {
    var s := RunLoop(ask, gateway, history, iteration);
    if iteration >= MaxIterations {
      assert s.exit == NoFinalAnswer;
    } else if ask(history).Failed? {
      assert s.exit.ModelFailure?;
    } else if ask(history).toolCalls == [] {
      var a := AssistantMessage(ask(history).content, []);
      PlainReplyEnds(ask, gateway, history, iteration, a.content);
      assert s.history == history + [a] && s.exit.report == a.content;
    } else {
      var reply := ask(history);
      var h := history + [AssistantMessage(reply.content, reply.toolCalls)];
      var next := h + Dispatched(gateway, h, reply.toolCalls);
      RunLoopDelegates(ask, gateway, history, iteration);
      assert s == RunLoop(ask, gateway, next, iteration + 1);
      FinalAnswerIsLast(ask, gateway, next, iteration + 1);
    }
  }

  /** A reply without tool calls, at any iteration before the bound, ends the loop there:
      the reply is the last message appended and its text is the final answer. */
  lemma PlainReplyEnds(ask: ModelOracle, gateway: ToolGateway, history: seq<Message>, iteration: nat, content: string)
    requires iteration < MaxIterations && ask(history) == Reply(content, [])
    ensures RunLoop(ask, gateway, history, iteration) ==
              LoopState(history + [AssistantMessage(content, [])], iteration + 1, FinalAnswer(content))
  {
  }

  /** The loop ends without a final answer only when the counter has reached the bound, so
      a run that completes without a report always gives the diagnostic. */
  lemma {:induction false} NoAnswerMeansExhausted(ask: ModelOracle, gateway: ToolGateway, history: seq<Message>, iteration: nat)
    requires iteration <= MaxIterations
    ensures var s := RunLoop(ask, gateway, history, iteration);
              s.exit == NoFinalAnswer ==> s.iteration == MaxIterations
    ensures OutcomeOf(RunLoop(ask, gateway, history, iteration)) != Completed(None, false)
    decreases MaxIterations - iteration
  {
    var s := RunLoop(ask, gateway, history, iteration);
    if iteration == MaxIterations {
      assert s == LoopState(history, iteration, NoFinalAnswer);
    } else if ask(history).Failed? {
      assert s.exit.ModelFailure?;
    } else if ask(history).toolCalls == [] {
      assert s.exit.FinalAnswer?;
    } else {
      var reply := ask(history);
      var h := history + [AssistantMessage(reply.content, reply.toolCalls)];
      var next := h + Dispatched(gateway, h, reply.toolCalls);
      RunLoopDelegates(ask, gateway, history, iteration);
      assert s == RunLoop(ask, gateway, next, iteration + 1);
      NoAnswerMeansExhausted(ask, gateway, next, iteration + 1);
    }
  }

  /** A model that requests tools on every reply exhausts the loop: no report is produced
      and the diagnostic is given. */
  lemma {:induction false} AlwaysDelegatingExhausts(ask: ModelOracle, gateway: ToolGateway, history: seq<Message>, iteration: nat)
    requires iteration <= MaxIterations
    requires forall h :: ask(h).Reply? && ask(h).toolCalls != []
    ensures RunLoop(ask, gateway, history, iteration).exit == NoFinalAnswer
    ensures RunLoop(ask, gateway, history, iteration).iteration == MaxIterations
    ensures OutcomeOf(RunLoop(ask, gateway, history, iteration)) == Completed(None, true)
    decreases MaxIterations - iteration
  {
    if iteration < MaxIterations {
      var reply := ask(history);
      var h := history + [AssistantMessage(reply.content, reply.toolCalls)];
      var next := h + Dispatched(gateway, h, reply.toolCalls);
      RunLoopDelegates(ask, gateway, history, iteration);
      AlwaysDelegatingExhausts(ask, gateway, next, iteration + 1);
    }
  }

  /** A failing tool call does not stop the run: its message holds the error text and the
      loop goes on to the next iteration exactly as after a successful call. */
  lemma ToolFailureContained(ask: ModelOracle, gateway: ToolGateway, history: seq<Message>, iteration: nat,
                             content: string, calls: seq<ToolCall>, i: nat, e: string)
    requires iteration < MaxIterations
    requires ask(history) == Reply(content, calls) && i < |calls|
    requires var h := history + [AssistantMessage(content, calls)];
             gateway(h + Dispatched(gateway, h, calls)[..i], calls[i]) == Raised(e)
    ensures var h := history + [AssistantMessage(content, calls)];
            var d := Dispatched(gateway, h, calls);
              d[i] == ToolMessage(ErrorPrefix + e, calls[i].id, calls[i].name) &&
              RunLoop(ask, gateway, history, iteration) == RunLoop(ask, gateway, h + d, iteration + 1)
  {
    var h := history + [AssistantMessage(content, calls)];
    DispatchedAt(gateway, h, calls, i);
  }

  /** A first reply without tool calls ends the run at iteration 1 with that reply's text
      as the report, and nothing is appended after it. */
  lemma PlainFirstReply(ask: ModelOracle, gateway: ToolGateway, prompt: string, target: string, content: string)
    requires ask(InitialHistory(prompt, target)) == Reply(content, [])
    ensures RunLoop(ask, gateway, InitialHistory(prompt, target), 0) ==
              LoopState(InitialHistory(prompt, target) + [AssistantMessage(content, [])], 1, FinalAnswer(content))
    ensures OutcomeOf(RunLoop(ask, gateway, InitialHistory(prompt, target), 0)) == Completed(Some(content), false)
  {
  }

  /** A final answer given on the last iteration also triggers the diagnostic. */
  lemma FinalAnswerOnLastIteration(ask: ModelOracle, gateway: ToolGateway, history: seq<Message>, content: string)
    requires ask(history) == Reply(content, [])
    ensures OutcomeOf(RunLoop(ask, gateway, history, MaxIterations - 1)) == Completed(Some(content), true)
  {
  }
}
