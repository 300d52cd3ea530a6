/**
 * The agent graph: the routing decision taken after the model has answered,
 * and the fixed wiring of the three nodes `__start__`, `call_model` and
 * `tools` (plus the end marker `__end__`) as a transition function.
 */
module Graph {
  import opened Wrappers

  /** A tool invocation the model asks for. */
  datatype ToolCall = ToolCall(name: string, args: map<string, string>, id: string)

  /** The kinds of message a conversation holds; only `AI` messages carry tool calls. */
  datatype Message =
    | Human(content: string)
    | System(content: string)
    | AI(content: string, toolCalls: seq<ToolCall>)
    | ToolResult(content: string, toolCallId: string)

  /** The nodes of the graph, `End` being the `__end__` marker. */
  datatype Node = Start | CallModel | Tools | End

  /** Why routing fails: `[-1]` on an empty list, or a last message that is not an AI message. */
  datatype RouteError = EmptyMessages | NotAnAIMessage(got: Message)

  /** The name under which the graph knows each node. */
  function NodeName(n: Node): (s: string)
    ensures s == "__start__" <==> n == Start
    ensures s == "call_model" <==> n == CallModel
    ensures s == "tools" <==> n == Tools
    ensures s == "__end__" <==> n == End
  {
    match n
    case Start => "__start__"
    case CallModel => "call_model"
    case Tools => "tools"
    case End => "__end__"
  }

  /**
   * The conditional edge out of `call_model`: look at the last message only;
   * fail unless it is an AI message; finish when it asks for no tool, run the
   * tools otherwise.
   */
  function RouteModelOutput(messages: seq<Message>): (r: Result<Node, RouteError>)
    ensures messages == [] <==> r == Err(EmptyMessages)
    ensures r.Ok? <==> messages != [] && messages[|messages| - 1].AI?
    ensures messages != [] && !messages[|messages| - 1].AI? ==>
      r == Err(NotAnAIMessage(messages[|messages| - 1]))
    ensures r == Ok(End) <==> messages != [] && messages[|messages| - 1].AI? && messages[|messages| - 1].toolCalls == []
    ensures r == Ok(Tools) <==> messages != [] && messages[|messages| - 1].AI? && |messages[|messages| - 1].toolCalls| > 0
    ensures r.Ok? ==> r.value == End || r.value == Tools
  {
    if messages == [] then Err(EmptyMessages)
    else
      var last := messages[|messages| - 1];
      if !last.AI? then Err(NotAnAIMessage(last))
      else if last.toolCalls == [] then Ok(End)
      else Ok(Tools)
  }

  /** Earlier messages never affect the routing decision. */
  lemma RoutingSeesOnlyLast(earlier: seq<Message>, other: seq<Message>, last: Message)
    ensures RouteModelOutput(earlier + [last]) == RouteModelOutput(other + [last])
    ensures RouteModelOutput(earlier + [last]) == RouteModelOutput([last])
  {
    assert (earlier + [last])[|earlier|] == last;
    assert (other + [last])[|other|] == last;
  }

  /** What the graph does after a node has run. */
  datatype Step = Goto(next: Node) | Halt | Fail(error: RouteError)

  /**
   * The edges: `__start__` and `tools` always lead to `call_model`,
   * `call_model` leads wherever routing on the current messages says,
   * and nothing follows `__end__`.
   */
  function Next(n: Node, messages: seq<Message>): (s: Step)
    ensures n == Start || n == Tools ==> s == Goto(CallModel)
    ensures n == End <==> s == Halt
    ensures n == CallModel ==>
      match RouteModelOutput(messages)
      case Ok(m) => s == Goto(m)
      case Err(e) => s == Fail(e)
    ensures s.Goto? ==> s.next != Start
  {
    match n
    case Start => Goto(CallModel)
    case Tools => Goto(CallModel)
    case End => Halt
    case CallModel =>
      match RouteModelOutput(messages)
      case Ok(m) => Goto(m)
      case Err(e) => Fail(e)
  }

  /** The step relation: `m` follows `n` when the messages are `messages`. */
  predicate StepsTo(n: Node, messages: seq<Message>, m: Node)
  {
    Next(n, messages) == Goto(m)
  }

  /** `call_model` is the only way into `__end__` and into `tools`, and it goes nowhere else. */
  lemma CallModelSuccessors(n: Node, messages: seq<Message>, m: Node)
    requires StepsTo(n, messages, m)
    ensures m == End || m == Tools <==> n == CallModel
    ensures m == CallModel <==> n == Start || n == Tools
  {
  }

  /**
   * A run of the graph: `states[i]` is the conversation after `nodes[i]`
   * ran, and each node is followed by the one the edges choose on it.
   */
  predicate ValidRun(nodes: seq<Node>, states: seq<seq<Message>>)
  {
    && |nodes| == |states|
    && |nodes| > 0
    && nodes[0] == Start
    && forall i :: 0 <= i < |nodes| - 1 ==> StepsTo(nodes[i], states[i], nodes[i + 1])
  }

  /**
   * Every run alternates: `call_model` at the odd positions, `tools` or
   * `__end__` at the even positions after the start, and `__end__` only last.
   */
  lemma {:induction false} RunShape(nodes: seq<Node>, states: seq<seq<Message>>)
    requires ValidRun(nodes, states)
    ensures forall i :: 0 <= i < |nodes| ==> (nodes[i] == CallModel <==> i % 2 == 1)
    ensures forall i :: 0 < i < |nodes| && i % 2 == 0 ==> nodes[i] == Tools || nodes[i] == End
    ensures forall i :: 0 <= i < |nodes| && nodes[i] == End ==> i == |nodes| - 1
    decreases |nodes|
  {
    if |nodes| > 1 {
      var k := |nodes| - 1;
      RunShape(nodes[..k], states[..k]);
      assert StepsTo(nodes[k - 1], states[k - 1], nodes[k]);
    }
  }

  /** `tools` runs only right after a model answer that asked for at least one tool. */
  lemma ToolsOnlyAfterToolCalls(nodes: seq<Node>, states: seq<seq<Message>>, i: nat)
    requires ValidRun(nodes, states)
    requires 0 < i < |nodes| && nodes[i] == Tools
    ensures nodes[i - 1] == CallModel
    ensures states[i - 1] != []
    ensures var last := states[i - 1][|states[i - 1]| - 1]; last.AI? && |last.toolCalls| > 0
  {
    assert StepsTo(nodes[i - 1], states[i - 1], nodes[i]);
  }

  /** A run ends in `__end__` only right after a model answer with no tool calls. */
  lemma EndOnlyAfterFinalAnswer(nodes: seq<Node>, states: seq<seq<Message>>, i: nat)
    requires ValidRun(nodes, states)
    requires 0 < i < |nodes| && nodes[i] == End
    ensures nodes[i - 1] == CallModel
    ensures states[i - 1] != []
    ensures var last := states[i - 1][|states[i - 1]| - 1]; last.AI? && last.toolCalls == []
  {
    assert StepsTo(nodes[i - 1], states[i - 1], nodes[i]);
  }
}
