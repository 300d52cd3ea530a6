# Realzen agent: property search and agent routing in Dafny

The Realzen agent connects a chat model to two tools in a graph-based agent
framework. This project models the agent's own deterministic logic and proves
properties about it. The model has three modules:

- `Wrappers` (`wrappers.dfy`) holds the `Option` and `Result` datatypes.
- `Tools` (`tools.dfy`) models the property-search tool
  `search_for_properties_by_location`. It starts from a table of seven
  property-type flags, all set to `"false"`. A loop sets each requested type to
  `"true"` (`BuildPropertyTypes`, a method specified by the recursive function
  `ApplyTypes`). The query merges `location`, `output=json`, the flag table and
  the caller's extra parameters, and later sources win (`BuildQuery`). The
  upstream result list is cut with Python's `[:limit]` slice, so a negative
  limit counts from the end (`Truncate`). The HTTP request is the parameter
  `fetch`. Given a query, it returns the response's `results` list, or `None`
  when the response has no such field. That case is the tool's `KeyError`.
- `Graph` (`graph.dfy`) models `route_model_output` and the graph's edges.
  Routing is a pure function of the last message. It fails on an empty list,
  which is Python's `IndexError` on `[-1]`. It fails on a last message that is
  not an AI message, which is the `ValueError`. Otherwise it returns `__end__`
  when the message has no tool calls and `tools` when it has some. The edges
  are the function `Next`. `__start__` and `tools` go to `call_model`,
  `call_model` goes where routing says, and nothing follows `__end__`. The
  lemma `RunShape` proves that every run alternates between `call_model` and
  `tools`/`__end__`.

Keyword arguments are modelled as a `map<string, string>`. Python refuses a
keyword argument that repeats a named parameter, so `location`, `types` and
`config` never appear among them (`ValidExtras`). As a result, the only way to
replace the `location` entry of the query is a requested type literally named
`location`. `QueryFlags` states this.

The rows below rely on a few definitions that have no row of their own:
`ApplyTypes` (the loop at realzen_agent/utils/tools.py:48-49 as a fold over
`types`, from any starting table), `FlagsFor` (that fold from the seven
switched-off flags), `ValidExtras` (Python's keyword-binding rule),
`SliceEnd` (the end index of `[:limit]`), `StepsTo` (one edge of the graph
given the conversation) and `ValidRun` (a sequence of nodes from
`__start__`, each with the conversation after it ran, joined by edges).

## Model

| member | source | states |
|---|---|---|
| `Tools.InitialPropertyTypes` | realzen_agent/utils/tools.py:39-47 | the starting table has exactly the seven known property-type keys, each `"false"` |
| `Tools.ApplyTypesAt` | realzen_agent/utils/tools.py:48-49 | after the loop a key is present iff it was present before or was requested; a requested key is `"true"`, any other key keeps its value from the starting table |
| `Tools.ApplyTypesAll` | realzen_agent/utils/tools.py:48-49 | the table's keys are the old keys plus the requested types; every requested type is `"true"`; every other key keeps its value |
| `Tools.BuildPropertyTypes` | realzen_agent/utils/tools.py:39-49 | the loop yields the reference table: keys are the seven known flags plus the requested types, requested ones `"true"`, known unrequested ones `"false"` |
| `Tools.UnknownTypeAdded` | realzen_agent/utils/tools.py:48-49 | a requested name outside the seven known flags is not rejected; it becomes a new key set to `"true"` |
| `Tools.KnownFlagOnIffRequested` | realzen_agent/utils/tools.py:39-49 | a known flag is `"true"` exactly when requested and `"false"` exactly when not |
| `Tools.DefaultTypesFlags` | realzen_agent/utils/tools.py:15-49 | with the default `types`, the table holds only the seven known flags and exactly `isSingleFamily` is `"true"` |
| `Tools.ApplyTypesSetOnly` | realzen_agent/utils/tools.py:48-49 | two requests with the same elements give the same table, whatever their order or repetitions |
| `Tools.DuplicateTypeIgnored` | realzen_agent/utils/tools.py:48-49 | requesting an already requested type again leaves the table unchanged |
| `Tools.PermutedTypesSameFlags` | realzen_agent/utils/tools.py:48-49 | a reordering of the requested types gives the same table |
| `Tools.ApplyTypesIdempotent` | realzen_agent/utils/tools.py:48-49 | switching the same types on a second time changes nothing |
| `Tools.BuildQuery` | realzen_agent/utils/tools.py:55-60 | query keys are `location`, `output` and the keys of flags and extras; extras win over flags, flags over the two base entries, which keep `location` and `"json"` when nobody overrides them |
| `Tools.QueryFlags` | realzen_agent/utils/tools.py:39-60 | in the query sent, each known flag not overridden by extras is `"true"` iff requested and `"false"` iff not requested; each requested type not overridden by extras is `"true"`; `location` is the caller's unless a type named `location` was requested |
| `Tools.Truncate` | realzen_agent/utils/tools.py:68 | the result is a prefix of the upstream results (order kept); a non-negative limit keeps `min(len, limit)` elements, a negative limit drops the last `min(len, -limit)` elements |
| `Tools.TruncateTwice` | realzen_agent/utils/tools.py:68 | for non-negative `a` and `b`, cutting to `a` and then to `b` is cutting to the smaller of the two (a negative limit does not compose this way) |
| `Tools.SearchForPropertiesByLocation` | realzen_agent/utils/tools.py:12-69 | in the query sent, each known flag not overridden by extras is `"true"` iff requested and `"false"` iff not, and `location` is the caller's unless a type is named `location`; the outcome is an error exactly when the response has no `results`, and otherwise those results cut to the limit |
| `Graph.NodeName` | realzen_agent/graph.py:22-27 | each node has its own distinct name: `__start__`, `call_model`, `tools`, `__end__` |
| `Graph.RouteModelOutput` | realzen_agent/graph.py:30-50 | an empty list or a last message that is not an AI message is an error and selects no node; otherwise `__end__` iff the last message has no tool calls and `tools` iff it has at least one |
| `Graph.RoutingSeesOnlyLast` | realzen_agent/graph.py:41 | messages before the last never change the routing result |
| `Graph.Next` | realzen_agent/graph.py:27-63 | `__start__` and `tools` always go to `call_model`; `call_model` goes where routing says or fails with its error; only `__end__` halts; nothing goes back to `__start__` |
| `Graph.CallModelSuccessors` | realzen_agent/graph.py:54-63 | `__end__` and `tools` are entered only from `call_model`, and `call_model` only from `__start__` or `tools` |
| `Graph.RunShape` | realzen_agent/graph.py:27-63 | in every run from `__start__`, `call_model` runs at exactly the odd steps, `tools` or `__end__` at the even steps after the start, and `__end__` only as the last step |
| `Graph.ToolsOnlyAfterToolCalls` | realzen_agent/graph.py:47-63 | in a run, `tools` comes right after `call_model`, when the last message was an AI message with at least one tool call |
| `Graph.EndOnlyAfterFinalAnswer` | realzen_agent/graph.py:46-59 | in a run, `__end__` comes right after `call_model`, when the last message was an AI message with no tool calls |

## Left out

- The HTTP GET, the request headers and JSON decoding (realzen_agent/utils/tools.py:54, 62-67) are network I/O. The response is the parameter `fetch`, and only a missing `results` field is modelled as an error. Transport failures and a body that is not JSON are not modelled.
- The read of the `RAPIDAPI_KEY` environment variable (realzen_agent/utils/tools.py:63) is ambient state. The `KeyError` raised when it is missing is not modelled.
- `Configuration.from_runnable_config` (realzen_agent/utils/tools.py:51) is not part of this model. The configured `max_search_results` is the `limit` parameter.
- Keyword-argument values are modelled as strings. How the HTTP client encodes other values, such as lists sent as repeated parameters, is not modelled.
- Python dictionaries keep insertion order, and that order sets the order of the parameters in the URL. The model uses `map`, so parameter order is not captured.
- `types` is a sequence of strings. Iterating over a bare string (one character per type) is not modelled.
- `calculate_cash_on_cash` (realzen_agent/utils/tools.py:72-107) is floating-point arithmetic, which this model does not cover.
- The `TOOLS` registration list and the `__main__` debug block (realzen_agent/utils/tools.py:110-126) are registration and file output.
- The graph framework is a foreign library and is not modelled. This covers `StateGraph`, `ToolNode`, graph compilation, interrupt settings, the model call in `call_model` and message appending. Only the routing function and the edge topology are modelled. Runs are arbitrary sequences of nodes and message lists that follow the edges.
