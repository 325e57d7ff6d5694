# Fly Your Tech chatbot router — Dafny model

This project models the core of the Fly Your Tech chatbot backend. That core is a keyword router, `tool_router`, and the three "tools" it dispatches to:

- **Router** (`backend/graph.py`). It lowers the user's message and checks for keywords in a fixed priority order. `"lead"` or `"show"` sends the message to the lead tool. Otherwise `"meeting"` or `"schedule"` sends it to the scheduler. Anything else goes to the knowledge tool. The chosen tool gets the message as the user wrote it, not the lowered copy.
- **Knowledge tool** (`company_info_tool`, `backend/tools/knowledge_base.py`). It scans the company attributes in load order and answers `"key: value"` for the first key that occurs in the lowered message. The key itself is not lowered. If no key occurs, it answers with the whole mapping rendered as text.
- **Lead tool** (`lead_tool`, `backend/tools/leads.py`). If `"all"` occurs anywhere in the lowered message, it answers with the whole lead list. Otherwise it answers with the first lead whose lowered name occurs in the lowered message. If no name occurs, it answers `"No matching lead found"`.
- **Scheduler** (`schedule_meeting`, `backend/tools/scheduler.py`). It always answers `"Meeting scheduled successfully for tomorrow at 11 AM."`.

Modules, one per source component:

| file | module | models |
|---|---|---|
| `text.dfy` | `Text` | `str.lower()` (ASCII), and `needle in hay` for strings |
| `values.dfy` | `PyValues` | loaded JSON data as ordered entries, dict lookup, `str`/`repr` of values, dicts and lists, the exceptions a lookup can raise |
| `knowledge_base.dfy` | `KnowledgeBase` | `company_info_tool` |
| `leads.dfy` | `Leads` | `lead_tool` |
| `scheduler.dfy` | `Scheduler` | `schedule_meeting` |
| `graph.dfy` | `Graph` | `tool_router` and the dispatch to one tool |
| `scenarios.dfy` | `Scenarios` | four example exchanges with the chat endpoint, proved of the router, and the facts about words joined by spaces that their proofs use |

Modelling decisions:

- A Python dict iterates in insertion order, so a JSON object is an ordered sequence of `(key, value)` entries (`PyValues.Object`). It stands for the dict that `json.load` returns, in which a repeated key is already merged; see `PyValues.Object` under "Left out". The lead list is a `seq<Object>`. The data loaded at start-up is passed in explicitly as a `Graph.Store`.
- A JSON value is either a string or "anything else". For every non-string JSON value, `str(v)` and `repr(v)` are the same text, so one `Other(text)` constructor covers numbers, booleans, null, arrays and nested objects.
- `lead["name"].lower()` raises `KeyError` when a lead has no `"name"` and `AttributeError` when the name is not a string. Nothing in the code checks that every lead has a string name; the model follows the code. `Leads.Reply` returns `Err(fault)` exactly when the scan reaches such a lead before any match. It never raises when the message contains `"all"` or when an earlier lead already matched. When every lead has a string name (`Leads.AllNamed`), the result is always `Ok`.
- Every function is pure over the loaded data. The data is a value and nothing can change it, so "the mapping is read-only" holds by construction.

## Model

| member | source | states |
|---|---|---|
| Text.LowerChar | backend/graph.py:30 | one character of `str.lower()`: an ASCII capital becomes its small letter, every other character is kept, and the result is never a capital |
| Text.Lower | backend/graph.py:30 | lowering keeps the length, lowers each character in place, and leaves no capital letter |
| Text.LowerIdempotent | backend/graph.py:30 | lowering an already lowered message changes nothing |
| Text.Contains | backend/graph.py:33-36 | `needle in hay`: a needle that occurs is never longer than the text, and every text occurs in itself |
| Text.PrefixAndSuffixOccur | backend/tools/knowledge_base.py:11 | the start and the end of a message, of any length, occur in it |
| KnowledgeBase.KeyAtEitherEndIsFound | backend/tools/knowledge_base.py:10-12 | a key equal to the first or the last characters of the lowered message is found: the answer comes from that entry or an earlier one |
| Text.ContainsLower | backend/tools/leads.py:15 | if a name occurs in the message verbatim, the lowered name occurs in the lowered message |
| Text.OccursInLoweredIsLowered | backend/tools/knowledge_base.py:11 | anything that occurs in a lowered message has no capital letter |
| PyValues.Get | backend/tools/leads.py:15 | `lead["name"]` finds nothing exactly when no entry has that key; otherwise it finds the value of the first entry with that key |
| PyValues.RenderObject | backend/tools/knowledge_base.py:13 | `str(dict)` is brace-delimited text, and an empty dict renders as `{}` |
| PyValues.RenderList | backend/tools/leads.py:11 | `str(list)` is bracket-delimited text, and an empty list renders as `[]` |
| KnowledgeBase.FirstMatch | backend/tools/knowledge_base.py:10-12 | the scan from a position returns the first later entry whose key occurs in the lowered message, and nothing exactly when no such key exists |
| KnowledgeBase.SelectedKey | backend/tools/knowledge_base.py:10-11 | an entry is selected exactly when some key occurs in the lowered message, and it is the first such entry in insertion order |
| KnowledgeBase.Entry | backend/tools/knowledge_base.py:12 | `f"{key}: {value}"` is the key, then `: `, then `str` of the value, and each part can be read back from its position |
| KnowledgeBase.CompanyInfo | backend/tools/knowledge_base.py:9-13 | the answer is `key: str(value)` of the first entry whose key occurs in the lowered message, and the whole mapping rendered when no key occurs |
| KnowledgeBase.EarlierKeyShadows | backend/tools/knowledge_base.py:10-12 | once a key occurs, the answer comes from that entry or an earlier one, never a later one |
| KnowledgeBase.CapitalizedKeyNeverSelected | backend/tools/knowledge_base.py:11 | a key holding a capital letter never occurs in the lowered message, so it is never selected |
| KnowledgeBase.CapitalizedKeysFallThrough | backend/tools/knowledge_base.py:11-13 | if every key holds a capital letter, every message gets the whole mapping |
| KnowledgeBase.ValuesDoNotSelect | backend/tools/knowledge_base.py:10-11 | two mappings with the same keys in the same order scan to the same entry, whatever their values |
| KnowledgeBase.SelectionIgnoresValues | backend/tools/knowledge_base.py:10-11 | changing values never changes which key the tool selects |
| KnowledgeBase.CompanyInfoIgnoresCase | backend/tools/knowledge_base.py:11 | the tool answers a message and its lowered copy identically |
| Leads.NameOf | backend/tools/leads.py:15 | reading a lead's name gives `KeyError` exactly when the lead has no `"name"` entry, the name exactly when it is a string, and `AttributeError` otherwise |
| Leads.FirstHalt | backend/tools/leads.py:14-16 | the scan stops at the first lead that either matches or cannot be read, and runs to the end exactly when every lead is readable and none matches |
| Leads.Reply | backend/tools/leads.py:10-19 | for the lowered message: `"all"` anywhere gives the whole list, whatever the names; otherwise the first lead whose lowered name occurs, if every earlier lead was readable and did not match; a lead reached with no readable name raises that lead's fault; no match gives `"No matching lead found"` |
| Leads.LeadTool | backend/tools/leads.py:9-19 | the message is lowered before the `"all"` test, so `"All"` or `"ALL"` also gives the whole list; well-formed lead data never raises, and any fault raised is the fault of reading one of the leads |
| Leads.EarlierLeadShadows | backend/tools/leads.py:14-16 | with well-formed data, once lead `i` matches, the answer is a matching lead at position `i` or before, so a later duplicate name is never returned |
| Leads.EmptyNameMatchesEverything | backend/tools/leads.py:15-16 | a lead with an empty name matches every message without `"all"`, so the sentinel is never returned once such a lead exists, whatever the other leads hold; with well-formed lead data the answer is a lead at that position or before |
| Leads.AllInsideAWordDumps | backend/tools/leads.py:10-11 | a message holding any word that contains `"all"` (`"call"`, `"small"`) gets the whole list |
| Leads.NameFoundInAnyCase | backend/tools/leads.py:15 | a name written in the message in any letter case, matching the stored name in any letter case, is found |
| Leads.LeadToolIgnoresCase | backend/tools/leads.py:10-15 | the tool answers a message and its lowered copy identically |
| Scheduler.ScheduleMeeting | backend/tools/scheduler.py:6-7 | for every message, including the empty one, the reply is the fixed confirmation |
| Scheduler.InputIndependent | backend/tools/scheduler.py:6-7 | any two messages get the same reply |
| Graph.Route | backend/graph.py:30-40 | the lead tool exactly when the lowered message has `"lead"` or `"show"`; the scheduler exactly when it has `"meeting"` or `"schedule"` and neither lead keyword; the knowledge tool exactly when it has none of the four |
| Graph.Run | backend/graph.py:33-40 | of the three tools, only the lead tool can raise, for loaded data of the shape the code expects |
| Graph.ToolRouter | backend/graph.py:29-42 | exactly one tool runs, on the original message: the lead tool's answer for lead keywords, the fixed confirmation for meeting keywords, the knowledge tool's answer otherwise; only a lead-keyword message can raise, and never with well-formed lead data |
| Graph.LeadsBeforeMeetings | backend/graph.py:33-37 | a message with both `"show"` and `"meeting"` goes to the lead tool |
| Graph.EmptyQueryGoesToKnowledge | backend/graph.py:39-40 | the empty message goes to the knowledge tool |
| Graph.RouteIgnoresCase | backend/graph.py:30 | a message and its lowered copy are routed to the same tool |
| Graph.ForwardingOriginalIsUnobservable | backend/graph.py:30-40 | forwarding the lowered message instead of the original would give the same answer, and so does routing the lowered message |
| Scenarios.ShowAllLeads | backend/tools/leads.py:10-11 | "show me all leads" goes to the lead tool and gets the whole lead list |
| Scenarios.ScheduleAMeeting | backend/graph.py:36-37 | "can I schedule a meeting tomorrow" goes to the scheduler and gets the fixed confirmation |
| Scenarios.AskForAddress | backend/tools/knowledge_base.py:10-12 | "what is your address", with `{"address": "123 Main St"}` loaded, gets `address: 123 Main St` |
| Scenarios.SayHello | backend/tools/knowledge_base.py:13 | "hello", with `{"address": "123 Main St"}` loaded, gets the whole mapping rendered |

## Left out

- Text.Lower: lowers ASCII capitals only. Python's `str.lower()` also lowers non-ASCII letters, and for a few characters it changes the string's length. Every property here is stated for the ASCII lowering.
- PyValues.RenderObject: renders strings with single quotes and no escaping. Python's `repr` of a string uses double quotes when the string holds a single quote and no double quote; otherwise it uses single quotes and escapes each single quote inside. It also escapes backslashes and every non-printable character (as `\n`, `\t`, `\r`, or a `\x`, `\u` or `\U` code). No property depends on the exact text beyond the enclosing braces.
- PyValues.RenderList: same approximation as `PyValues.RenderObject` for the lead list.
- The HTTP layer (`backend/app.py`): Flask routing, CORS and JSON (de)serialisation are I/O. A request without `"message"` passes `None` to the router and crashes on `.lower()`. The model's query is always a string, so that crash is outside it.
- The Gemini client (`backend/graph.py:23`) is built but never used on the reply path.
- The LangGraph graph and `run_agent` (`backend/graph.py:48-64`): a single-node graph whose output is `tool_router`'s output. `Graph.ToolRouter` stands for both.
- Loading `data/company.json` and `data/leads.json` at import time is file I/O. The loaded data is a `Graph.Store` parameter instead. A file that is not valid JSON stops the process before any request, so it is not modelled.
- Graph.Store: assumes the shape the code expects, with the company data a JSON object and the lead data a JSON array. Valid JSON of another shape loads without error and can then fault at request time. A company array makes `company_data.items()` raise `AttributeError` on every knowledge query (`backend/tools/knowledge_base.py:10`). Lead data of another shape still gives the whole dump for a message holding `"all"` (`backend/tools/leads.py:10-11`). Without `"all"`, the outcome depends on the shape:
  - A non-empty leads object makes the loop walk its string keys, so `lead["name"]` raises `TypeError` (`backend/tools/leads.py:14-15`). A non-empty string does the same.
  - A number, boolean or null cannot be iterated, so the loop raises `TypeError` (`backend/tools/leads.py:14`).
  - An empty object or an empty string never enters the loop, so every such request gets `"No matching lead found"`.

  `Graph.Run`'s promise that only the lead tool can raise holds for the assumed shape only.
- PyValues.Object: holds each key once, as the dict after `json.load`. A file with a repeated key is merged by `json.load`: the key keeps its first position and takes its last value, so `{"phone": "1", "phone": "2"}` loads as `{'phone': '2'}`. An `Object` with two entries for one key is not such a dict. On one, `KnowledgeBase.CompanyInfo` answers from the first entry and `PyValues.RenderObject` renders both, so the model does not describe that input.
- Lead list elements that are not JSON objects (`lead["name"]` on a list or number raises `TypeError`) are outside the model: a lead is always an object.
- The langchain `Tool(...)` wrappers (`.run` adds callbacks and tracing around the function). The model calls the wrapped function directly.
- The React frontend (`frontend/src`): UI and an asynchronous fetch.
