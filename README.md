# Ollama browser agents: request tracker and agent storage

This project models the core of a browser-extension side panel that runs
user-defined "agents" (named system prompts) against the current page
through a local Ollama chat endpoint. Two parts are modelled:

- **`OllamaAi`** (src/helpers/ollamaHelpers.ts). The client keeps a list of
  in-flight requests, each with a key `{name}-{url}`, a resolved url and an
  `AbortController`. Before a new keyed request goes out, every tracked entry
  whose key shares the new key's name part (the text before the FIRST `'-'`)
  but is not identical is aborted and dropped. If the only related entries
  carry the identical key, the new request is ignored. After the fetch
  settles, every entry with the request's key is dropped. `abortAll` aborts
  and forgets everything. `chat` builds the chat body and the key
  `lowercase(agent.name)-pageUrl`, and reduces the reply to its text or to
  nothing. `Message` and its three subclasses are immutable text/role pairs.
- **Agent storage** (src/helpers/storageHelpers.ts). `upsertAgent` adds an
  agent unless one with the same name is present. `replaceAgents` overwrites
  the stored list. `getStoredAgents` reads it back.

Layout:

- `wrappers.dfy`: `Option`.
- `schema.dfy`: the records of src/types/schema.ts and src/types/ollama.ts.
- `messages.dfy`: the message classes.
- `key_rules.dfy`: the key comparison (`getKeyMatch`).
- `tracker_rules.dfy`: the tracker's rules as step functions over a
  `TrackerState`, with the invariant and the lemmas about them.
- `ollama_ai.dfy`: the `OllamaAi` class, whose methods are proved equal to
  those step functions, and the pure parts of `chat`.
- `storage.dfy`: `chrome.storage.local` as a class and the three storage
  helpers.

`request` is async with one suspension point, the `fetch`. It is split into
`Begin` (everything before the fetch) and `Settle` (everything after it).
Other calls may run between the two, which is how interleavings are
expressed. An `AbortController` is a signal number, and `abort()` adds it to
the `aborted` set. The resolved url, whether `JSON.stringify` succeeds, and
how the fetch settled are inputs.

Where the code and the design description of this system disagree, the
model follows the code:

- A request whose key is already tracked is ignored. The older request
  keeps running, so the newest request does not win
  (`TrackerRules.RepeatedKeyIsIgnored`).
- Completion removes every entry with the same key, not only the entry of
  the completing call. A late, aborted call can therefore untrack a newer
  call (`TrackerRules.LateSettleDropsNewerEntry`).
- A body that fails to serialise is detected only after the partial matches
  were aborted and dropped. The tracker is not left unchanged
  (`TrackerRules.BeginSerialisationFailure`).
- Agent names are cut at their first `'-'` when keys are compared, so
  "fact-check" and "fact-finder" supersede each other
  (`Ollama.AgentKeysCollide`).

## Model

| member | source | states |
|---|---|---|
| `KeyRules.NamePart` | src/helpers/ollamaHelpers.ts:43-44 | the name part is a prefix of the key, holds no '-', and is followed by '-' unless it is the whole key |
| `KeyRules.NamePartUnique` | src/helpers/ollamaHelpers.ts:43-44 | any '-'-free prefix followed by '-' or the end of the key is its name part |
| `KeyRules.KeyMatchMeaning` | src/helpers/ollamaHelpers.ts:39-49 | `full` iff the keys are identical; `partial` iff they differ but share the text before the first '-' |
| `KeyRules.NamePartOfJoined` | src/helpers/ollamaHelpers.ts:35 | a key `{name}-{url}` has the name part of `name`, whatever the url |
| `TrackerRules.Select` | src/helpers/ollamaHelpers.ts:59-60 | a filter keeps exactly the entries whose match against the key is one of the given kinds |
| `TrackerRules.SettleStep` | src/helpers/ollamaHelpers.ts:100-112 | after the fetch no entry with the request's key remains and every other entry stays; an abort or other error yields undefined; unkeyed requests leave the list alone |
| `TrackerRules.AbortAllStep` | src/helpers/ollamaHelpers.ts:153-158 | every tracked request is aborted and the list is left empty |
| `TrackerRules.Initial` | src/helpers/ollamaHelpers.ts:16 | the empty tracker satisfies the invariant |
| `TrackerRules.BeginIgnoredExactly` | src/helpers/ollamaHelpers.ts:71-75 | a keyed request is ignored iff some entry has its exact key and none is a partial match; then nothing changes and no fetch is made |
| `TrackerRules.BeginUntracked` | src/helpers/ollamaHelpers.ts:57 | a request without a key never touches the list; it fails only on an unencodable body of a non-`get` request, otherwise it is sent untracked |
| `TrackerRules.BeginProceeds` | src/helpers/ollamaHelpers.ts:65-84 | a keyed request that goes out aborts and drops every partial match, keeps all other entries in order, appends itself with a fresh signal, and sends its body only for `post` |
| `TrackerRules.BeginProceedsUnderInvariant` | src/helpers/ollamaHelpers.ts:57-85 | with one entry per name part, the new entry ends up last and is the only one with its key; entries with another name part are untouched |
| `TrackerRules.NoFullBesidePartial` | src/helpers/ollamaHelpers.ts:65-75 | with one entry per name part, a request that is not ignored has no entry with its exact key |
| `TrackerRules.BeginSerialisationFailure` | src/helpers/ollamaHelpers.ts:88-94 | failure happens only for a non-`get` request with a body that does not encode; then only entries with another name part remain, and the partial matches stay aborted |
| `TrackerRules.BeginPreservesInvariant` | src/helpers/ollamaHelpers.ts:57-95 | registering, ignoring and the serialisation cleanup keep at most one entry per name part, distinct live signals, none aborted |
| `TrackerRules.AdmittedKeepsInvariant` | src/helpers/ollamaHelpers.ts:65-84 | registering a key that is not tracked keeps the invariant |
| `TrackerRules.SettlePreservesInvariant` | src/helpers/ollamaHelpers.ts:108-110 | the removal after completion keeps the invariant |
| `TrackerRules.AbortAllPreservesInvariant` | src/helpers/ollamaHelpers.ts:153-158 | `abortAll` keeps the invariant |
| `TrackerRules.KeysDistinct` | src/helpers/ollamaHelpers.ts:16 | under the invariant no key is tracked twice |
| `TrackerRules.SelectAppend` | src/helpers/ollamaHelpers.ts:92 | filtering a concatenation filters each part |
| `TrackerRules.SelectSelect` | src/helpers/ollamaHelpers.ts:69 | filtering twice keeps what both filters keep |
| `TrackerRules.SelectAll` | src/helpers/ollamaHelpers.ts:65-70 | when nothing is a partial match, the list is as if it had been filtered |
| `TrackerRules.SelectDistinct` | src/helpers/ollamaHelpers.ts:69 | filtering keeps signals distinct |
| `TrackerRules.SelectNonEmpty` | src/helpers/ollamaHelpers.ts:65 | a filter's result is non-empty iff some entry passes it |
| `TrackerRules.SignalsIdentify` | src/helpers/ollamaHelpers.ts:69 | with distinct signals, a signal identifies one tracked entry |
| `TrackerRules.RepeatedKeyIsIgnored` | src/helpers/ollamaHelpers.ts:24 | a second request with an in-flight key is ignored and the first one stays tracked |
| `TrackerRules.LateSettleDropsNewerEntry` | src/helpers/ollamaHelpers.ts:108-110 | an aborted call settling late removes the entry of a newer, unaborted call with its key; a later request then runs without aborting that call |
| `TrackerRules.BeginOnEmpty` | src/helpers/ollamaHelpers.ts:77-84 | on an empty tracker a keyed request is registered with the next signal |
| `TrackerRules.SupersedeSole` | src/helpers/ollamaHelpers.ts:65-84 | a lone partial match is aborted and replaced by the new request |
| `Ollama.Lower` | src/helpers/ollamaHelpers.ts:139 | lowercasing keeps the length and lowers each letter A-Z |
| `Ollama.ToWire` | src/helpers/ollamaHelpers.ts:125-128 | each message becomes `{content: body, role}`, in input order |
| `Ollama.ChatBody` | src/helpers/ollamaHelpers.ts:121-129 | the body carries the configured model, `stream: false`, the given options and the messages in order |
| `Ollama.ChatReply` | src/helpers/ollamaHelpers.ts:142-150 | the reply is `message.content` exactly when the result is an object with a message; otherwise undefined |
| `Ollama.ChatKeyNamePart` | src/helpers/ollamaHelpers.ts:139 | the name part of a chat key is that of the lowercased agent name |
| `Ollama.SameAgentKeys` | src/helpers/ollamaHelpers.ts:139 | the same agent on the same page matches fully, on another page partially |
| `Ollama.AgentKeysCollide` | src/helpers/ollamaHelpers.ts:39-49 | two agents' keys collide iff their lowercased names agree before the first '-' |
| `Ollama.OllamaAi.constructor` | src/helpers/ollamaHelpers.ts:16-18 | a new client tracks nothing |
| `Ollama.OllamaAi.AbortEach` | src/helpers/ollamaHelpers.ts:66-68 | each given request's aborter fires; the list is untouched |
| `Ollama.OllamaAi.Track` | src/helpers/ollamaHelpers.ts:57-85 | the keyed block stops exactly when only full matches exist, and otherwise leaves the registered state |
| `Ollama.OllamaAi.Begin` | src/helpers/ollamaHelpers.ts:37-95 | the outcome and new tracker state are those of the begin rules, and the invariant is kept |
| `Ollama.OllamaAi.Settle` | src/helpers/ollamaHelpers.ts:100-112 | the response and new state are those of the settle rule, and the invariant is kept |
| `Ollama.OllamaAi.AbortAll` | src/helpers/ollamaHelpers.ts:153-158 | every tracked request is aborted and the list emptied, keeping the invariant |
| `Ollama.OllamaAi.Chat` | src/helpers/ollamaHelpers.ts:115-151 | posts the chat body under the agent's key; yields the reply text only for a response with a message; undefined when ignored or failed |
| `Messages.Message.ToJson` | src/helpers/ollamaHelpers.ts:177-182 | `toJSON` gives the message's text and role |
| `Messages.SystemMessage` | src/helpers/ollamaHelpers.ts:185-189 | the role is `system`, the body the given text |
| `Messages.HumanMessage` | src/helpers/ollamaHelpers.ts:191-195 | the role is `user`, the body the given text |
| `Messages.AIMessage` | src/helpers/ollamaHelpers.ts:197-201 | the role is `agent`, the body the given text |
| `AgentStorage.StartingList` | src/helpers/storageHelpers.ts:7-10 | a read value that is not an array is replaced by the empty list |
| `AgentStorage.FindByName` | src/helpers/storageHelpers.ts:12 | finds an agent iff one has exactly that name, and returns the first such agent |
| `AgentStorage.AddIfAbsent` | src/helpers/storageHelpers.ts:11-16 | nothing is added iff the name is present; otherwise the agent is appended after the unchanged list |
| `AgentStorage.AddIfAbsentKeepsNamesUnique` | src/helpers/storageHelpers.ts:4 | adding to a name-unique list keeps it name-unique |
| `AgentStorage.StoredAgents` | src/helpers/storageHelpers.ts:30 | the stored `agents` list, or `[]` when absent |
| `AgentStorage.UpsertAgent` | src/helpers/storageHelpers.ts:6-21 | writes nothing and returns undefined for a taken name; otherwise writes the whole list and returns it only when `returning`; as written it always writes `[agent]` |
| `AgentStorage.UpsertAgentOverwritesStore` | src/helpers/storageHelpers.ts:7-10 | whatever is stored, the as-written upsert writes the new agent alone, unlike extending the stored list |
| `AgentStorage.UpsertAgentKeepingStored` | src/helpers/storageHelpers.ts:6-21 | with the stored list read as at line 30, a new name is appended to it, a taken name writes nothing, and names stay unique |
| `AgentStorage.ReplaceAgents` | src/helpers/storageHelpers.ts:23-25 | the given list is stored as it is |
| `AgentStorage.GetStoredAgents` | src/helpers/storageHelpers.ts:27-33 | returns the stored list, or `[]` when none is stored |
| `AgentStorage.LocalStorage.Get` | src/helpers/storageHelpers.ts:7 | reading `agents` yields the items object holding the stored value |
| `AgentStorage.LocalStorage.Set` | src/helpers/storageHelpers.ts:17 | a write replaces the stored list whole |

## Findings

| source | as written | input that shows it | evidently intended | confidence | as-written member | corrected member |
|---|---|---|---|---|---|---|
| src/helpers/storageHelpers.ts:7-10 | `Array.isArray` is applied to the items object that `chrome.storage.local.get('agents')` resolves to, which is never an array, so the list always starts empty and the write keeps only the new agent | storage holds `[A]`; `upsertAgent(B)` with a different name writes `[B]` | extend the stored list `persisted.agents`, as `getStoredAgents` reads it at line 30, giving `[A, B]` | high; not executed; relies on the documented shape of the storage API's result | `AgentStorage.UpsertAgent`, `AgentStorage.UpsertAgentOverwritesStore` | `AgentStorage.UpsertAgentKeepingStored` |

## Left out

- The transport: `fetch`, `new URL(path, base)`, `response.json()`, the real abort signal, and all `console` logging. The resolved url, the fetch outcome and the parsed reply are inputs; an abort is a signal number in a set.
- Concurrency: the model has no scheduler. Any interleaving is a sequence of `Begin` and `Settle` steps. `Ollama.OllamaAi.Chat` runs its two halves back to back.
- Ollama.OllamaAi.Chat: always passes "body encodes" to `Begin`, since a chat body holds only strings, booleans and numbers. Errors thrown by `new URL` or by `response.json()` are not modelled.
- Ollama.Lower: lowercases only the ASCII letters A-Z; the Unicode case mapping of `toLowerCase` is not modelled.
- The `options.temperature` number is an integer here; floating point is not modelled.
- The reply JSON is reduced to what `chat` inspects: a falsy value, or an object with or without `message`.
- `chrome.storage.local` is reduced to its `agents` key, and its asynchronous callback and promise forms are plain reads and writes.
- `AgentResponse`, agent colours and options are datatypes only; no operation of the core computes them.
- `listModels`, batch orchestration across agents, response formatting and response merging do not appear in these source files and are not modelled.
- The UI components, the options page, HTML-to-Markdown conversion, the prompt templates, `chatHelpers.ts` and the build configuration are not part of this model.
