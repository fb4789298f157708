# LangChainAgent bookkeeping, modelled in Dafny

The project models the bookkeeping part of `LangChainAgent` in `AgentFabric/agent.py`. This is the
assistant behind the cocktail chat. It has three parts:

- **Per-user conversation memory.** Each user id gets its own history store, created empty on
  first use (`get_user_history_store`).
  - In `run_agent` the store's docstore is read with its keys sorted by integer value. The texts
    are turned into LangChain messages by position parity: even positions are the user's and odd
    positions are the agent's.
  - The question and the answer are stored under the ids `str(n)` and `str(n + 1)`, where `n` is
    the number of stored entries. The answer is returned with the whole conversation.
- **Data sources** (`load_data_and_create_faiss`). Each file is registered under its basename,
  with the last extension removed and the result lower-cased.
  - `.pdf` files are accepted.
  - `.csv` files are accepted only when `csv_args` has a non-empty entry for the name up to its
    first dot.
  - Anything else raises `ValueError`. The loop stops at the first bad file, and the files before
    it stay registered.
- **Tools.** `generate_tools` appends one retrieval tool per registered source, in the dict's
  iteration order. Each tool is named after its source. Its description and system prompt come
  from the configuration, or from the defaults `"Default tool description"` and
  `"You are a helpful assistant."`. `create_tool` names a chain and describes it, and
  `create_agent` builds the executor over the tools.

## How the model is built

The source is imperative, and so is the model:

- `LangChainAgent` and the per-user store `HistoryStore` are classes whose methods update their
  fields. The methods carry `modifies` clauses and loops with invariants.
- Each method is proved against a specification function: `LoadAll` for the loading loop,
  `ToolsFor` for the tools loop, `ChatHistory` for the message loop and `InOrder` for the docstore.
- The properties the source promises are proved as lemmas about those functions.
- The modules are `PathNames`, `DocIds`, `History`, `Sources` and `Agents`. `Scenarios` holds
  client code that strings several calls together.

## Model

| member | source | states |
|---|---|---|
| Agents.LangChainAgent.constructor | AgentFabric/agent.py:33-41 | a new agent has no sources, no tools, no executor and no user stores |
| Agents.AgentErrorMessage | AgentFabric/agent.py:153-154 | the text of the `RuntimeError` raised when `run_agent` is called before `create_agent`; no contract of its own |
| Agents.LangChainAgent.GetUserHistoryStore | AgentFabric/agent.py:57-62 | returns the user's store, which is the existing one when the user is known and a fresh empty one otherwise; the map changes at most at that user; every other user keeps its presence and its history; this user's history is unchanged |
| Agents.LangChainAgent.AddUser | AgentFabric/agent.py:60-61 | the first-use branch: a fresh store with an empty docstore is registered for an absent user, and no other user's history moves |
| Agents.LangChainAgent.UserAddedValid | AgentFabric/agent.py:60-61 | adding a fresh empty store keeps every store valid with an even count, and no two users share a store |
| Agents.LangChainAgent.UserAdded | AgentFabric/agent.py:60-61 | adding a fresh empty store leaves the other users and their histories as they were; the new user's history is empty |
| Agents.LangChainAgent.LoadDataAndCreateFaiss | AgentFabric/agent.py:64-84 | the loop over the files leaves the sources dict and the outcome that `LoadAll` gives for the per-file results; the dict stays consistent |
| Sources.CreateTool | AgentFabric/agent.py:86-93 | `create_tool`: a tool named and described as given, running the given chain; every tool of `generate_tools` is built by it, and what that gives each tool is stated by `Sources.ToolsForSpec` |
| Agents.LangChainAgent.GenerateTools | AgentFabric/agent.py:95-136 | the tools list becomes the old list followed by `ToolsFor` over the sources in dict order |
| Agents.LangChainAgent.CreateAgent | AgentFabric/agent.py:138-140 | the executor is set, built from the model, the prompt and the current tools |
| Agents.LangChainAgent.RunAgent | AgentFabric/agent.py:142-181 | with no executor it fails with the "Agent not created" error, and the user map and every store are unchanged; otherwise the answer is the executor's reply to the question and the parity-tagged old history, the result is the answer with the old history plus question and answer, the user's stored history grows by exactly those two texts, and no other user's history or presence changes; the user map then holds `userId`, differs from the old one at most there, and maps it to the store it had before or, for a new user, to a fresh one |
| Agents.LangChainAgent.RecordTurn | AgentFabric/agent.py:176-178 | the write of a turn into the user's store appends question and answer to that user's history and to no one else's |
| Agents.LangChainAgent.TurnStored | AgentFabric/agent.py:176-178 | when only one store changed and it reads as the old history plus a turn, the agent stays valid and the other histories are unchanged |
| History.HistoryStore.constructor | AgentFabric/agent.py:46-55 | `create_empty_faiss` gives a store with an empty docstore |
| History.HistoryStore.ReadOrdered | AgentFabric/agent.py:157-160 | the keys are exactly the stored keys, each once, in strictly increasing integer value; each text is the one stored under its key; the texts are the history in order |
| History.OrderedReadSpec | AgentFabric/agent.py:159-160 | listing the ids of positions 0..n-1 of a dense docstore gives every stored key once, sorted by integer value, with the i-th text of the history under the i-th key |
| History.InOrder | AgentFabric/agent.py:159-160 | a dense docstore read in id order has one text per entry |
| History.MessageAt | AgentFabric/agent.py:165-168 | the speaker rule: a `HumanMessage` at an even position, an `AIMessage` at an odd one; its consequences are stated by `History.ChatHistoryRoles` |
| History.ChatHistory | AgentFabric/agent.py:163-168 | the specification of the message loop: one `MessageAt` per text, in order; what it gives is stated by `History.ChatHistoryRoles` and `History.ChatHistoryOfTurns` |
| History.ReconstructChat | AgentFabric/agent.py:163-168 | the message loop produces `ChatHistory` of the texts |
| History.ChatHistoryRoles | AgentFabric/agent.py:163-168 | one message per text, carrying the text unchanged; a message is the user's exactly when its position is even |
| History.ChatHistorySnoc | AgentFabric/agent.py:164-168 | one more text adds one message, tagged by that text's position |
| History.ChatHistoryAppendTurn | AgentFabric/agent.py:163-168 | after an even number of texts, storing a question and an answer adds a user message and then an agent message, and leaves the earlier messages alone |
| History.ChatHistoryOfTurns | AgentFabric/agent.py:163-168 | a history stored turn by turn is rebuilt with every question as a user message and every answer as an agent message, whatever they say |
| History.Zip | AgentFabric/agent.py:178 | the `{id: text}` entries one `add_texts` call writes, the i-th id mapped to the i-th text; `AddTexts` is stated in its terms |
| History.HistoryStore.AddTexts | AgentFabric/agent.py:178 | `add_texts` with a non-empty list of explicit ids writes exactly the zipped entries when the ids match the texts in number, are pairwise different and are new; otherwise it writes nothing |
| History.HistoryStore.AddTurn | AgentFabric/agent.py:176-178 | storing a question and an answer under `str(n)` and `str(n + 1)` keeps the keys exactly the ids 0..count-1 with an even count, and appends the question and the answer to the history |
| History.StoreTurn | AgentFabric/agent.py:178 | two new, different ids are accepted by `add_texts`, and the zipped entries it writes are exactly those two, so the docstore is the old one updated at the first id and then at the second |
| History.AppendTurnKeys | AgentFabric/agent.py:176-178 | writing the next two ids keeps the docstore dense and adds exactly two entries |
| History.AppendTurnDense | AgentFabric/agent.py:176-178 | writing the next two ids appends question and answer, in that order, to the history in id order |
| History.TurnIdsFree | AgentFabric/agent.py:176-178 | for a docstore of n entries, `str(n)` and `str(n + 1)` are not stored yet and differ, so the id list `[str(n), str(n + 1)]` has no repeats and none of its ids is stored |
| History.TurnRecorded | AgentFabric/agent.py:176-178 | once `add_texts` accepts the turn, the store is still dense with an even count and its history is the old one plus question and answer |
| DocIds.DecimalValue | AgentFabric/agent.py:159 | `int(x)` on a string of decimal digits, most significant digit first; `IdOf` is proved to invert it |
| DocIds.IdOf | AgentFabric/agent.py:176-178 | `str(n)` is a non-empty decimal numeral without a leading zero (except "0") whose `int` value is n |
| DocIds.IdOfInjective | AgentFabric/agent.py:176-178 | different positions get different ids |
| DocIds.IdsBelowGrow | AgentFabric/agent.py:176-178 | the ids below n + 2 are the ids below n plus `str(n)` and `str(n + 1)`; those two are new and differ |
| DocIds.SortedByValue | AgentFabric/agent.py:159 | what `sorted(keys, key=lambda x: int(x))` returns when no two keys have the same value: decimal keys in strictly increasing `int` value; `ReadOrdered` is stated in its terms |
| DocIds.IdRunSorted | AgentFabric/agent.py:159 | the ids of positions 0..n-1 in order are exactly the ids below n, in strictly increasing integer value |
| PathNames.RFind | AgentFabric/agent.py:68-70 | `rfind` returns -1 or an index inside the string |
| PathNames.RFindSpec | AgentFabric/agent.py:68-70 | `rfind` returns an index holding the character with none of it after, or -1 |
| PathNames.Basename | AgentFabric/agent.py:68 | `os.path.basename`: the part of the path after its last '/'; characterized by `PathNames.BasenameSpec` |
| PathNames.BasenameSpec | AgentFabric/agent.py:68 | the basename has no '/', ends the path, and is the whole path or follows a '/' |
| PathNames.SplitExt | AgentFabric/agent.py:69-70 | `os.path.splitext`: split at the last dot unless every dot before it is leading; characterized by `PathNames.SplitExtSpec` |
| PathNames.SplitExtSpec | AgentFabric/agent.py:69-70 | stem plus extension give the name back; there is an extension exactly when a dot follows a character other than a dot; the extension is one dot with no other dot after it |
| PathNames.LowerChar | AgentFabric/agent.py:69-70 | `str.lower` on one character: ASCII capitals to small letters, every other character left alone |
| PathNames.Lower | AgentFabric/agent.py:69-70 | lowering keeps the length |
| PathNames.LowerAppend | AgentFabric/agent.py:69-70 | lowering commutes with concatenation |
| PathNames.LowerSlice | AgentFabric/agent.py:69-70 | lowering commutes with slicing |
| PathNames.RFindLower | AgentFabric/agent.py:69-70 | lowering moves no dot |
| PathNames.SplitExtLower | AgentFabric/agent.py:69-70 | splitting a lowered name gives the lowered stem and extension |
| PathNames.FirstSegment | AgentFabric/agent.py:73 | `s.split('.')[0]`: the text before the first dot; characterized by `PathNames.FirstSegmentSpec` |
| PathNames.FirstSegmentSpec | AgentFabric/agent.py:73 | `split('.')[0]` is the longest prefix without a dot |
| Sources.SourceKey | AgentFabric/agent.py:68-70 | the key a file is registered under: its basename without the last extension, lowered; stated by `Sources.SourceKeyParts` and `Sources.SourceKeyShape` |
| Sources.Extension | AgentFabric/agent.py:68-69 | the lowered last extension of the basename, dot included; stated by `Sources.SourceKeyParts` and `Sources.ExtensionShape` |
| Sources.CsvArgsKey | AgentFabric/agent.py:73 | the `csv_args` entry a CSV file needs is the one under its key up to the first dot; used by `Sources.IngestFileOutcome` |
| Sources.ErrorMessage | AgentFabric/agent.py:74-82 | the texts of the two `ValueError`s, naming the file and the extension; which error is raised is stated by `Sources.IngestFileOutcome` |
| Sources.SourceKeyParts | AgentFabric/agent.py:68-70 | source key plus extension give the lowered basename |
| Sources.SourceKeyShape | AgentFabric/agent.py:68-70 | a source key has no '/' and is already lower case |
| Sources.ExtensionShape | AgentFabric/agent.py:69 | the extension is empty, or one dot with no other dot after it |
| Sources.IngestFile | AgentFabric/agent.py:67-84 | one pass of the loop: an accepted file is keyed by its source key and indexed from its path |
| Sources.IngestFileOutcome | AgentFabric/agent.py:72-82 | a file is accepted exactly when it is a PDF, or a CSV whose `csv_args` entry is present and non-empty; any other extension fails naming the extension; a rejected CSV fails naming the file |
| Sources.IngestCaseInsensitive | AgentFabric/agent.py:69-72 | paths whose basenames agree once lowered get the same key, extension and verdict |
| Sources.SourceDict.Put | AgentFabric/agent.py:84 | `vectorstores[key] = store` sets that entry and keeps the earlier iteration order as a prefix |
| Sources.PutValid | AgentFabric/agent.py:84 | assignment keeps the iteration order free of repeats and in step with the keys |
| Sources.IngestAll | AgentFabric/agent.py:67-84 | one result per file |
| Sources.IngestAllAt | AgentFabric/agent.py:67-70 | the i-th result is that file's pass, keyed by its source key |
| Sources.LoadAll | AgentFabric/agent.py:67-84 | the specification of the loading loop: register each accepted file in order and stop at the first error; what it gives is stated by `Sources.LoadAllPasses`, `Sources.LoadAllStopsAtFirstError`, `Sources.LoadAllKeys` and `Sources.LoadAllLastWins` |
| Sources.LoadAllValid | AgentFabric/agent.py:64-84 | loading keeps the dict consistent |
| Sources.LoadAllPasses | AgentFabric/agent.py:67-84 | loading succeeds exactly when every file is accepted |
| Sources.FirstErrorShift | AgentFabric/agent.py:67-84 | an accepted file in front moves the first error one place on and adds to what was registered before it |
| Sources.LoadAllStopsAtFirstError | AgentFabric/agent.py:67-84 | a failed load raises the error of the first rejected file, all files before it were accepted, and what they registered stays registered |
| Sources.LoadAllKeys | AgentFabric/agent.py:84 | after a successful load the keys are the earlier ones plus those of the files, and earlier sources keep their place in the order |
| Sources.LoadAllLastWins | AgentFabric/agent.py:84 | after a successful load each key holds the index of the last file registered under it, and untouched sources keep their index |
| Sources.GetOr | AgentFabric/agent.py:109 | `dict.get(key, default)`; what it gives the tools is stated by `Sources.ToolsForSpec` |
| Sources.ToolFor | AgentFabric/agent.py:103-135 | one pass of `generate_tools`: a review chain over the source's index, under the configured or default system prompt, given to `create_tool` with the source's name and description; stated by `Sources.ToolsForSpec` |
| Sources.ToolsFor | AgentFabric/agent.py:102-136 | the specification of the tools loop: `ToolFor` for each source in order; what it gives is stated by `Sources.ToolsForSpec` and `Sources.OneToolPerSource` |
| Sources.ToolsForStep | AgentFabric/agent.py:102-136 | one more source appends its tool after the earlier tools |
| Sources.ToolsForAt | AgentFabric/agent.py:102-136 | tool i is the tool built for source i |
| Sources.ToolsForSpec | AgentFabric/agent.py:86-136 | tool i is named after source i and retrieves from its index with the given context key; its description and system prompt are the configured ones, or the defaults when absent |
| Sources.ToolNames | AgentFabric/agent.py:133-136 | the tools are named after their sources, in order |
| Sources.OneToolPerSource | AgentFabric/agent.py:102-136 | over a consistent dict there are as many tools as sources, with pairwise different names that together are the registered keys |
| Scenarios.SameStoreTwice | AgentFabric/agent.py:57-62 | two lookups for one user return the same store, the one registered for that user |
| Scenarios.ReadBackAfterTurn | AgentFabric/agent.py:157-181 | after a turn, reading the user's store gives back the conversation `run_agent` returned |
| Scenarios.TwoTurns | AgentFabric/agent.py:142-181 | two turns of one user: the second answer is given the first conversation as history, and the second conversation returned is the first one followed by the second question and answer |
| Scenarios.TwoUsers | AgentFabric/agent.py:142-181 | two users taking a turn each: each conversation returned is that user's own history plus their turn, and the second user's turn leaves the first user's history as it was |
| Scenarios.RunBeforeCreate | AgentFabric/agent.py:153-154 | on a new agent `run_agent` fails and no user store is created |

## Left out

- The LLM, the embeddings, the FAISS indexes, the document loaders and LangChain's chain objects
  are opaque. A `VectorStore` records only which file and which options it was built from. A
  `ReviewChain` records its context key, retriever and system prompt. The review prompt template
  is not modelled. Failures of the loaders and of `FAISS.from_documents` (a missing or unreadable
  file, a file with no documents) would also stop the loop of agent.py:67-84; they are not
  modelled, so `IngestFile` never fails on a `.pdf` and `LoadAllPasses` speaks only of the
  `ValueError`s the method raises itself.
- Agents.LangChainAgent.RunAgent: the executor's answer is a function parameter
  `respond(executor, question, history)`. The reply is taken to be deterministic, and it does not
  model the network call, tool selection, or exceptions raised by the LLM.
- The vector-index half of `add_texts` (embedding the texts and the `index_to_docstore_id`
  mapping) is not modelled. Only the docstore write is.
- History.HistoryStore.ReadOrdered: sorting by `int(key)` is modelled by listing `str(0)` ..
  `str(n - 1)`. That is the same result under the store invariant that the keys are exactly those
  ids. A docstore holding other keys, such as "01" or non-numeric ids, is outside the model.
  There, the source's `int()` parse error and its ordering of ties are not captured.
- `history_vectorstore` (agent.py:44) is created but never used, so it is not modelled.
- The `Agent` base class (agent.py:26-29) has no behaviour and is not modelled.
- `AgentFabric/factory.py`, `AgentFabric/tools/Anthropic.py`, the `app` package and the web
  front end are not part of this model.
- Concurrency: calls are modelled one at a time. The unlocked shared user map is not modelled.
- `str.lower` is modelled for ASCII letters only. Unicode case mapping is not modelled.
- Paths are POSIX paths, with '/' as the only separator.
- `csv_args` entries are modelled as string-to-string maps. Emptiness is the only truthiness
  test: a `None` or empty entry is rejected.
- `csv_args or {}`, `tool_data or {}` and `tool_system_prompts or {}` are modelled by passing an
  empty map for `None`.
- Sources.CreateTool: the decorated tool function is not modelled.
- Agents.LangChainAgent.CreateAgent: the executor records the tools as a value. In the source it
  is handed the `self.tools` list object itself (agent.py:140), not a copy; that aliasing is not
  modelled.
- History.HistoryStore.AddTexts: an empty `ids`, for which LangChain generates uuids, is not
  modelled; `run_agent` always passes two ids.
- Agents.LangChainAgent.RecordTurn, Agents.LangChainAgent.AddUser and
  History.HistoryStore.AddTurn are helpers that split `run_agent` and `get_user_history_store`
  into separately proved steps. They add no behaviour of their own.
- The source passes `context_key` to `itemgetter` inside the chain. A missing key fails only when
  the tool runs, so it is not modelled.
