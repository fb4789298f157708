/**
 * `LangChainAgent`: the registered data sources, the retrieval tools built over them, the agent
 * executor, and one history store per user, updated in place by its methods.
 */
module Agents {
  import opened Wrappers
  import opened DocIds
  import opened History
  import opened Sources

  /** `AgentExecutor(agent=create_tool_calling_agent(llm, tools, prompt), tools=tools)`, recorded by
      what it was built from. What it answers is not modelled: `run_agent` is given it as a
      function of the question and the chat history. */
  datatype Executor = Executor(modelName: string, prompt: string, tools: seq<Tool>)

  /** The `RuntimeError` of `run_agent`. */
  datatype AgentError = AgentNotCreated

  function AgentErrorMessage(e: AgentError): string {
    match e
    case AgentNotCreated => "Agent not created. Call create_agent() before using."
  }

  class LangChainAgent {
    const modelName: string
    var vectorstores: SourceDict
    var tools: seq<Tool>
    var agentExecutor: Option<Executor>
    var userHistoryStores: map<string, HistoryStore>

    /** The sources dict is consistent, every user's docstore holds ids "0" .. "n-1" for an even n,
        and no two users share a store. */
    ghost predicate Valid()
      reads this`vectorstores, this`userHistoryStores, userHistoryStores.Values
    {
      && vectorstores.Valid()
      && (forall u | u in userHistoryStores ::
            userHistoryStores[u].Valid() && |userHistoryStores[u].docs| % 2 == 0)
      && (forall u, v | u in userHistoryStores && v in userHistoryStores && u != v ::
            userHistoryStores[u] != userHistoryStores[v])
    }

    /** The conversation stored for `userId`, in the order it was said; nothing for a new user. */
    ghost function HistoryOf(userId: string): seq<string>
      reads this`userHistoryStores, userHistoryStores.Values
    {
      if userId in userHistoryStores && userHistoryStores[userId].Valid()
      then InOrder(userHistoryStores[userId].docs)
      else []
    }

    /** `LangChainAgent(api_key, model_name)`: no sources, no tools, no executor, no users. */
    constructor (modelName: string)
      ensures Valid()
      ensures this.modelName == modelName
      ensures vectorstores == SourceDict([], map[]) && tools == []
      ensures agentExecutor == None && userHistoryStores == map[]
    {
      this.modelName := modelName;
      vectorstores := SourceDict([], map[]);
      tools := [];
      agentExecutor := None;
      userHistoryStores := map[];
    }

    /** Compared with the state before: the agent is still valid, the users other than `userId` are
        the same ones, and each of them has the history it had. */
    twostate predicate OthersUnchanged(userId: string)
      reads this`vectorstores, this`userHistoryStores, userHistoryStores.Values
    {
      && Valid()
      && (forall u :: u != userId ==> (u in userHistoryStores <==> u in old(userHistoryStores)))
      && (forall u :: u != userId ==> HistoryOf(u) == old(HistoryOf(u)))
    }

    /** Adding a fresh, empty store for a new user keeps the agent valid. */
    twostate lemma UserAddedValid(userId: string)
      requires old(Valid()) && vectorstores == old(vectorstores)
      requires userId !in old(userHistoryStores) && userId in userHistoryStores
      requires userHistoryStores == old(userHistoryStores)[userId := userHistoryStores[userId]]
      requires fresh(userHistoryStores[userId]) && userHistoryStores[userId].docs == map[]
      requires forall u | u in old(userHistoryStores) ::
        old(userHistoryStores)[u].docs == old(userHistoryStores[u].docs)
      ensures Valid()
    {
      var created := userHistoryStores[userId];
      forall u | u in userHistoryStores
        ensures userHistoryStores[u].Valid() && |userHistoryStores[u].docs| % 2 == 0
      {
        if u != userId {
          assert userHistoryStores[u].docs == old(userHistoryStores[u].docs);
        }
      }
      forall u, v | u in userHistoryStores && v in userHistoryStores && u != v
        ensures userHistoryStores[u] != userHistoryStores[v]
      {
        if u != userId && v != userId {
          assert old(userHistoryStores[u] != userHistoryStores[v]);
        }
      }
    }

    /** Adding a fresh, empty store for a new user gives that user an empty history and leaves
        every other user as it was. */
    twostate lemma UserAdded(userId: string)
      requires old(Valid()) && vectorstores == old(vectorstores)
      requires userId !in old(userHistoryStores) && userId in userHistoryStores
      requires userHistoryStores == old(userHistoryStores)[userId := userHistoryStores[userId]]
      requires fresh(userHistoryStores[userId]) && userHistoryStores[userId].docs == map[]
      requires forall u | u in old(userHistoryStores) ::
        old(userHistoryStores)[u].docs == old(userHistoryStores[u].docs)
      ensures OthersUnchanged(userId) && HistoryOf(userId) == old(HistoryOf(userId))
    {
      UserAddedValid(userId);
      forall u | u != userId ensures HistoryOf(u) == old(HistoryOf(u)) {
        if u in userHistoryStores {
          assert userHistoryStores[u].docs == old(userHistoryStores[u].docs);
        }
      }
    }

    /** `get_user_history_store`: the user's store, created empty on first use; no other entry of
        the map changes. */
    method GetUserHistoryStore(userId: string) returns (store: HistoryStore)
      requires Valid()
      modifies this`userHistoryStores
      ensures userHistoryStores == old(userHistoryStores)[userId := store]
      ensures userId in old(userHistoryStores) ==> store == old(userHistoryStores)[userId]
      ensures userId !in old(userHistoryStores) ==> fresh(store) && store.docs == map[]
      ensures OthersUnchanged(userId) && HistoryOf(userId) == old(HistoryOf(userId))
    {
      if userId !in userHistoryStores {
        store := AddUser(userId);
      } else {
        store := userHistoryStores[userId];
      }
    }

    /** The first-use branch of `get_user_history_store`: a new, empty store registered for
        `userId`. */
    method AddUser(userId: string) returns (created: HistoryStore)
      requires Valid() && userId !in userHistoryStores
      modifies this`userHistoryStores
      ensures userHistoryStores == old(userHistoryStores)[userId := created]
      ensures fresh(created) && created.docs == map[]
      ensures OthersUnchanged(userId) && HistoryOf(userId) == old(HistoryOf(userId))
    {
      created := new HistoryStore();
      userHistoryStores := userHistoryStores[userId := created];
      UserAdded(userId);
    }

    /** `load_data_and_create_faiss`: registers every file in turn under its source key, and stops
        with the first file's `ValueError`, keeping what was registered before it. */
    method LoadDataAndCreateFaiss(filePaths: seq<string>, csvArgs: map<string, CsvOptions>)
      returns (outcome: Outcome<LoadError>)
      requires Valid()
      modifies this`vectorstores
      ensures Valid()
      ensures (vectorstores, outcome) == LoadAll(old(vectorstores), IngestAll(filePaths, csvArgs))
    {
      ghost var results := IngestAll(filePaths, csvArgs);
      var i := 0;
      while i < |filePaths|
        invariant 0 <= i <= |filePaths|
        invariant vectorstores.Valid()
        invariant LoadAll(old(vectorstores), results) == LoadAll(vectorstores, results[i..])
      {
        var ingested := IngestFile(filePaths[i], csvArgs);
        assert results[i..][0] == ingested && results[i..][1..] == results[i + 1..];
        match ingested {
          case Failure(e) =>
            outcome := Fail(e);
            return;
          case Success((fileName, store)) =>
            PutValid(vectorstores, fileName, store);
            vectorstores := vectorstores.Put(fileName, store);
        }
        i := i + 1;
      }
      outcome := Pass;
    }

    /** `generate_tools`: appends one tool per registered source, in the dict's order. */
    method GenerateTools(contextKey: string, toolData: map<string, string>,
                         toolSystemPrompts: map<string, string>)
      requires Valid()
      modifies this`tools
      ensures tools == old(tools) + ToolsFor(vectorstores.order, vectorstores.entries, contextKey,
                                             toolData, toolSystemPrompts)
    {
      var keys := vectorstores.order;
      var i := 0;
      while i < |keys|
        invariant 0 <= i <= |keys|
        invariant tools == old(tools) + ToolsFor(keys[..i], vectorstores.entries, contextKey,
                                                 toolData, toolSystemPrompts)
      {
        var fileName := keys[i];
        var store := vectorstores.entries[fileName];
        var systemPrompt := GetOr(toolSystemPrompts, fileName, DefaultSystemPrompt);
        var chain := ReviewChain(contextKey, store, systemPrompt);
        var toolName := fileName;
        var toolDescription := GetOr(toolData, toolName, DefaultToolDescription);
        var generated := CreateTool(chain, toolName, toolDescription);
        ToolsForStep(keys, vectorstores.entries, contextKey, toolData, toolSystemPrompts, i);
        tools := tools + [generated];
        i := i + 1;
      }
      assert keys[..i] == keys;
    }

    /** `create_agent`: the executor over the current tools. */
    method CreateAgent(prompt: string)
      requires Valid()
      modifies this`agentExecutor
      ensures agentExecutor == Some(Executor(modelName, prompt, tools))
    {
      agentExecutor := Some(Executor(modelName, prompt, tools));
    }

    /** When only `userId`'s store changed, and it is still stored turn by turn with the question
        and the answer after what it held, the agent is still valid, that user's history has grown
        by the turn and no other user's history moved. */
    twostate lemma TurnStored(userId: string, new question: string, new answer: string)
      requires old(Valid())
      requires userHistoryStores == old(userHistoryStores) && vectorstores == old(vectorstores)
      requires userId in userHistoryStores
      requires forall u | u in userHistoryStores && u != userId ::
        userHistoryStores[u].docs == old(userHistoryStores[u].docs)
      requires userHistoryStores[userId].Valid() && |userHistoryStores[userId].docs| % 2 == 0
      requires InOrder(userHistoryStores[userId].docs) == old(HistoryOf(userId)) + [question, answer]
      ensures OthersUnchanged(userId)
      ensures HistoryOf(userId) == old(HistoryOf(userId)) + [question, answer]
    {
      forall u | u in userHistoryStores
        ensures userHistoryStores[u].Valid() && |userHistoryStores[u].docs| % 2 == 0
      {
        if u != userId {
          assert userHistoryStores[u].docs == old(userHistoryStores[u].docs);
        }
      }
      forall u | u != userId ensures HistoryOf(u) == old(HistoryOf(u)) {
        if u in userHistoryStores {
          assert userHistoryStores[u].docs == old(userHistoryStores[u].docs);
        }
      }
    }

    /** The write of `run_agent`: the question and the answer go into `userId`'s store under the
        next two ids. */
    method RecordTurn(userId: string, store: HistoryStore, question: string, answer: string,
                      nextId: nat)
      requires Valid() && userId in userHistoryStores && userHistoryStores[userId] == store
      requires nextId == |store.docs|
      modifies store
      ensures OthersUnchanged(userId)
      ensures HistoryOf(userId) == old(HistoryOf(userId)) + [question, answer]
    {
      store.AddTurn(question, answer, nextId);
      TurnStored(userId, question, answer);
    }

    /** `run_agent`: without an executor, fails before touching any store. Otherwise the executor
        answers the question given the user's history rebuilt by parity; the question and the
        answer are stored under the next two ids; the answer and the whole conversation so far
        are returned. Only this user's history changes. */
    method RunAgent(question: string, userId: string,
                    respond: (Executor, string, seq<ChatMessage>) -> string)
      returns (r: Result<(string, seq<string>), AgentError>)
      requires Valid()
      modifies this`userHistoryStores, userHistoryStores.Values
      ensures OthersUnchanged(userId)
      ensures old(agentExecutor).None? ==>
        && r == Failure(AgentNotCreated)
        && userHistoryStores == old(userHistoryStores)
        && unchanged(userHistoryStores.Values)
      ensures old(agentExecutor).Some? ==>
        var before := old(HistoryOf(userId));
        var answer := respond(agentExecutor.value, question, ChatHistory(before));
        && r == Success((answer, before + [question, answer]))
        && HistoryOf(userId) == before + [question, answer]
    ensures old(agentExecutor).Some? ==>
      && userId in userHistoryStores
      && userHistoryStores == old(userHistoryStores)[userId := userHistoryStores[userId]]
      && (userId in old(userHistoryStores) ==> userHistoryStores[userId] == old(userHistoryStores)[userId])
      && (userId !in old(userHistoryStores) ==> fresh(userHistoryStores[userId]))
    {
      if agentExecutor.None? {
        r := Failure(AgentNotCreated);
        return;
      }
      var store := GetUserHistoryStore(userId);
      ghost var users := userHistoryStores;
      var orderedKeys, chatHistory := store.ReadOrdered();
      var messages := ReconstructChat(chatHistory);
      var answer := respond(agentExecutor.value, question, messages);
      var nextId := |orderedKeys|;
      RecordTurn(userId, store, question, answer, nextId);
      assert userHistoryStores == users;
      var newChatHistory := chatHistory + [question, answer];
      r := Success((answer, newChatHistory));
    }
  }
}
