/**
 * Client code of `LangChainAgent`, as the web layer drives it: what a caller can rely on across
 * several calls.
 */
module Scenarios {
  import opened Wrappers
  import opened History
  import opened Agents

  /** Asking for a user's store twice gives the same store. */
  method SameStoreTwice(agent: LangChainAgent, userId: string)
    returns (first: HistoryStore, second: HistoryStore)
    requires agent.Valid()
    modifies agent`userHistoryStores
    ensures first == second && userId in agent.userHistoryStores && agent.userHistoryStores[userId] == first
  {
    first := agent.GetUserHistoryStore(userId);
    second := agent.GetUserHistoryStore(userId);
  }

  /** Reading the user's store after a turn gives back the conversation `run_agent` returned. */
  method ReadBackAfterTurn(agent: LangChainAgent, question: string, userId: string,
                           respond: (Executor, string, seq<ChatMessage>) -> string)
    returns (r: Result<(string, seq<string>), AgentError>, texts: seq<string>)
    requires agent.Valid() && agent.agentExecutor.Some?
    modifies agent`userHistoryStores, agent.userHistoryStores.Values
    ensures r.Success? && texts == r.value.1
  {
    r := agent.RunAgent(question, userId, respond);
    var store := agent.GetUserHistoryStore(userId);
    var keys;
    keys, texts := store.ReadOrdered();
  }

  /** Two turns of one user: the second answer is given the first turn as history, and the
      conversation returned the second time is the first one followed by the second turn. */
  method TwoTurns(agent: LangChainAgent, first: string, second: string, userId: string,
                  respond: (Executor, string, seq<ChatMessage>) -> string)
    returns (r1: Result<(string, seq<string>), AgentError>, r2: Result<(string, seq<string>), AgentError>)
    requires agent.Valid() && agent.agentExecutor.Some?
    modifies agent`userHistoryStores, agent.userHistoryStores.Values
    ensures r1.Success? && r2.Success?
    ensures r2.value.1 == r1.value.1 + [second, r2.value.0]
    ensures r2.value.0 == respond(agent.agentExecutor.value, second, ChatHistory(r1.value.1))
    ensures agent.HistoryOf(userId) == r2.value.1
  {
    r1 := agent.RunAgent(first, userId, respond);
    r2 := agent.RunAgent(second, userId, respond);
  }

  /** Two users taking a turn each: each gets back only their own conversation, and the second
      user's turn leaves the first user's history as the first turn left it. */
  method TwoUsers(agent: LangChainAgent, question1: string, user1: string,
                  question2: string, user2: string,
                  respond: (Executor, string, seq<ChatMessage>) -> string)
    returns (r1: Result<(string, seq<string>), AgentError>, r2: Result<(string, seq<string>), AgentError>)
    requires agent.Valid() && agent.agentExecutor.Some? && user1 != user2
    modifies agent`userHistoryStores, agent.userHistoryStores.Values
    ensures r1.Success? && r2.Success?
    ensures r1.value.1 == old(agent.HistoryOf(user1)) + [question1, r1.value.0]
    ensures r2.value.1 == old(agent.HistoryOf(user2)) + [question2, r2.value.0]
    ensures agent.HistoryOf(user1) == r1.value.1 && agent.HistoryOf(user2) == r2.value.1
  {
    ghost var before2 := agent.HistoryOf(user2);
    r1 := agent.RunAgent(question1, user1, respond);
    assert agent.HistoryOf(user2) == before2;
    ghost var after1 := agent.HistoryOf(user1);
    r2 := agent.RunAgent(question2, user2, respond);
    assert agent.HistoryOf(user1) == after1;
  }

  /** Without `create_agent`, `run_agent` fails and no user store is created. */
  method RunBeforeCreate(modelName: string, question: string, userId: string,
                         respond: (Executor, string, seq<ChatMessage>) -> string)
    returns (r: Result<(string, seq<string>), AgentError>, users: set<string>)
    ensures r == Failure(AgentNotCreated) && users == {}
  {
    var agent := new LangChainAgent(modelName);
    r := agent.RunAgent(question, userId, respond);
    users := agent.userHistoryStores.Keys;
  }
}
