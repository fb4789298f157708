/**
 * The per-user conversation history: a docstore mapping ids "0", "1", ... to message texts,
 * read back in id order and turned into speaker-tagged chat messages by position parity.
 */
module History {
  import opened DocIds

  /** A message handed to the agent executor as `chat_history`. */
  datatype ChatMessage = HumanMessage(content: string) | AIMessage(content: string)

  /** The speaker rule: the text at an even position is the user's, at an odd one the agent's. */
  function MessageAt(i: nat, text: string): ChatMessage {
    if i % 2 == 0 then HumanMessage(text) else AIMessage(text)
  }

  /** The chat history rebuilt from the ordered stored texts, one message per text. */
  function ChatHistory(texts: seq<string>): seq<ChatMessage> {
    if texts == [] then []
    else ChatHistory(texts[..|texts| - 1]) + [MessageAt(|texts| - 1, texts[|texts| - 1])]
  }

  /** The rebuilt history has one message per text, carries each text unchanged whatever it
      says, and alternates speakers starting with the user. */
  lemma {:induction false} ChatHistoryRoles(texts: seq<string>)
    ensures |ChatHistory(texts)| == |texts|
    ensures forall i :: 0 <= i < |texts| ==>
      ChatHistory(texts)[i].content == texts[i] &&
      (ChatHistory(texts)[i].HumanMessage? <==> i % 2 == 0)
  {
    if texts != [] {
      ChatHistoryRoles(texts[..|texts| - 1]);
    }
  }

  /** One more text adds one message, tagged by the new text's position. */
  lemma ChatHistorySnoc(texts: seq<string>, text: string)
    ensures ChatHistory(texts + [text]) == ChatHistory(texts) + [MessageAt(|texts|, text)]
  {
    assert (texts + [text])[..|texts|] == texts;
  }

  /** Storing a (question, answer) pair after an even number of texts extends the rebuilt
      history by the user's question and the agent's answer, leaving the earlier messages alone. */
  lemma {:induction false} ChatHistoryAppendTurn(texts: seq<string>, question: string, answer: string)
    requires |texts| % 2 == 0
    ensures ChatHistory(texts + [question, answer])
         == ChatHistory(texts) + [HumanMessage(question), AIMessage(answer)]
  {
    var n, withQuestion := |texts|, texts + [question];
    calc {
      ChatHistory(texts + [question, answer]);
      { assert withQuestion + [answer] == texts + [question, answer]; }
      ChatHistory(withQuestion + [answer]);
      { ChatHistorySnoc(withQuestion, answer); }
      ChatHistory(withQuestion) + [MessageAt(n + 1, answer)];
      { ChatHistorySnoc(texts, question); }
      ChatHistory(texts) + [MessageAt(n, question)] + [MessageAt(n + 1, answer)];
      { assert (n + 1) % 2 == 1; }
      ChatHistory(texts) + [HumanMessage(question)] + [AIMessage(answer)];
      ChatHistory(texts) + [HumanMessage(question), AIMessage(answer)];
    }
  }

  /** The texts of a conversation of (question, answer) turns, in the order they were stored. */
  function Flatten(turns: seq<(string, string)>): seq<string> {
    if turns == [] then []
    else Flatten(turns[..|turns| - 1]) + [turns[|turns| - 1].0, turns[|turns| - 1].1]
  }

  /** The messages a conversation of turns should be shown to the agent as. */
  function Dialogue(turns: seq<(string, string)>): seq<ChatMessage> {
    if turns == [] then []
    else Dialogue(turns[..|turns| - 1])
         + [HumanMessage(turns[|turns| - 1].0), AIMessage(turns[|turns| - 1].1)]
  }

  /** Whatever the turns say, a history stored turn by turn is rebuilt with every question as a
      user message and every answer as an agent message. */
  lemma {:induction false} ChatHistoryOfTurns(turns: seq<(string, string)>)
    ensures |Flatten(turns)| == 2 * |turns|
    ensures ChatHistory(Flatten(turns)) == Dialogue(turns)
  {
    if turns != [] {
      var last := turns[|turns| - 1];
      ChatHistoryOfTurns(turns[..|turns| - 1]);
      ChatHistoryAppendTurn(Flatten(turns[..|turns| - 1]), last.0, last.1);
    }
  }

  /** The loop of `run_agent` that turns the ordered texts into LangChain messages. */
  method ReconstructChat(texts: seq<string>) returns (messages: seq<ChatMessage>)
    ensures messages == ChatHistory(texts)
  {
    messages := [];
    var i := 0;
    while i < |texts|
      invariant 0 <= i <= |texts|
      invariant messages == ChatHistory(texts[..i])
    {
      if i % 2 == 0 {
        messages := messages + [HumanMessage(texts[i])];
      } else {
        messages := messages + [AIMessage(texts[i])];
      }
      assert texts[..i + 1][..i] == texts[..i];
      i := i + 1;
    }
    assert texts[..i] == texts;
  }

  predicate Distinct(ids: seq<string>) {
    forall i, j :: 0 <= i < j < |ids| ==> ids[i] != ids[j]
  }

  /** The entries `{ids[i]: texts[i]}` that one `add_texts` call writes. */
  function Zip(ids: seq<string>, texts: seq<string>): (m: map<string, string>)
    requires |ids| == |texts| && Distinct(ids)
  {
    map i | 0 <= i < |ids| :: ids[i] := texts[i]
  }

  /** A docstore whose keys are exactly the ids of positions 0 .. count - 1. */
  ghost predicate Dense(docs: map<string, string>) {
    forall k :: k in docs <==> IsIdBelow(k, |docs|)
  }

  /** The stored texts of a dense docstore, ordered by id. */
  ghost function InOrder(docs: map<string, string>): (texts: seq<string>)
    requires Dense(docs)
    ensures |texts| == |docs|
  {
    seq(|docs|, i requires 0 <= i < |docs| => docs[IdOf(i)])
  }

  /** The ids of the next two positions are new, so writing them keeps the docstore dense. */
  lemma AppendTurnKeys(docs: map<string, string>, question: string, answer: string)
    requires Dense(docs)
    ensures var n := |docs|;
      var after := docs[IdOf(n) := question][IdOf(n + 1) := answer];
      Dense(after) && |after| == n + 2
  {
    var n := |docs|;
    IdsBelowGrow(n);
    var withQuestion := docs[IdOf(n) := question];
    assert |withQuestion| == n + 1;
    var after := withQuestion[IdOf(n + 1) := answer];
    assert |after| == n + 2;
  }

  /** Writing a turn under the next two ids keeps the docstore dense and appends the question and
      the answer, in that order, to what was stored before. */
  lemma AppendTurnDense(docs: map<string, string>, question: string, answer: string)
    requires Dense(docs)
    ensures var n := |docs|;
      var after := docs[IdOf(n) := question][IdOf(n + 1) := answer];
      Dense(after) && |after| == n + 2 && InOrder(after) == InOrder(docs) + [question, answer]
  {
    var n := |docs|;
    var after := docs[IdOf(n) := question][IdOf(n + 1) := answer];
    AppendTurnKeys(docs, question, answer);
    var now, expected := InOrder(after), InOrder(docs) + [question, answer];
    forall i | 0 <= i < n + 2 ensures now[i] == expected[i] {
      IdOfInjective(i, n + 1);
      if i < n {
        IdOfInjective(i, n);
      }
    }
  }

  /** Two new, different ids for a (question, answer) pair are accepted by `add_texts`, which then
      writes exactly those two entries. */
  lemma StoreTurn(docs: map<string, string>, x: string, y: string, question: string, answer: string)
    requires x !in docs && y !in docs && x != y
    ensures Distinct([x, y]) && (forall i :: 0 <= i < 2 ==> [x, y][i] !in docs)
    ensures docs + Zip([x, y], [question, answer]) == docs[x := question][y := answer]
  {
    var z := Zip([x, y], [question, answer]);
    assert [x, y][0] == x && [x, y][1] == y;
    assert x in z && y in z;
    assert z.Keys == {x, y};
    assert z == map[x := question, y := answer];
  }

  /** The ids `run_agent` stores a turn under, `str(n)` and `str(n + 1)` for a docstore of n
      entries, are new and different, so `add_texts` accepts them. */
  lemma TurnIdsFree(docs: map<string, string>)
    requires Dense(docs)
    ensures IdOf(|docs|) !in docs && IdOf(|docs| + 1) !in docs && IdOf(|docs|) != IdOf(|docs| + 1)
    ensures var ids := [IdOf(|docs|), IdOf(|docs| + 1)];
      Distinct(ids) && forall i :: 0 <= i < |ids| ==> ids[i] !in docs
  {
    IdsBelowGrow(|docs|);
  }

  /** Once a history stored turn by turn accepts a question and an answer under the next two ids,
      it holds the same history followed by the question and the answer, still turn by turn. */
  lemma {:induction false} TurnRecorded(docs: map<string, string>, after: map<string, string>, n: nat,
                     question: string, answer: string)
    requires Dense(docs) && |docs| % 2 == 0 && n == |docs|
    requires IdOf(n) != IdOf(n + 1)
    requires after == docs + Zip([IdOf(n), IdOf(n + 1)], [question, answer])
    ensures Dense(after) && |after| % 2 == 0
    ensures InOrder(after) == InOrder(docs) + [question, answer]
  {
    TurnIdsFree(docs);
    StoreTurn(docs, IdOf(n), IdOf(n + 1), question, answer);
    AppendTurnDense(docs, question, answer);
    assert (n + 2) % 2 == 0;
  }

  /** Listing the ids of a dense docstore in position order reads every entry once, in increasing
      order of the ids' integer values; the text under the i-th of them is the i-th of `InOrder`. */
  lemma OrderedReadSpec(docs: map<string, string>, keys: seq<string>)
    requires Dense(docs) && |keys| == |docs|
    requires forall j :: 0 <= j < |keys| ==> keys[j] == IdOf(j)
    ensures forall k :: k in keys <==> k in docs
    ensures SortedByValue(keys)
    ensures forall i :: 0 <= i < |keys| ==> keys[i] in docs && InOrder(docs)[i] == docs[keys[i]]
  {
    IdRunSorted(keys);
  }

  /** One user's FAISS history store, reduced to its docstore: id -> stored text. */
  class HistoryStore {
    var docs: map<string, string>

    ghost predicate Valid()
      reads this
    {
      Dense(docs)
    }

    /** `create_empty_faiss`: a store with an empty docstore. */
    constructor ()
      ensures Valid() && docs == map[]
    {
      docs := map[];
    }

    /** The ordered read of `run_agent`: the keys sorted by their integer value and the texts
        stored under them. Every entry appears exactly once. */
    method ReadOrdered() returns (keys: seq<string>, texts: seq<string>)
      requires Valid()
      ensures |keys| == |docs| && forall k :: k in keys <==> k in docs
      ensures SortedByValue(keys)
      ensures |texts| == |keys| && forall i :: 0 <= i < |keys| ==> texts[i] == docs[keys[i]]
      ensures texts == InOrder(docs)
    {
      var stored := docs;
      keys := seq(|stored|, i requires 0 <= i < |stored| => IdOf(i));
      OrderedReadSpec(stored, keys);
      texts := seq(|keys|, i requires 0 <= i < |keys| => stored[keys[i]]);
    }

    /** `add_texts(texts, ids=ids)` with a non-empty `ids`, as far as the docstore goes: the ids
        must be as many as the texts, pairwise different and not stored yet. `added == false` stands for the `ValueError`
        `add_texts` raises on a length mismatch, a repeated id or an id already stored; the
        docstore is then left as it was. */
    method AddTexts(texts: seq<string>, ids: seq<string>) returns (added: bool)
      modifies this
      ensures added <==> |ids| == |texts| && Distinct(ids) && forall i :: 0 <= i < |ids| ==> ids[i] !in old(docs)
      ensures added ==> docs == old(docs) + Zip(ids, texts)
      ensures !added ==> docs == old(docs)
    {
      added := |ids| == |texts| && Distinct(ids) && forall i :: 0 <= i < |ids| ==> ids[i] !in docs;
      if added {
        docs := docs + Zip(ids, texts);
      }
    }

    /** The write of `run_agent`: the question and the answer go in under the ids of the next two
        positions, `str(nextId)` and `str(nextId + 1)`, where `nextId` is the number of keys read. */
    method AddTurn(question: string, answer: string, nextId: nat)
      requires Valid() && |docs| % 2 == 0 && nextId == |docs|
      modifies this
      ensures Valid() && |docs| % 2 == 0
      ensures InOrder(docs) == old(InOrder(docs)) + [question, answer]
    {
      ghost var before := docs;
      TurnIdsFree(docs);
      var added := AddTexts([question, answer], [IdOf(nextId), IdOf(nextId + 1)]);
      TurnRecorded(before, docs, nextId, question, answer);
    }
  }
}
