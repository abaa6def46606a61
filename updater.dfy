/** The chat-log updater: a question and the query's answer are merged into the
    conversation log in place, and (when streaming) a snapshot of the log is emitted
    after every partial answer and once more at the end. */
module Updater {
  import opened Text
  import opened Search

  /** A `{role, content}` entry of the displayed conversation. */
  datatype Message = Message(role: string, content: string)

  function UserTurn(question: string): Message {
    Message("user", question)
  }

  function AssistantTurn(text: string): Message {
    Message("assistant", text)
  }

  /** The extra assistant entry that shows the search results. */
  function SearchNote(results: string): Message {
    Message("assistant", "Web Search Results:\n" + results)
  }

  /** What the query gives the updater: every pair the streaming call yields, or the
      one pair of the single-shot call. */
  datatype Answer = Streamed(pairs: seq<Pair>) | Single(reply: Pair)

  /** The streaming call always yields at least one pair (see `StreamYieldsNonEmpty`). */
  predicate Answerable(answer: Answer) {
    answer.Streamed? ==> |answer.pairs| > 0
  }

  /** One step of the streaming loop: a trailing assistant entry is replaced by the new
      partial text, otherwise the partial text is appended as a new assistant entry. */
  function Merge(log: seq<Message>, partial: string): seq<Message> {
    if |log| > 0 && log[|log| - 1].role == "assistant"
    then log[..|log| - 1] + [AssistantTurn(partial)]
    else log + [AssistantTurn(partial)]
  }

  /** The log after merging the texts of the given pairs one after another. */
  function MergeAll(log: seq<Message>, pairs: seq<Pair>): seq<Message>
    decreases |pairs|
  {
    if pairs == [] then log
    else Merge(MergeAll(log, pairs[..|pairs| - 1]), pairs[|pairs| - 1].text)
  }

  /** The log as emitted after each merge step. */
  function Snapshots(log: seq<Message>, pairs: seq<Pair>): seq<seq<Message>>
    decreases |pairs|
  {
    if pairs == [] then []
    else Snapshots(log, pairs[..|pairs| - 1]) + [MergeAll(log, pairs)]
  }

  /** The log that `update_chatbot` leaves behind. */
  function Updated(log: seq<Message>, question: string, webSearch: bool, answer: Answer): seq<Message>
    requires Answerable(answer)
  {
    if question == "" then log
    else
      var base := log + [UserTurn(question)];
      match answer
      case Streamed(pairs) =>
        var merged := MergeAll(base, pairs);
        var results := pairs[|pairs| - 1].search;
        if webSearch && results != "" then merged + [SearchNote(results)] else merged
      case Single(reply) =>
        base + [AssistantTurn(reply.text)] + (if webSearch then [SearchNote(reply.search)] else [])
  }

  /** The snapshots `update_chatbot` emits: none when there is nothing to do or when it
      does not stream (its `return` emits nothing), otherwise one per streamed pair and
      a last one. */
  function Emitted(log: seq<Message>, question: string, webSearch: bool, answer: Answer): seq<seq<Message>>
    requires Answerable(answer)
  {
    if question == "" || answer.Single? then []
    else Snapshots(log + [UserTurn(question)], answer.pairs) + [Updated(log, question, webSearch, answer)]
  }

  /** The list object that holds the conversation and is changed in place. */
  class ChatLog {
    var messages: seq<Message>

    constructor (initial: seq<Message>)
      ensures messages == initial
    {
      messages := initial;
    }

    /** `update_chatbot` on this log. */
    method Update(question: string, webSearch: bool, answer: Answer) returns (emitted: seq<seq<Message>>)
      requires Answerable(answer)
      modifies this
      ensures messages == Updated(old(messages), question, webSearch, answer)
      ensures emitted == Emitted(old(messages), question, webSearch, answer)
    {
      emitted := [];
      if question == "" {
        return;
      }
      messages := messages + [UserTurn(question)];
      match answer {
        case Streamed(pairs) =>
          ghost var base := messages;
          var searchResults := "";
          for i := 0 to |pairs|
            invariant messages == MergeAll(base, pairs[..i])
            invariant emitted == Snapshots(base, pairs[..i])
            invariant i > 0 ==> searchResults == pairs[i - 1].search
          {
            assert pairs[..i + 1][..i] == pairs[..i];
            var partial := pairs[i].text;
            searchResults := pairs[i].search;
            if |messages| > 0 && messages[|messages| - 1].role == "assistant" {
              messages := messages[..|messages| - 1] + [AssistantTurn(partial)];
            } else {
              messages := messages + [AssistantTurn(partial)];
            }
            emitted := emitted + [messages];
          }
          assert pairs[..|pairs|] == pairs;
          if webSearch && searchResults != "" {
            messages := messages + [SearchNote(searchResults)];
          }
          emitted := emitted + [messages];
        case Single(reply) =>
          messages := messages + [AssistantTurn(reply.text)];
          if webSearch {
            messages := messages + [SearchNote(reply.search)];
          }
      }
    }
  }

  /** `update_chatbot` as called with a log or with none: without one it works on a
      fresh empty log that nobody else sees. */
  method UpdateChatbot(question: string, webSearch: bool, chatLog: ChatLog?, answer: Answer)
    returns (emitted: seq<seq<Message>>)
    requires Answerable(answer)
    modifies chatLog
    ensures chatLog != null ==> chatLog.messages == Updated(old(chatLog.messages), question, webSearch, answer)
    ensures chatLog != null ==> emitted == Emitted(old(chatLog.messages), question, webSearch, answer)
    ensures chatLog == null ==> emitted == Emitted([], question, webSearch, answer)
  {
    var log := chatLog;
    if log == null {
      log := new ChatLog([]);
    }
    emitted := log.Update(question, webSearch, answer);
  }

  /** After the user entry, the first partial appends an assistant entry and every later
      one overwrites it: exactly one assistant entry, holding the latest text. */
  lemma {:induction false} MergeAllKeepsOneAssistant(base: seq<Message>, pairs: seq<Pair>)
    requires |base| > 0 && base[|base| - 1].role != "assistant"
    requires |pairs| > 0
    ensures MergeAll(base, pairs) == base + [AssistantTurn(pairs[|pairs| - 1].text)]
    decreases |pairs|
  {
    var init := pairs[..|pairs| - 1];
    if |init| > 0 {
      MergeAllKeepsOneAssistant(base, init);
      var before := base + [AssistantTurn(init[|init| - 1].text)];
      assert before[..|before| - 1] == base;
    }
  }

  /** The i-th snapshot holds the base log and one assistant entry with the i-th text. */
  lemma {:induction false} SnapshotsShape(base: seq<Message>, pairs: seq<Pair>)
    requires |base| > 0 && base[|base| - 1].role != "assistant"
    ensures |Snapshots(base, pairs)| == |pairs|
    ensures forall i :: 0 <= i < |pairs| ==>
      Snapshots(base, pairs)[i] == base + [AssistantTurn(pairs[i].text)]
    decreases |pairs|
  {
    if pairs != [] {
      var init := pairs[..|pairs| - 1];
      SnapshotsShape(base, init);
      MergeAllKeepsOneAssistant(base, pairs);
      forall i | 0 <= i < |init| ensures init[i] == pairs[i] { }
    }
  }

  /** An empty question leaves the log as it was and emits nothing. */
  lemma EmptyQuestionIsNoOp(log: seq<Message>, webSearch: bool, answer: Answer)
    requires Answerable(answer)
    ensures Updated(log, "", webSearch, answer) == log
    ensures Emitted(log, "", webSearch, answer) == []
  {
  }

  /** Streaming: the user entry, then exactly one assistant entry with the last pair's
      text (an error text included), then the search results if web search is on and
      the last pair has some; one snapshot per pair, each with the user entry and the
      latest partial, and a final snapshot of the finished log. */
  lemma StreamingUpdate(log: seq<Message>, question: string, webSearch: bool, pairs: seq<Pair>)
    requires question != "" && |pairs| > 0
    ensures var last := pairs[|pairs| - 1];
      Updated(log, question, webSearch, Streamed(pairs))
        == log + [UserTurn(question), AssistantTurn(last.text)]
             + (if webSearch && last.search != "" then [SearchNote(last.search)] else [])
    ensures var e := Emitted(log, question, webSearch, Streamed(pairs));
      && |e| == |pairs| + 1
      && (forall i :: 0 <= i < |pairs| ==> e[i] == log + [UserTurn(question), AssistantTurn(pairs[i].text)])
      && e[|pairs|] == Updated(log, question, webSearch, Streamed(pairs))
  {
    var base := log + [UserTurn(question)];
    MergeAllKeepsOneAssistant(base, pairs);
    SnapshotsShape(base, pairs);
    assert base + [AssistantTurn(pairs[|pairs| - 1].text)]
        == log + [UserTurn(question), AssistantTurn(pairs[|pairs| - 1].text)];
    forall i | 0 <= i < |pairs|
      ensures base + [AssistantTurn(pairs[i].text)] == log + [UserTurn(question), AssistantTurn(pairs[i].text)]
    {
    }
  }

  /** Not streaming: the user entry, one assistant entry with the response, and the
      search results whenever web search is on, even when they are empty; nothing is
      emitted. */
  lemma SingleShotUpdate(log: seq<Message>, question: string, webSearch: bool, reply: Pair)
    requires question != ""
    ensures Updated(log, question, webSearch, Single(reply))
         == log + [UserTurn(question), AssistantTurn(reply.text)]
              + (if webSearch then [SearchNote(reply.search)] else [])
    ensures Emitted(log, question, webSearch, Single(reply)) == []
  {
  }

  /** Earlier entries are never changed: the update only appends two or three entries,
      or none for an empty question. */
  lemma UpdateOnlyAppends(log: seq<Message>, question: string, webSearch: bool, answer: Answer)
    requires Answerable(answer)
    ensures var u := Updated(log, question, webSearch, answer);
      |log| <= |u| && u[..|log|] == log &&
      (question == "" <==> |u| == |log|) &&
      (question != "" ==> 2 <= |u| - |log| <= 3 && u[|log|] == UserTurn(question))
  {
    if question != "" {
      match answer
      case Streamed(pairs) => StreamingUpdate(log, question, webSearch, pairs);
      case Single(reply) => SingleShotUpdate(log, question, webSearch, reply);
    }
  }

  /** The streaming call always yields at least one pair, so the updater always has
      a last pair to look at. */
  lemma StreamYieldsNonEmpty(webSearch: bool, chunks: seq<string>, ending: Ending, followUp: Reply)
    ensures Answerable(Streamed(StreamYields(webSearch, chunks, ending, followUp)))
  {
  }

  /** The streaming path end to end: the assistant entry ends up holding the whole
      streamed text, or the error that cut the stream or the follow-up call short; the
      search results are shown only when the follow-up call delivered some. */
  lemma StreamedChat(log: seq<Message>, question: string, webSearch: bool,
                     chunks: seq<string>, ending: Ending, followUp: Reply)
    requires question != ""
    ensures var answer := Streamed(StreamYields(webSearch, chunks, ending, followUp));
      var u := Updated(log, question, webSearch, answer);
      var text := Join(chunks, "");
      && |Emitted(log, question, webSearch, answer)| == |Collected(chunks)| + 2
      && (ending.Broken? ==>
            u == log + [UserTurn(question), AssistantTurn("Error: " + ending.message)])
      && (ending.Completed? && !webSearch ==>
            u == log + [UserTurn(question), AssistantTurn(text)])
      && (ending.Completed? && webSearch && followUp.Raised? ==>
            u == log + [UserTurn(question), AssistantTurn("Error: " + followUp.message)])
      && (ending.Completed? && webSearch && followUp.Answered? ==>
            u == log + [UserTurn(question), AssistantTurn(text)]
                   + (if followUp.rendered != "" then [SearchNote(followUp.rendered)] else []))
  {
    var pairs := StreamYields(webSearch, chunks, ending, followUp);
    StreamShape(webSearch, chunks, ending, followUp);
    StreamingUpdate(log, question, webSearch, pairs);
  }

  /** The single-shot path end to end: with web search on, the search-results entry is
      appended even after a failure, and then shows no results. */
  lemma SingleShotChat(log: seq<Message>, question: string, webSearch: bool, reply: Reply)
    requires question != ""
    ensures var u := Updated(log, question, webSearch, Single(Query(webSearch, reply)));
      && (reply.Raised? ==>
            u == log + [UserTurn(question), AssistantTurn("Error: " + reply.message)]
                   + (if webSearch then [SearchNote("")] else []))
      && (reply.Answered? ==>
            u == log + [UserTurn(question), AssistantTurn(reply.text.GetOr(""))]
                   + (if webSearch then [SearchNote(reply.rendered)] else []))
  {
    SingleShotUpdate(log, question, webSearch, Query(webSearch, reply));
  }

  /** Partial texts "A", "AB", "ABC": the finished log ends with one assistant entry
      "ABC", and no snapshot has two assistant entries after the question. */
  lemma GrowingPartialsExample(log: seq<Message>, question: string)
    requires question != ""
    ensures var pairs := [Pair("A", ""), Pair("AB", ""), Pair("ABC", "")];
      var e := Emitted(log, question, false, Streamed(pairs));
      && Updated(log, question, false, Streamed(pairs)) == log + [UserTurn(question), AssistantTurn("ABC")]
      && |e| == 4
      && (forall i :: 0 <= i < |e| ==> |e[i]| == |log| + 2 && e[i][|log| + 1].role == "assistant")
  {
    var pairs := [Pair("A", ""), Pair("AB", ""), Pair("ABC", "")];
    StreamingUpdate(log, question, false, pairs);
  }
}
