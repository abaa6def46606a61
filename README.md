# Chat front-end core: prompt serialiser, stream accumulator, chat-log updater

This project models the logic of `src/utils/chat.py` of a small chat front-end that forwards
questions to a hosted generative-model service, optionally with web-search grounding, and shows
the answers in a chat widget. Three parts are modelled.

- **Prompt serialiser** (`_build_prompt`, module `Prompt`). An ordered chat log becomes one
  newline-joined prompt. Log entries are `{role, content}` dictionaries with keys that may be
  missing, or legacy `(role, text)` pairs. A free-text role becomes the label `User`, `Assistant`
  or itself, by a case-insensitive prefix test.
- **Queries** (`google_search_query`, `google_search_query_stream`, module `Search`). The model
  service is an oracle. The single-shot call gets a `Reply`: a response (text possibly missing,
  plus the rendered search entry point) or a raised exception. The streaming call gets the chunk
  texts, how the stream ended, and the reply of the follow-up call. Its accumulate-and-yield loop
  is the method `Search.QueryStream`, proved against the closed form `StreamYields`.
- **Chat-log updater** (`update_chatbot`, module `Updater`). The log list is the class
  `ChatLog`, and `Update` changes it in place. A streaming call merges each partial answer into
  one trailing assistant entry and emits a snapshot of the log after each pair and once at the
  end. The non-streaming branch emits nothing, because the function is a generator whose
  `return` yields no value. Its only effect is the in-place change of the log. The query results
  come in as an `Answer` (all streamed pairs, or the one single-shot pair). `StreamedChat` and
  `SingleShotChat` compose the updater with the two query models.

Strings are `seq<char>`. `str.lower()` is modelled on ASCII letters only (`Text.Lower`).
`"sep".join` is `Text.Join`. `Text.Split` is its inverse only when no part contains the
separator (the requires of `Text.SplitJoin`); it is used to state the line structure of the prompt.

Two behaviours of the code are worth noting:

- The "Web search not used." note is only produced when web search is off, and then no
  search-results entry is added. So the non-streaming path never shows that note as search
  results. With web search on and the call failing, it does add an entry
  `"Web Search Results:\n"` with nothing after it, right after the error
  (`Updater.SingleShotChat`).
- An empty question is checked before the user entry is added, so nothing is added at all.

## Model

| member | source | states |
|---|---|---|
| Text.Lower | src/utils/chat.py:29 | lower-casing keeps the length of the role |
| Text.LowerEach | src/utils/chat.py:29 | lower-casing lower-cases each ASCII letter in place and leaves no upper-case ASCII letter |
| Text.LowerKeeps | src/utils/chat.py:29 | a role without upper-case ASCII letters is its own lower-case form |
| Text.SplitJoin | src/utils/chat.py:37 | splitting a `"\n".join` of lines that contain no newline gives back exactly those lines |
| Text.JoinEmptyPrefix | src/utils/chat.py:112-113 | the concatenation of a prefix of the parts is a prefix of the concatenation of all parts |
| Prompt.RoleOf | src/utils/chat.py:24-28 | definition, no contract: a dictionary's role with default `assistant`, or the legacy pair's role |
| Prompt.ContentOf | src/utils/chat.py:24-28 | definition, no contract: a dictionary's content with default `""`, or the legacy pair's text |
| Prompt.IsUserRole | src/utils/chat.py:29 | definition, no contract: the lower-cased role starts with `user` or `you` |
| Prompt.IsAssistantRole | src/utils/chat.py:31 | definition, no contract: the lower-cased role starts with `assistant` or `ai` |
| Prompt.Label | src/utils/chat.py:29-34 | definition, no contract: `User` for a user role, else `Assistant` for an assistant role, else the role itself; stated by `Prompt.LabelUser`, `Prompt.LabelAssistant`, `Prompt.LabelOther` |
| Prompt.Line | src/utils/chat.py:35 | definition, no contract: `Label: content` for one entry |
| Prompt.PromptLines | src/utils/chat.py:22-36 | definition, no contract: the local `lines` list; stated by `Prompt.PromptLinesShape` |
| Prompt.BuildPrompt | src/utils/chat.py:18-37 | definition, no contract: the bare question for an empty log, otherwise the lines joined by newlines; stated by `Prompt.EmptyLogPrompt`, `Prompt.PromptSplitsIntoLines`, `Prompt.PromptFrame` |
| Prompt.EmptyLogPrompt | src/utils/chat.py:19-20 | with an empty log the prompt is exactly the question, with no header |
| Prompt.PromptLinesShape | src/utils/chat.py:22-36 | the list of prompt lines has log length + 2 entries: the header, one `Label: content` line per entry in log order, then `User: question`; the prompt string itself has more lines when some content contains a newline (see `Prompt.PromptSplitsIntoLines`) |
| Prompt.PromptSplitsIntoLines | src/utils/chat.py:22-37 | if no role, content or question contains a newline, reading the prompt line by line gives exactly those log length + 2 lines |
| Prompt.PromptFrame | src/utils/chat.py:22-37 | a non-empty log's prompt starts with `Conversation so far:` and a newline and ends with a newline and `User: question` |
| Prompt.LabelUser | src/utils/chat.py:29-30 | the label is `User` if and only if the lower-cased role starts with `user` or `you` |
| Prompt.LabelAssistant | src/utils/chat.py:31-32 | the label is `Assistant` if and only if the role is not a user role and its lower-cased form starts with `assistant` or `ai` |
| Prompt.LabelOther | src/utils/chat.py:33-34 | every other role is printed unchanged, and it is never the text `User` or `Assistant` |
| Prompt.LabelCaseInsensitive | src/utils/chat.py:29-32 | two roles with the same lower-cased form that get the `User` or `Assistant` label get the same label |
| Prompt.StandardLabels | src/utils/chat.py:29-32 | the roles `user` and `assistant` print as `User` and `Assistant` |
| Prompt.MissingKeys | src/utils/chat.py:24-26 | a dictionary without a role is labelled `Assistant`; one without content prints an empty message |
| Prompt.TwoTurnLines | src/utils/chat.py:22-36 | a log with one user turn and one assistant turn gives the header, `User: ...`, `Assistant: ...` and `User: question` lines |
| Prompt.TwoTurnExample | src/utils/chat.py:18-37 | the history user "hi", assistant "hello" with question "bye" gives `Conversation so far:\nUser: hi\nAssistant: hello\nUser: bye` |
| Search.Query | src/utils/chat.py:60-87 | definition, no contract: the reply's text (empty if missing) with the search results or the not-used note, or the error pair; stated by `Search.StreamAgreesWithQuery`, `Search.FailuresBecomeErrorPairs` |
| Search.Partials | src/utils/chat.py:109-112 | definition, no contract: the running concatenations yielded after each collected chunk |
| Search.FinalPair | src/utils/chat.py:113-128 | definition, no contract: the closing pair for each ending and follow-up outcome; stated by `Search.StreamShape` |
| Search.StreamYields | src/utils/chat.py:108-128 | definition, no contract: every pair the streaming query yields; stated by `Search.StreamShape`, `Search.PartialAfterChunk` |
| Search.Collected | src/utils/chat.py:108-111 | the collected chunks are all non-empty and no more numerous than the chunks received |
| Search.QueryStream | src/utils/chat.py:108-128 | the loop yields exactly `StreamYields`: the running concatenation after every non-empty chunk, then the final pair |
| Search.CollectedJoin | src/utils/chat.py:109-113 | the final text, the join of the collected chunks, equals the concatenation of all chunks, empty ones included |
| Search.StreamShape | src/utils/chat.py:108-128 | one intermediate pair per non-empty chunk plus one final pair; intermediate pairs have an empty search part, are prefixes of the whole text and strictly grow; the final pair is (whole text, "Web search not used.") with web search off, (whole text, results) with it on, or the error pair after a failure |
| Search.PartialAfterChunk | src/utils/chat.py:109-112 | the pair yielded right after a non-empty chunk carries the concatenation of all chunks up to and including it |
| Search.StreamAgreesWithQuery | src/utils/chat.py:78-85 | a completed stream ends with the same pair the single-shot query returns for a reply with the same text and search results |
| Search.FailuresBecomeErrorPairs | src/utils/chat.py:86-87 | a failure in either query becomes `("Error: " + message, "")`, and in the stream it is the last pair |
| Updater.Merge | src/utils/chat.py:153-156 | definition, no contract: overwrite a trailing assistant entry with the partial text, or append one |
| Updater.MergeAll | src/utils/chat.py:146-156 | definition, no contract: the log after merging every pair's text in order; stated by `Updater.MergeAllKeepsOneAssistant` |
| Updater.Snapshots | src/utils/chat.py:153-157 | definition, no contract: the log after each merge step; stated by `Updater.SnapshotsShape` |
| Updater.Updated | src/utils/chat.py:139-182 | definition, no contract: the log `update_chatbot` leaves behind; stated by `Updater.StreamingUpdate`, `Updater.SingleShotUpdate`, `Updater.UpdateOnlyAppends` |
| Updater.Emitted | src/utils/chat.py:141-165 | definition, no contract: the snapshots `update_chatbot` emits; stated by `Updater.StreamingUpdate`, `Updater.SingleShotUpdate` |
| Updater.ChatLog.constructor | src/utils/chat.py:139-140 | a log starts with the given entries |
| Updater.ChatLog.Update | src/utils/chat.py:131-182 | the log afterwards is `Updated` of the log before, and the emitted snapshots are `Emitted` |
| Updater.UpdateChatbot | src/utils/chat.py:139-140 | a missing log is replaced by a fresh empty one; a given log is updated in place |
| Updater.MergeAllKeepsOneAssistant | src/utils/chat.py:153-156 | after the user entry, the first partial appends an assistant entry and later ones overwrite it, leaving exactly one entry with the last text |
| Updater.SnapshotsShape | src/utils/chat.py:153-157 | one snapshot per partial; the i-th holds the log up to the user entry and one assistant entry with the i-th text |
| Updater.EmptyQuestionIsNoOp | src/utils/chat.py:141-142 | an empty question leaves the log unchanged and emits nothing |
| Updater.StreamingUpdate | src/utils/chat.py:144-165 | streaming appends the user entry and one assistant entry with the last pair's text, then the search entry if and only if web search is on and the last pair's search part is non-empty; one snapshot per pair plus a final one |
| Updater.SingleShotUpdate | src/utils/chat.py:166-182 | not streaming appends the user entry, one assistant entry with the response, and the search entry whenever web search is on, even if empty; nothing is emitted |
| Updater.UpdateOnlyAppends | src/utils/chat.py:141-182 | earlier entries never change; an update adds nothing for an empty question, otherwise two or three entries starting with the user entry |
| Updater.StreamYieldsNonEmpty | src/utils/chat.py:126-128 | the streaming query always yields at least one pair |
| Updater.StreamedChat | src/utils/chat.py:146-165 | end to end, the assistant entry holds the whole streamed text or the error that cut the stream or follow-up short; search results are shown only when the follow-up call delivered non-empty results; the snapshot count is non-empty chunks + 2 |
| Updater.SingleShotChat | src/utils/chat.py:167-181 | end to end without streaming, a failure becomes an `Error: ` assistant entry, and with web search on an empty search-results entry follows it |
| Updater.GrowingPartialsExample | src/utils/chat.py:153-157 | the partials "A", "AB", "ABC" leave one assistant entry "ABC", and every snapshot has exactly one assistant entry after the question |

## Left out

- Client construction, the API-key lookup and the model calls (`_get_api_key`, `_create_client`, `generate_content`, `generate_content_stream`) are network and foreign-library code. Their results are oracle parameters (`Reply`, the chunk sequence, `Ending`). A missing API key is one more exception, so it is a `Raised` reply or a `Broken` stream with no chunks.
- `_build_config` and the grounding-metadata lookup only build or read library objects. The rendered search entry point is an input string, and a failed lookup is folded into `Raised`. A `rendered_content` of `None` is not modelled; search results are always strings.
- Temperature, model id and system instruction are only passed through to the service, so they are not parameters of the model.
- Exceptions are not modelled as such. A failure is a message that becomes the pair `("Error: " + message, "")`, and the text of a Python exception is that message.
- A chunk whose text is `None` is represented by the empty chunk; both are skipped alike.
- `str.lower()` is modelled on ASCII letters only; full Unicode case mapping is not.
- Generator suspension and resumption are not modelled. The yielded values are sequences of pairs or log snapshots. A snapshot is the log's value at the moment it is yielded, which does not capture that the widget holds the very same list object.
- Updater.ChatLog.Update: requires at least one streamed pair, because the streaming query always yields one (`Updater.StreamYieldsNonEmpty`). With no pair and web search on, the source would fail on an unbound `search_results`.
- The log passed to the query already holds the new user entry, so the question appears twice in the prompt. The composition of the updater with the prompt builder is not modelled; the updater's log entries are always complete `{role, content}` dictionaries, and legacy pairs occur only in the prompt builder.
- `src/config/settings.py` (environment loading and constants) and `app.py` (user-interface wiring) hold no logic and are not part of this model.
