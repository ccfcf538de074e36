# Aurelia bot: conversation store and reply step

This project models the Aurelia Telegram bot's core in Dafny. That core is
the process-wide `conversations` dictionary, which maps each user id to that
user's list of turns, plus the `get_ai_response` reply step and the
`/start` and `/reset` store updates built on it. It then proves properties
about that model.

- `wrappers.dfy`: `Option`, the result of the remote text-generation call.
- `conversation.dfy` (module `Conversation`) holds:
  - turns and roles;
  - the two window sizes, with `HistoryCap` = 20 kept turns and `ContextWindow` = 10 prompt turns;
  - `LastN`, Python's `s[-n:]`;
  - `NextHistory`, the history a reply step leaves behind.

  It also proves the FIFO law: `ReplayIsWindow` shows that, from any history within the cap, any series of reply steps leaves the last 20 turns of everything seen, in arrival order.
- `prompting.dfy` (module `Prompting`) holds:
  - line rendering (`Role.title() + ": " + content`);
  - the `"\n".join` of those lines;
  - the context block and the full prompt f-string;
  - the apology fallback.

  It pairs each construction with a reader that inverts it and proves the two round trips: context block to turns, and prompt to context.
- `bot.dfy` (module `Bot`) holds:
  - the class `ConversationStore` with the `conversations` map as a field;
  - the methods `Start`, `Reset` and `GetAiResponse`, which update that field in place step by step, in the same order as the source;
  - a few client methods exercising concrete conversations.

`ConversationStore.Valid()` says that every stored history holds at most 20 turns.
- This holds between calls.
- Inside `GetAiResponse` a history briefly holds up to 22 turns: the user turn and the assistant turn are both appended before the cut. The method asserts these mid-call bounds, at most 21 turns after the user append and at most 22 after the assistant append, whenever the store was within the cap at entry.
- The method restores the cap before it returns. In fact it ends with the user's history at most 20 long whatever it held before, because the cut fires whenever the list is longer than 20.

The remote call `call_perchance_ai` is the method's parameter `callApi: string -> Option<string>`.
- It maps the exact prompt built from the history to the already-stripped response text.
- `None` stands for any failure: a non-200 status, a timeout or an exception.
- Because the call is a parameter, the method's contract can name the prompt the call receives.

## Model

| member | source | states |
|---|---|---|
| Conversation.LastN | bot.py:54 | The slice `s[-n:]` holds `min(n, len(s))` elements and is exactly the suffix of `s` of that length. |
| Conversation.LastNOfLastN | bot.py:75-76 | Cutting to the last `n` and then appending more gives the same last `n` as appending to the uncut list. This is why cutting after every step loses nothing later steps see. |
| Conversation.LastNSnoc | bot.py:51-54 | The last `n` elements after appending `x` are the last `n - 1` before it, followed by `x`. |
| Conversation.NextHistory | bot.py:51-76 | After a step the history holds `min(20, len+2)` turns. They are the suffix of old history + user turn + assistant turn, in arrival order. The last turn is the assistant's reply and the one before it is the user's message. |
| Conversation.Transcript | bot.py:51-72 | The turns of `k` exchanges are `2k` turns, alternating user message and assistant reply, in order. |
| Conversation.Replay | bot.py:47-76 | After at least one step the history is within the cap; after none it is unchanged. |
| Conversation.ReplayIsWindow | bot.py:47-76 | Starting from any history within the cap, a series of reply steps leaves exactly the last 20 turns of the old history followed by every turn since (FIFO eviction). |
| Conversation.FreshUserWindow | bot.py:47-76 | A user without history holds, after `k` exchanges, the most recent `min(20, 2k)` turns of them. |
| Prompting.Label | bot.py:55 | `.title()` of the two role names, "User" and "Assistant". Characterised by ParseRenderTurn, which reads each label back as its role. |
| Prompting.RenderTurn | bot.py:55 | The per-turn f-string `f"{role.title()}: {content}"`. Characterised by ParseRenderTurn (the line is `"User: "` or `"Assistant: "` followed by the content) and RenderTurnNoNewline. |
| Prompting.RenderAll | bot.py:55 | The list comprehension yields one line per turn. |
| Prompting.RenderAllAppend | bot.py:55 | Rendering a concatenation renders each part. |
| Prompting.RenderAllAt | bot.py:55 | The `k`-th line is the rendering of the `k`-th turn. |
| Prompting.ParseRenderTurn | bot.py:55 | A turn's line is `"User: "` or `"Assistant: "` followed by the content, and it reads back as that same turn. |
| Prompting.RenderTurnNoNewline | bot.py:55 | A line rendered from newline-free content holds no newline. |
| Prompting.RenderAllNoNewline | bot.py:55 | Every rendered line is newline-free when every content is. |
| Prompting.RenderUserLine | bot.py:51-55 | The new user turn renders as the single line `"User: " + message`. |
| Prompting.JoinLines | bot.py:55 | `"\n".join`. Characterised by JoinSnoc (one more line adds a separator and that line, no trailing separator) and SplitJoin (splitting the result gives back the lines, for a non-empty list of newline-free lines). |
| Prompting.Context | bot.py:54-55 | The context block: the last 10 turns, one rendered line each, joined by newlines. Characterised by ContextEndsWithMessage (the exact text for every history) and ContextRoundTrip (it reads back as exactly those turns for a non-empty history whose contents hold no newline). |
| Prompting.SplitNewlineFree | bot.py:55 | A newline-free line read back by splitting is that line alone. |
| Prompting.SplitAtNewline | bot.py:55 | Splitting at the first joining newline separates the first line from the rest. |
| Prompting.SplitJoin | bot.py:55 | `"\n".join` puts a separator only between neighbouring lines. Splitting the joined text of a non-empty list gives back exactly the lines, when none holds a newline. The empty list joins to `""`, which splits to one empty line. |
| Prompting.JoinSnoc | bot.py:55 | Joining one more line appends `"\n"` and that line, with no trailing separator. |
| Prompting.ParseRenderAll | bot.py:55 | The rendered lines read back as the turns they came from, in order. |
| Prompting.ContextRoundTrip | bot.py:54-55 | For a non-empty history whose contents hold no newline, the context determines its turns: it reads back as exactly the last `min(10, len)` turns of the history. |
| Prompting.StepContext | bot.py:51-55 | At a reply step where no content of the history or the message holds a newline, the context reads back as the last `min(10, len+1)` turns of the history with the new user turn appended, and the user turn is the last of them. |
| Prompting.ContextEndsWithMessage | bot.py:51-55 | The context of a step is the preceding up to 9 turns' lines, then `"\n"`, then `"User: " + message`. With no earlier turns it is that line alone. |
| Prompting.ContextAfterReset | bot.py:51-55 | After a reset, the context is the single line `"User: " + message`. |
| Prompting.Prompt | bot.py:57-62 | The prompt is the persona text, `"\n\nHistorico da conversa:\n"`, the context, then `"\n\nResponda a ultima mensagem do usuario como Aurelia, em portugues brasileiro:"`, each part at its stated offsets. The prompt is never empty. |
| Prompting.PromptRoundTrip | bot.py:57-62 | The context block can be recovered from the prompt. |
| Prompting.ChooseReply | bot.py:65-69 | A present, non-empty API text is the reply. A missing or empty one is replaced by the fixed apology. Either way the reply is non-empty. |
| Bot.Lookup | bot.py:47-48 | Get-or-create as a read: a user without an entry has the empty history. The contract of GetAiResponse is written with it; HistoryOf is the same read on the store and states both cases. |
| Bot.UpdateFrame | bot.py:47-76 | Storing one user's history leaves every other user's history as it was. |
| Bot.UpdateKeepsCap | bot.py:75-76 | Storing a history within the cap keeps the whole store within the cap. |
| Bot.ConversationStore.Valid | bot.py:75-76 | The cap invariant: every stored history holds at most 20 turns between calls. The constructor establishes it, and Start, Reset and GetAiResponse keep it. |
| Bot.ConversationStore.HistoryOf | bot.py:47-48 | A user without an entry has the empty history; otherwise the history is the stored list. |
| Bot.ConversationStore.constructor | bot.py:13 | The store starts with no entries and within the cap. |
| Bot.ConversationStore.Start | bot.py:87 | `/start` sets the user's entry to the empty history, whatever it held. Every other user's entry is unchanged and the cap invariant is kept. |
| Bot.ConversationStore.Reset | bot.py:105 | `/reset` sets the user's entry to the empty history, whatever it held. Every other user's entry is unchanged and the cap invariant is kept. |
| Bot.ConversationStore.GetAiResponse | bot.py:43-78 | The reply is the chosen reply for the exact prompt built from the old history plus the user turn, and it is never empty. The user's new entry is `NextHistory` of the old history (a missing entry counts as empty), so the returned reply is stored as its last turn. Only that user's entry changes, and the cap invariant is kept. |
| Bot.TwoReplies | bot.py:43-78 | Two successive `get_ai_response` calls on the store leave the user with `Replay` of both exchanges, each exchange pairing the message with the returned reply. From a store within the cap, the user keeps exactly the last 20 turns of the old history followed by both exchanges: the FIFO law on the store itself. |

The lemmas `Conversation.AppendTwiceThenCut`, `Conversation.NextHistoryIsWindow`, `Conversation.TranscriptAppend`, `Conversation.ReplayTwo`, `Bot.UpdateTwice` and `Bot.WithinCapAt` are proof helpers: each restates a definition or a rule of map update so that the proofs above stay small.

## Left out

- The Telegram handlers are not modelled: `start`'s and `reset`'s welcome and confirmation messages, `help_cmd`, `handle_message`, `send_chat_action`, `reply_text`, `main` and polling (bot.py:84-147). They do framework I/O only. Only the store lines bot.py:87 and bot.py:105 are modelled.
- `call_perchance_ai` (bot.py:22-41) is not modelled: its HTTP POST, 30-second timeout, status check, `strip()` and exception catch are network I/O. Its outcome is the `callApi` parameter, which already returns the stripped text or `None`.
- The `BOT_TOKEN` environment variable and its check (bot.py:10, bot.py:132-134) are configuration.
- The outer catch-all in `get_ai_response` (bot.py:80-82) is unreachable in the model: no modelled step can raise. Its "Ops!" reply is never produced.
- `print` logging is left out.
- Async scheduling and concurrent reply steps for the same user are left out. Each step is modelled as one sequential, uninterrupted update of the store.
- Python's general `str.title()` is not modelled. Roles are a two-valued enum with the fixed labels "User" and "Assistant".
- Unicode `strip()` semantics belong to the remote call, which is not modelled.
- Conversation.LastN: only models `s[-n:]` for `n > 0`. `s[-0:]` is the whole list in Python, but the source only slices with 10 and 20.
- Prompting.ContextRoundTrip: only holds for a non-empty history whose contents hold no newline. The source always renders at least the new user turn, because it appends that turn before building the context, so the history it renders is never empty. A message with a newline makes its rendered line span several lines of the context, so that context does not determine its turns.
- Prompting.SplitJoin: only holds for a non-empty list of lines. `"\n".join([])` is `""`, which splits to `[""]`, and the source never joins an empty list.
- Prompting.StepContext: only holds when neither the history's contents nor the new message contain a newline, for the same reason. For every history and message, ContextEndsWithMessage still gives the exact context text.
- Bot.ConversationStore.GetAiResponse: a Python list is mutated in place by `.append`, while the model stores a fresh sequence value. No other reference to the list exists in the source, so no behaviour is lost.
