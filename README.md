# Conversation history and reply chunking of a Telegram LLM relay

The bot in `main.py` relays each Telegram text message to a hosted completion
service and sends back the reply. The one piece of state is
`conversation_history`, a dictionary from chat id to that chat's recent turns.
The bot keeps at most `MAX_HISTORY = 10` user/assistant pairs per chat. This
project models that store, the prompt built from it, the `/clear` command and
the splitting of long replies into 4096-character Telegram messages. It proves
the properties these parts promise.

Modules:

- `Basics` (basics.dfy): `Option` and `Min`.
- `History` (history.dfy): `Role`, `Turn` and `Exchange`.
  - Pure window functions: `Trim`, `Record` and `Replay`. `Replay` is the window
    after N successful exchanges starting from an empty chat.
  - Pure store functions: `Window`, `Prompt`, `RecordIn` and `ClearIn`.
  - The class `HistoryStore`. Its field `history: map<int, seq<Turn>>` is
    updated in place, as the Python dictionary is.
- `Chunking` (chunking.dfy): `Chunks`, `Replies` and `Join`.
- `Dispatcher` (dispatcher.dfy): `handle_message` and `clear_history` written as
  methods over a `HistoryStore`.

The completion call to Groq becomes a parameter
`complete: seq<Turn> -> Option<string>`. `Some(text)` is a reply. `None` is any
exception raised before `response.choices[0].message.content` is read. Telegram
sends are not performed. `HandleMessage` returns the list of messages it would
send, and `ClearHistory` returns its reply text.

## Model

| member | source | states |
|---|---|---|
| History.Trim | main.py:70-72 | a window keeps its last min(len, 20) turns, a suffix of the input |
| History.Record | main.py:61-72 | after one exchange the window has min(old+2, 20) turns, is the tail of old + [user, assistant], and ends with that pair |
| History.RecordWellFormed | main.py:61-72 | recording keeps a window within the cap, of even length and alternating user/assistant, so trimming never splits a pair |
| History.ReplayKeepsLatest | main.py:61-72 | after any number of exchanges from empty, the window is exactly the turns of the newest 10 exchanges in order (FIFO eviction) |
| History.ReplayLength | main.py:61-72 | after N exchanges from empty the window has min(2N, 20) turns, an even number, and is well formed |
| History.ElevenExchanges | main.py:70-72 | after 11 exchanges the window is the last 10 pairs (20 turns), and the first pair is gone |
| History.Prompt | main.py:28-44 | the prompt has window+2 turns: the system turn first, the stored window in order in the middle, and the new user turn last; an unseen chat contributes no turns |
| History.PromptRoles | main.py:28-44 | over a well-formed store the prompt has exactly one system turn, at the front, and alternates user/assistant after it |
| History.RecordIn | main.py:58-72 | recording creates the chat's key if absent, sets its window to Record of the old window, and leaves every other chat's window unchanged |
| History.RecordInValid | main.py:58-72 | recording preserves the store invariant (every window well formed) |
| History.ClearIn | main.py:91-92 | clearing a known chat keeps its key with an empty window; clearing an unknown chat changes nothing; other chats are untouched |
| History.HistoryStore.constructor | main.py:24 | the store starts with no chats and satisfies the invariant |
| History.HistoryStore.BuildMessages | main.py:28-44 | the appending loop builds exactly Prompt of the current store, and it modifies nothing |
| History.HistoryStore.RecordExchange | main.py:58-72 | the in-place create/append/append/trim leaves the store equal to RecordIn of the old store, with the invariant kept |
| History.HistoryStore.AskLlm | main.py:27-74 | the completion service is given Prompt of the old store; a failed call leaves the store exactly as before; a reply is recorded as RecordIn |
| History.HistoryStore.Clear | main.py:91-95 | reports whether the chat was known and leaves the store equal to ClearIn of the old store |
| Chunking.Chunks | main.py:118 | ceil(L/4096) chunks, each non-empty and at most 4096 characters, all but the last exactly 4096 |
| Chunking.ChunksJoin | main.py:118 | concatenating the chunks in order gives back the reply |
| Chunking.ChunkAt | main.py:118 | chunk i is the slice s[i*4096 : min((i+1)*4096, L)], which is what the list comprehension builds |
| Chunking.Replies | main.py:116-122 | the messages sent concatenate to the reply in order; there is 1 message when the reply has at most 4096 characters and ceil(L/4096) otherwise; none is longer than 4096 |
| Chunking.NineThousand | main.py:116-122 | a 9000-character reply is sent as 3 messages of 4096, 4096 and 808 characters |
| Dispatcher.HandleMessage | main.py:101-126 | a message without text is ignored; otherwise the prompt goes to the service; on failure an error notice is sent and the history is unchanged; on success the exchange is recorded and Replies of the reply is sent |
| Dispatcher.ClearHistory | main.py:88-95 | the store becomes ClearIn of the old store; the confirmation is sent iff the chat was known, and "no history to clear" otherwise |

## Left out

- The Groq call itself (main.py:15, 46-55) is left out: the model id, temperature 0.7, top_p 1 and max_tokens 1024. It is a network call to a foreign library, with float parameters. It is the `complete` parameter.
- A reply whose `content` is `None` is not modelled. In Python it would be stored in the history, and `len` on it would then raise in `handle_message`. The model's reply is always a string.
- Telegram I/O is left out: `reply_text`, `send_chat_action` ("typing"), `Application`, handler registration, `run_polling` and `error_handler` (main.py:77-86, 97-99, 110, 119-122, 128-153). Sending each chunk is one transport call. Failures of those calls, including a failure part-way through a chunk sequence, are not modelled.
- The /start and /ping handlers (main.py:77-86, 97-99) are left out. They send fixed text and touch no state.
- The command filter `filters.TEXT & ~filters.COMMAND` (main.py:143) is the framework's job and is left out. `HandleMessage` assumes it receives only non-command text.
- Reading the API keys from the environment (main.py:10-11) is process I/O and is left out. As written, `os` is never imported, so these lines fail when the module is imported. `main.py` does not check for missing credentials at startup.
- The text of the error notice (main.py:125-126) is not modelled. It interpolates foreign exception text. `ErrorNotice` stands for it.
- Concurrency between async handlers is not modelled, including two messages from one chat racing on its history. The model handles one event at a time.
