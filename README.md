# FinNova client state, modelled in Dafny

FinNova is a personal-finance web dashboard. This project models its three
client-side state containers and proves properties of them:

- **the chat provider** (`context/ChatContext.tsx`): a transcript of messages, a
  chat-session handle, `isLoading` and `isInitializing`. A sign-in effect either
  signs out, keeps an existing session, or initialises a session from the user's
  expense and saving totals and installs a single welcome message.
  `sendMessage` appends the user's message and an empty streaming placeholder,
  rewrites the placeholder by id with the accumulated text after every streamed
  chunk, and then either clears its streaming flag or appends a fixed
  connection-error message;
- **the transaction tracker** (`components/ExpenseTracker.tsx`): expense and saving
  lists updated optimistically (prepend on add, replace the temporary id when the
  store confirms, filter on delete with a snapshot restored on failure), the add
  forms, and the totals, balance and per-category chart data derived from the lists;
- **the stock-analysis state** (`context/StockContext.tsx`): `symbol`,
  `analysisData` and `isLoading`, with `performAnalysis` and `clearAnalysis`.

Layout: `types.dfy` (records and messages), `wrappers.dfy` (`Option`), `ledger.dfy`
(the pure list computations: totals, balance, the delete filter, the confirm
replacement, the chart aggregation), `expense_tracker.dfy` (class `Tracker`),
`transcript.dfy` (the pure transcript operations of a send), `chat_context.dfy`
(class `ChatProvider`), `stock_context.dfy` (class `StockProvider`).

Every external call is a parameter giving that call's outcome:
- a record-store query is `Rows`, `NoData` (a null `data`) or `Threw`;
- an insert's outcome is the stored row;
- a delete's outcome is a success flag;
- session creation's outcome is a flag;
- the provider's stream is the chunks it delivered, ending in completion (`Completed`) or a failure (`Broken`);
- the stock analyser's outcome is `Some(result)` or `None` when it throws.

Ids are parameters too. Amounts are whole cents (`int`).

The model follows the code as written, including these behaviours:
- Initialisation does not clear the transcript first. A successful initialisation replaces it with the welcome message. A failed one leaves it as it was.
- A switch from one user straight to another keeps the existing session and transcript. The effect only skips when a session exists, so nothing is re-initialised and the first user's messages are not cleared.
- A failed send leaves the placeholder streaming. The next send's placeholder is then a second streaming message (`Transcript.StreamingAfterFailedSend`).
- Sends are not rejected while one is in flight. That guard exists only in the chat UI.
- `performAnalysis` never sets `symbol`.

## Model

| member | source | states |
|---|---|---|
| `Ledger.Total` | components/ExpenseTracker.tsx:148-149 | the `reduce` over amounts as a left fold starting at 0; the same fold is the chat seed's totals at context/ChatContext.tsx:49-50 |
| `Ledger.Balance` | components/ExpenseTracker.tsx:150 | the savings total minus the expenses total |
| `Ledger.TotalConcat` | components/ExpenseTracker.tsx:148-149 | the `reduce` total of a concatenation is the sum of the two totals |
| `Ledger.TotalPrepend` | components/ExpenseTracker.tsx:148 | prepending a record raises the total by exactly its amount |
| `Ledger.BalanceAfterAdd` | components/ExpenseTracker.tsx:150 | balance = savings total − expenses total; adding a saving raises it and adding an expense lowers it by the amount |
| `Ledger.Without` | components/ExpenseTracker.tsx:105 | `filter(e => e.id !== id)`: the entries whose id differs, in list order; also the saving delete at line 136 |
| `Ledger.WithoutMembers` | components/ExpenseTracker.tsx:105 | an entry survives the delete filter iff it was in the list and its id differs from the deleted id |
| `Ledger.WithoutConcat` | components/ExpenseTracker.tsx:105 | the filter distributes over concatenation, so the surviving entries keep their original order |
| `Ledger.WithoutAbsent` | components/ExpenseTracker.tsx:136 | deleting an id no entry carries leaves the list unchanged |
| `Ledger.Reconcile` | components/ExpenseTracker.tsx:91 | `map(ex => ex.id === tempId ? stored : ex)`: each entry with the temporary id becomes the stored row |
| `Ledger.ReconcileAt` | components/ExpenseTracker.tsx:89-92 | confirmation keeps the length; index i holds the stored row if entry i had the temporary id, else entry i unchanged |
| `Ledger.ReconcileAbsent` | components/ExpenseTracker.tsx:91 | confirming an id no entry carries changes nothing |
| `Ledger.AddThenConfirm` | components/ExpenseTracker.tsx:61-92 | an optimistic add under a fresh temporary id followed by confirmation yields the stored row followed by the previous list |
| `Ledger.Categories` | components/ExpenseTracker.tsx:152-163 | the dictionary's keys in insertion order: a category is appended when an entry first carries it |
| `Ledger.CategorySum` | components/ExpenseTracker.tsx:156 | the value the `forEach` accumulates under one key: the sum of that category's amounts |
| `Ledger.Aggregate` | components/ExpenseTracker.tsx:163 | `Object.keys(data).map(...)`: one `{name, value}` slice per key, in key order |
| `Ledger.CategoriesSnoc` | components/ExpenseTracker.tsx:156 | one more entry appends its category as the last key unless it is already a key |
| `Ledger.CategoriesSpec` | components/ExpenseTracker.tsx:152-163 | the chart's categories are pairwise distinct and are exactly the categories some entry carries |
| `Ledger.CategoriesExtend` | components/ExpenseTracker.tsx:155-157 | the keys of a list are the keys of any prefix followed by the categories the rest of the list adds, in the order they first appear |
| `Ledger.CategoriesInFirstAppearanceOrder` | components/ExpenseTracker.tsx:152-163 | the chart's categories equal the front-to-back first-appearance order |
| `Ledger.SlicesAt` | components/ExpenseTracker.tsx:163 | one slice per category, named by it and valued at that category's sum |
| `Ledger.CategorySumUnlisted` | components/ExpenseTracker.tsx:156 | a category the list does not carry accumulates zero |
| `Ledger.SlicesStep` | components/ExpenseTracker.tsx:155-157 | one more entry adds its amount to the slice total iff its category is already a key |
| `Ledger.SlicesAppend` | components/ExpenseTracker.tsx:163 | a new key adds its category's sum to the slice total |
| `Ledger.AggregateTotal` | components/ExpenseTracker.tsx:148-163 | the chart values add up to the list's total |
| `ExpenseTracker.Tracker.constructor` | components/ExpenseTracker.tsx:13-23 | starts on the expenses tab with empty lists and blank forms (category Food / Salary) |
| `ExpenseTracker.Tracker.ActiveList` | components/ExpenseTracker.tsx:154-161 | the expenses list on the expenses tab, the savings list otherwise |
| `ExpenseTracker.Tracker.TotalExpenses` | components/ExpenseTracker.tsx:148 | the `reduce` total of the expenses list |
| `ExpenseTracker.Tracker.TotalSavings` | components/ExpenseTracker.tsx:149 | the `reduce` total of the savings list |
| `ExpenseTracker.Tracker.CurrentBalance` | components/ExpenseTracker.tsx:150 | `balance`: the savings total minus the expenses total |
| `ExpenseTracker.Tracker.SelectTab` | components/ExpenseTracker.tsx:230-240 | the active tab becomes the chosen one |
| `ExpenseTracker.Tracker.EditExpenseForm` | components/ExpenseTracker.tsx:266-300 | the expense form holds what the user typed |
| `ExpenseTracker.Tracker.EditSavingForm` | components/ExpenseTracker.tsx:326-360 | the saving form holds what the user typed |
| `ExpenseTracker.Tracker.AddExpense` | components/ExpenseTracker.tsx:53-71 | added iff description, amount and date are non-empty and a user is signed in; then the new record is at index 0 followed by the old list, the form is reset, the total rises by the amount and the balance falls by it; otherwise nothing changes |
| `ExpenseTracker.Tracker.ConfirmExpense` | components/ExpenseTracker.tsx:89-92 | the list becomes the old list with temporary-id entries replaced by the stored row |
| `ExpenseTracker.Tracker.DeleteExpense` | components/ExpenseTracker.tsx:102-118 | on success the list is the old list without the id; on failure it is exactly the snapshot taken before |
| `ExpenseTracker.Tracker.AddSaving` | components/ExpenseTracker.tsx:121-133 | the same form guard without the user check; the saving is prepended, the form reset, and the total and the balance raised by the amount |
| `ExpenseTracker.Tracker.DeleteSaving` | components/ExpenseTracker.tsx:135-137 | the list becomes the old list without every entry with the id |
| `ExpenseTracker.Tracker.ChartData` | components/ExpenseTracker.tsx:152-164 | the dictionary-filling loop yields the slices of the active tab's list in first-appearance order, and their values sum to that list's total |
| `Transcript.Concat` | context/ChatContext.tsx:96-98 | `fullText += chunk.text()` from `''`: the chunks joined in arrival order |
| `Transcript.SetText` | context/ChatContext.tsx:99 | `prev.map(m => m.id === botMsgId ? {...m, text: fullText} : m)` |
| `Transcript.EndStream` | context/ChatContext.tsx:102 | `prev.map(m => m.id === botMsgId ? {...m, isStreaming: false} : m)` |
| `Transcript.Begin` | context/ChatContext.tsx:85-92 | the transcript followed by the user message and then the empty streaming model placeholder |
| `Transcript.Streamed` | context/ChatContext.tsx:94-100 | the opened send's transcript with the placeholder's text set to the chunks received so far |
| `Transcript.Sent` | context/ChatContext.tsx:85-105 | the transcript a send leaves: on completion the placeholder stops streaming; on failure the fixed error message is appended |
| `Transcript.SetTextAt` | context/ChatContext.tsx:99 | a chunk keeps the transcript length, gives the accumulated text to messages with the placeholder id and leaves every other message unchanged |
| `Transcript.EndStreamAt` | context/ChatContext.tsx:102 | completion keeps the length, clears the streaming flag on messages with the placeholder id and leaves every other message unchanged |
| `Transcript.SetTextTwice` | context/ChatContext.tsx:97-99 | a later chunk's text overwrites an earlier one |
| `Transcript.SetTextSame` | context/ChatContext.tsx:92 | rewriting the empty placeholder with the empty text changes nothing |
| `Transcript.SetTextConcat` | context/ChatContext.tsx:99 | the chunk rewrite works piecewise over a concatenation |
| `Transcript.EndStreamConcat` | context/ChatContext.tsx:102 | the completion rewrite works piecewise over a concatenation |
| `Transcript.EndStreamAbsent` | context/ChatContext.tsx:102 | completion leaves messages without the placeholder id unchanged |
| `Transcript.ConcatStep` | context/ChatContext.tsx:98 | after chunk k+1 the accumulated text is the text after chunk k followed by chunk k+1 |
| `Transcript.StreamedShape` | context/ChatContext.tsx:85-100 | during a send the transcript is the old one, the user message, and the still-streaming placeholder holding chunk1+…+chunkk |
| `Transcript.CompletedSend` | context/ChatContext.tsx:85-102 | a completed send appends exactly the user message and a model message with the full concatenation that no longer streams |
| `Transcript.BrokenSend` | context/ChatContext.tsx:85-105 | a failed send appends the user message, the placeholder still streaming with the partial text, and the fixed error message |
| `Transcript.CountStreamingConcat` | context/ChatContext.tsx:92 | the number of streaming messages of a concatenation is the sum of both parts' counts |
| `Transcript.StreamingDuringSend` | context/ChatContext.tsx:92-105 | from a transcript with nothing streaming, exactly one message streams after every chunk; none after completion; one stays streaming after a failure |
| `Transcript.StreamingAfterFailedSend` | context/ChatContext.tsx:92-105 | after a failed send from a transcript with nothing streaming, the next send's transcript has exactly two streaming messages at every chunk |
| `ChatContext.RowsOrEmpty` | context/ChatContext.tsx:46-47 | the rows of a query, or the empty list when its data is null |
| `ChatContext.Summarize` | context/ChatContext.tsx:49-51 | the seed's balance is its income minus its expenses |
| `ChatContext.SummaryExample` | context/ChatContext.tsx:46-51 | income [100, 50] and expenses [30] give income 150, expenses 30, balance 120 |
| `ChatContext.SummaryOfOneMoreExpense` | context/ChatContext.tsx:49-51 | one more expense row lowers the seed balance by its amount and leaves income alone |
| `ChatContext.FormatCents` | context/ChatContext.tsx:68 | `toFixed(2)` of an amount held in whole cents: a sign, the whole units, a point and two digits |
| `ChatContext.Welcome` | context/ChatContext.tsx:65-70 | the model message with id `welcome` whose text embeds the formatted balance |
| `ChatContext.ChatProvider.constructor` | context/ChatContext.tsx:23-26 | empty transcript, no session, not loading, initialising |
| `ChatContext.ChatProvider.SignOut` | context/ChatContext.tsx:30-33 | the transcript becomes empty and the session is dropped |
| `ChatContext.ChatProvider.Init` | context/ChatContext.tsx:39-76 | on success the session is seeded with the totals (null data counted as empty) and the transcript is exactly the one `welcome` model message; a thrown query or failed creation changes neither; `isInitializing` ends false |
| `ChatContext.ChatProvider.OnUserChange` | context/ChatContext.tsx:29-79 | user absent: sign out; session present: nothing changes, no second welcome; otherwise as `Init` |
| `ChatContext.ChatProvider.BeginSend` | context/ChatContext.tsx:83-92 | without a session the transcript and `isLoading` are unchanged; otherwise the user message and then the empty streaming placeholder are appended and loading starts |
| `ChatContext.ChatProvider.ApplyChunk` | context/ChatContext.tsx:99 | the transcript is rewritten with the accumulated text at the placeholder's id |
| `ChatContext.ChatProvider.Stream` | context/ChatContext.tsx:96-100 | after the loop the placeholder holds the concatenation of all chunks |
| `ChatContext.ChatProvider.Finish` | context/ChatContext.tsx:102 | the placeholder's streaming flag is cleared |
| `ChatContext.ChatProvider.Fail` | context/ChatContext.tsx:105 | exactly the fixed error message is appended |
| `ChatContext.ChatProvider.SendMessage` | context/ChatContext.tsx:82-109 | no session: no-op; otherwise the transcript becomes the completed or failed send's and `isLoading` ends false |
| `StockContext.Settled` | context/StockContext.tsx:37-44 | success gives exactly the analyser's result; failure gives the fixed "### Analysis Error" text with no urls |
| `StockContext.StockProvider.constructor` | context/StockContext.tsx:28-30 | empty symbol, no analysis, not loading |
| `StockContext.StockProvider.SetSymbol` | context/StockContext.tsx:28 | the symbol becomes the given one |
| `StockContext.StockProvider.BeginAnalysis` | context/StockContext.tsx:33-35 | an empty symbol changes nothing; otherwise loading starts and the previous analysis is kept |
| `StockContext.StockProvider.SettleAnalysis` | context/StockContext.tsx:37-47 | the outcome's analysis is stored and loading ends |
| `StockContext.StockProvider.PerformAnalysis` | context/StockContext.tsx:32-48 | empty symbol: nothing changes; otherwise `analysisData` is the settled outcome and `isLoading` is false |
| `StockContext.StockProvider.ClearAnalysis` | context/StockContext.tsx:50-53 | symbol becomes "" and the analysis null; `isLoading` is untouched |

## Left out

- Record store and text-generation calls. Their outcomes are parameters. The refetch after a failed expense insert (components/ExpenseTracker.tsx:97) and the initial `fetchExpenses` (components/ExpenseTracker.tsx:35-50) are external reloads and are not modelled.
- The insert's returned rows. `ConfirmExpense` takes the first returned row. An empty `data` array, which would put `undefined` in the list, is not modelled.
- The `user_id` column of an inserted expense. A signed-in user is modelled only as a flag.
- Number parsing and formatting:
  - `parseFloat` and `Number(...)` are not modelled; the parsed amount is a parameter, so NaN is never produced;
  - `toFixed(2)` is modelled only for whole cents (`FormatCents`);
  - the system-prompt text and floating-point rounding are not modelled.
- Ids and timestamps. Ids come from `Date.now()` and are parameters. `SendMessage` requires the placeholder id to be fresh and different from the user message's id. Timestamps are dropped.
- Concurrency:
  - overlapping sends and stale React closures (components/ExpenseTracker.tsx:70 and 105 read the captured list rather than the latest one);
  - a stream that outlives a sign-out;
  - the order in which React applies queued updates.

  Each operation runs to completion on the current state.
- The chat UI guard against empty input or a send while loading (components/ChatBot.tsx:20), which lives in rendering code.
- JavaScript object-key quirks in `chartData`: integer-like category names, which `Object.keys` lists first, and inherited keys such as `constructor`. The model keeps plain insertion order.
- `EditExpenseForm` and `EditSavingForm` replace the whole draft. The `onChange` handlers (components/ExpenseTracker.tsx:266-300 and 326-360) each copy the draft and change one field. Any run of such edits is one whole-draft replacement, so the model covers them.
- `handleAiAnalyze` and the rendering of every component.
- Logging and alerts: the `console.error` calls (context/ChatContext.tsx:72 and 104, context/StockContext.tsx:40, components/ExpenseTracker.tsx:95 and 115) and `alert('Failed to save expense')` (components/ExpenseTracker.tsx:96) are output only and change no state.
