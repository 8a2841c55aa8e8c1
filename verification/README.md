# Assistant chat engine — a verified Dafny model

This project models the client-side conversation engine of the budgeting
app's embedded assistant, together with the data hook that feeds it.

- **System prompt builder** (`createSystemPrompt`). If the user has not chosen
  to include personal data, the prompt is the fixed instruction. If they have,
  the instruction is followed by a summary: the number of accounts, the combined
  balance, the budget categories, and up to five recent transactions.
- **Send cycle** (`sendMessage` / `fetchAIResponse`). It works on an append-only
  message log, an `isLoading` guard and a conversation id that the server
  assigns once. Each send is two events. `Submit` checks the guard, appends the
  user turn and builds the request. `Complete` appends one assistant turn,
  may adopt the id, and clears the guard.
- **Persistence**. The log and the id are loaded from local storage at mount
  time. They are saved back whenever they change.
- **Transaction flattening** (`useUserData`). Each grouped split transaction is
  followed by its subtransactions, and each subtransaction is tagged with its
  parent's id, payee and date.

Modules, leaf first:

| file | module | contents |
|---|---|---|
| wrappers.dfy | `Wrappers` | `Option` |
| text.dfy | `Text` | ECMAScript `trim`, decimal numerals, `join` and split, prefix/suffix stripping |
| money.dfy | `Money` | `(n / 100).toFixed(2)` on integral minor units, and its reader |
| user_data.dfy | `UserData` | accounts, categories, transactions; flattening; fetch rule; hook result |
| wire.dfy | `Wire` | roles and `{role, content}` messages |
| prompt.dfy | `Prompt` | the system prompt, and `ReadPrompt`, which reads the summary back |
| chat.dfy | `Chat` | message log state, request assembly, `Submit`, `Complete`, runs of events |
| storage.dfy | `Storage` | stored-log codec, load, save, mount |
| session.dfy | `Session` | engine plus storage; a restart restores what the engine held |

Amounts and balances are integers in minor units (cents). A missing value is
an `Option` that is `None`. The source writes `x || 0` and `x || 'placeholder'`,
so a missing value and a zero or empty one behave the same. The model follows
this (`AmountOrZero`, `OrElse`). Message ids and timestamps come from the clock
in the source. Here they are parameters of the events.

On these points the model follows the code:

- The assistant's sender value is `ai`, not `assistant`. It is stored as `ai`.
- The id is saved on every change to a held id, not only when it is first
  obtained. At mount time the loaded id is written back unchanged.
- The first render saves the still-empty log. So a stored log that cannot be
  read is replaced by the empty log at mount time (`MountDiscardsUnreadable`).
- The request is built from the log as it stood before the new user turn, plus
  that turn. `SubmitRequestMatchesLog` shows that this is the system message
  followed by the history of the log after the append.

## Model

| member | source | states |
|---|---|---|
| Text.Trim | packages/desktop-client/src/components/ai/AIChatButton.tsx:146-150 | The trimmed input is the slice of the input left once all leading and trailing whitespace is removed: only whitespace around it, none at either of its ends |
| Text.TrimEmptyIff | packages/desktop-client/src/components/ai/AIChatButton.tsx:146 | An input trims to the empty string exactly when every character of it is whitespace, so the guard rejects exactly those inputs |
| Text.NatToString | packages/desktop-client/src/components/ai/AIChatButton.tsx:112 | The account count is written as its canonical decimal numeral: digits only, no leading zero, denoting the count |
| Text.ParseNatToString | packages/desktop-client/src/components/ai/AIChatButton.tsx:112 | Reading the account-count numeral back gives the count |
| Text.JoinEnds | packages/desktop-client/src/components/ai/AIChatButton.tsx:116-118 | A joined list opens with its first item and closes with its last one |
| Text.SplitJoin | packages/desktop-client/src/components/ai/AIChatButton.tsx:116-118 | Splitting a non-empty joined list on its separator gives back the items, when no item holds the separator's first character |
| Money.FormatMinor | packages/desktop-client/src/components/ai/AIChatButton.tsx:113 | A rendered amount starts with a minus sign exactly when the amount is negative. Then comes the whole part: a canonical numeral (no leading zero unless it is "0") whose value is the absolute amount divided by 100. Then a point and exactly two digits whose value is the absolute amount modulo 100. Only digits, '-' and '.' occur |
| Money.ParseFormatMinor | packages/desktop-client/src/components/ai/AIChatButton.tsx:113 | Every integral amount of minor units is recovered exactly from its rendering, so the text is the amount divided by 100 with two fractional digits |
| Money.FormatMinorExample12345 | packages/desktop-client/src/components/ai/AIChatButton.tsx:113 | 12345 minor units render as "123.45" |
| Money.FormatMinorExampleZero | packages/desktop-client/src/components/ai/AIChatButton.tsx:113 | 0 renders as "0.00" |
| Money.FormatMinorExampleNegative | packages/desktop-client/src/components/ai/AIChatButton.tsx:126-127 | -5 renders as "-0.05" |
| Prompt.OrElse | packages/desktop-client/src/components/ai/AIChatButton.tsx:128-129 | A missing or empty date, payee or name is replaced by its placeholder; a non-empty one is used as it is |
| Prompt.SumBalances | packages/desktop-client/src/components/ai/AIChatButton.tsx:103-109 | The left-to-right reduce from 0 over the accounts, counting a missing balance as 0, computes the combined balance |
| Prompt.TotalBalanceAppend | packages/desktop-client/src/components/ai/AIChatButton.tsx:105-108 | The combined balance of two account lists put together is the sum of their combined balances |
| Prompt.TotalBalanceFirst | packages/desktop-client/src/components/ai/AIChatButton.tsx:105-108 | The combined balance is the first account's balance (0 when missing) plus the combined balance of the rest |
| Prompt.TotalBalanceIgnoresEmpty | packages/desktop-client/src/components/ai/AIChatButton.tsx:106 | Accounts whose balance is missing or zero add nothing to the total; with no accounts the total is 0 |
| Prompt.BudgetLabels | packages/desktop-client/src/components/ai/AIChatButton.tsx:116-118 | One label per category, in input order: its name, or "Unnamed" when the name is missing or empty; no label is empty |
| Prompt.BudgetSection | packages/desktop-client/src/components/ai/AIChatButton.tsx:114-120 | The budget sentence is "No budget data available." exactly when there are no categories; otherwise it opens with "They have the following budget categories: " |
| Prompt.RecentSection | packages/desktop-client/src/components/ai/AIChatButton.tsx:121-134 | The transaction sentence is "No recent transactions." exactly when there are no transactions; otherwise it opens with "Recent transactions (up to 5): " |
| Prompt.TxLines | packages/desktop-client/src/components/ai/AIChatButton.tsx:125-131 | One line per transaction, in input order, each the date-payee-amount line of that transaction |
| Prompt.RecentLines | packages/desktop-client/src/components/ai/AIChatButton.tsx:123-131 | The listed transactions are exactly the first min(5, n) of the input, in input order and not re-sorted; all of them when n is at most 5 |
| Prompt.LineAmountOfTxLine | packages/desktop-client/src/components/ai/AIChatButton.tsx:126-130 | The text after the last "$" of a listed line reads back as the transaction's amount, a missing amount as 0 |
| Prompt.LineDateOfTxLine | packages/desktop-client/src/components/ai/AIChatButton.tsx:128 | A listed line starts with the transaction's date, or "Unknown date", followed by ": " (when that label holds no colon) |
| Prompt.LinePayeeOfTxLine | packages/desktop-client/src/components/ai/AIChatButton.tsx:128-130 | The text between the date label's ": " and the " - $" before the amount reads back as the transaction's imported payee, or "Unknown payee" (when the date label holds no colon) |
| Prompt.SystemContent | packages/desktop-client/src/components/ai/AIChatButton.tsx:99-137 | With the flag off the content is exactly "You are a helpful financial assistant."; with it on that sentence is a proper prefix of the content |
| Prompt.SystemMessage | packages/desktop-client/src/components/ai/AIChatButton.tsx:139-142 | The prompt travels under the system role; with the flag off its content is the fixed instruction |
| Prompt.PrivatePromptIndependent | packages/desktop-client/src/components/ai/AIChatButton.tsx:99-102 | With the flag off, any two snapshots give the same system message, so no snapshot data reaches it |
| Prompt.DetailsLayout | packages/desktop-client/src/components/ai/AIChatButton.tsx:111-136 | The personal-data part follows the template. A space comes first. Then come the account sentence, the balance sentence, the budget section, the transaction section and the closing sentence, each after a line break and eight spaces. A line break and six spaces close it |
| Prompt.EmptySnapshotPrompt | packages/desktop-client/src/components/ai/AIChatButton.tsx:111-136 | With no accounts, budgets or transactions, the flag-on prompt says 0 accounts, "0.00", "No budget data available." and "No recent transactions." |
| Prompt.ReadPromptRoundTrip | packages/desktop-client/src/components/ai/AIChatButton.tsx:103-136 | The flag-on prompt gives back the account count, the combined balance, every budget label in order and every listed transaction line in order. Each section can be read back from the prompt text |
| Prompt.ReadPrivatePrompt | packages/desktop-client/src/components/ai/AIChatButton.tsx:99-102 | No account, budget or transaction summary can be read back from the flag-off prompt |
| UserData.Flatten | packages/desktop-client/src/hooks/useUserData.ts:43-57 | The flattened list has one element per input row plus one per subtransaction, summed over all rows |
| UserData.FlattenAppend | packages/desktop-client/src/hooks/useUserData.ts:43-57 | Flattening distributes over concatenation, so the rows keep their relative order |
| UserData.FlattenAround | packages/desktop-client/src/hooks/useUserData.ts:43-57 | The flattened list is the flattening of the rows before row i, then row i's own contribution, then the flattening of the rows after it; the first part is as long as the i earlier rows and all their subtransactions |
| UserData.ExpandAt | packages/desktop-client/src/hooks/useUserData.ts:44-55 | Wherever a row's contribution is placed, the row comes first and its subtransactions follow it immediately, in their original order, each tagged with that row |
| UserData.FlattenLayout | packages/desktop-client/src/hooks/useUserData.ts:44-55 | Row i sits after the i earlier rows and all their subtransactions, and its subtransactions fit after it within the list |
| UserData.NextOffset | packages/desktop-client/src/hooks/useUserData.ts:44-55 | Row i + 1 starts right after row i and its subtransactions |
| UserData.FlattenEnd | packages/desktop-client/src/hooks/useUserData.ts:43-57 | The flattened list ends right after the last row's subtransactions |
| UserData.Tag | packages/desktop-client/src/hooks/useUserData.ts:48-53 | An emitted subtransaction keeps every field of its own. Its parent reference carries the parent's id, payee and date |
| UserData.FlattenProvenance | packages/desktop-client/src/hooks/useUserData.ts:43-57 | Every emitted element is an input row, or a subtransaction of an input row tagged with that row |
| UserData.FlattenWithoutSplits | packages/desktop-client/src/hooks/useUserData.ts:44-45 | Rows without subtransactions contribute exactly themselves, unchanged |
| UserData.FlattenByPush | packages/desktop-client/src/hooks/useUserData.ts:43-57 | The push-based reduce loop computes exactly the flattening |
| UserData.RefreshTransactions | packages/desktop-client/src/hooks/useUserData.ts:59-68 | With no accounts the transactions stay as they were (initially empty). A failed query sets the list to empty. Returned rows give exactly their flattening |
| UserData.UseUserData | packages/desktop-client/src/hooks/useUserData.ts:72-85 | The hook's budgets are the category list, unchanged, next to the accounts, transactions and payees |
| Chat.History | packages/desktop-client/src/components/ai/AIChatButton.tsx:198-201 | One wire message per log entry, in order, with the content unchanged. The role is user exactly for user turns and assistant for every other turn |
| Chat.BuildRequest | packages/desktop-client/src/components/ai/AIChatButton.tsx:209-217 | The messages are the system message, then the prior log's history, then the new user turn. conversation_id is present exactly when an id is held. The model, temperature and token cap are fixed |
| Chat.Submit | packages/desktop-client/src/components/ai/AIChatButton.tsx:145-158 | If the input trims to empty or a request is in flight, the state is unchanged and nothing is sent. Otherwise one user turn with the trimmed text is appended and the guard is set. The id is unchanged, and the request is built from the log as it was before the append |
| Chat.SubmitRequestMatchesLog | packages/desktop-client/src/components/ai/AIChatButton.tsx:198-216 | The request sent is the system message followed by the history of the log after the user turn was appended |
| Chat.ReplyText | packages/desktop-client/src/components/ai/AIChatButton.tsx:175-242 | The assistant's turn is the reply, or the fixed unexpected-format text when the shape is wrong, or the fixed apology on a non-ok status or a thrown error |
| Chat.Adopt | packages/desktop-client/src/components/ai/AIChatButton.tsx:231-234 | A held id is kept whatever the response carries. A non-empty id in a response is adopted only when none is held, also when the response was read and the call threw afterwards. Any change of id is such an adoption |
| Chat.Complete | packages/desktop-client/src/components/ai/AIChatButton.tsx:160-185 | Exactly one assistant turn is appended and every earlier turn stays unchanged. The guard is cleared on every path, and the id changes only by adoption |
| Chat.Step | packages/desktop-client/src/components/ai/AIChatButton.tsx:145-186 | One event extends the log by at most one turn and changes no earlier turn. A reply event while nothing is in flight changes nothing |
| Chat.RunAppendOnly | packages/desktop-client/src/components/ai/AIChatButton.tsx:145-186 | After any sequence of events the earlier log is a prefix of the later one: nothing is changed or reordered |
| Chat.RunKeepsHeldId | packages/desktop-client/src/components/ai/AIChatButton.tsx:232-234 | Once an id is held, no later submission, reply or failure changes it, even a reply carrying a different id |
| Chat.RunIdSetOnce | packages/desktop-client/src/components/ai/AIChatButton.tsx:232-234 | Over any run the id either stays as it was or goes from not held to held, once |
| Chat.RunFromIdleAlternates | packages/desktop-client/src/components/ai/AIChatButton.tsx:145-186 | From an idle state the appended turns alternate user, assistant, user, and so on. A request is in flight exactly when their number is odd, so there is never more than one |
| Chat.ScenarioHelloRequest | packages/desktop-client/src/components/ai/AIChatButton.tsx:145-158 | Sending "Hi" from an empty chat with personal data off appends one user turn, sets the guard, and sends exactly two messages, the fixed instruction and "Hi", with no conversation id |
| Chat.ScenarioHelloReply | packages/desktop-client/src/components/ai/AIChatButton.tsx:160-171 | The reply "Hello!" carrying id "c-1" leaves exactly the two turns, clears the guard and adopts "c-1" |
| Chat.ScenarioThrownAfterId | packages/desktop-client/src/components/ai/AIChatButton.tsx:172-185 | A call that read the id "c" and then threw appends the apology, clears the guard and still adopts "c" |
| Chat.ScenarioFailure | packages/desktop-client/src/components/ai/AIChatButton.tsx:172-185 | A call that throws before any id is read leaves the user's turn followed by the fixed apology, clears the guard and keeps the id |
| Chat.ScenarioDoubleSend | packages/desktop-client/src/components/ai/AIChatButton.tsx:146 | A second submission while the first is in flight is dropped: no state change and no request |
| Storage.DecodeEncodeLog | packages/desktop-client/src/components/ai/AIChatButton.tsx:32-51 | Decoding the stored text of a log gives back exactly that log |
| Storage.LoadLog | packages/desktop-client/src/components/ai/AIChatButton.tsx:29-39 | A stored log is adopted only if it is present, non-empty and readable. If it is absent or unreadable, the log stays empty |
| Storage.LoadId | packages/desktop-client/src/components/ai/AIChatButton.tsx:41-43 | A stored id is adopted exactly when it is present and non-empty |
| Storage.SaveLog | packages/desktop-client/src/components/ai/AIChatButton.tsx:49-51 | Saving overwrites the log key with the encoded log and leaves every other key as it was |
| Storage.SaveId | packages/desktop-client/src/components/ai/AIChatButton.tsx:53-57 | The id is written only when one is held. Otherwise storage is untouched. No key is ever removed |
| Storage.LoadSaveLog | packages/desktop-client/src/components/ai/AIChatButton.tsx:29-51 | Whatever the store held before, saving a log and loading it again gives back that log |
| Storage.LoadSaveId | packages/desktop-client/src/components/ai/AIChatButton.tsx:41-57 | A held id that was saved is what the next load adopts; saving no id leaves what a load adopts as it was |
| Storage.LoadSaveRoundTrip | packages/desktop-client/src/components/ai/AIChatButton.tsx:28-57 | Saving a conversation and loading it again gives back the same log and, when one is held, the same id |
| Storage.Load | packages/desktop-client/src/components/ai/AIChatButton.tsx:28-44 | After loading nothing is in flight, the log is empty when no log is stored, and any id held is non-empty |
| Storage.Mount | packages/desktop-client/src/components/ai/AIChatButton.tsx:28-57 | After mounting, the state is what was loaded and storage holds the encoded loaded log. Loading again gives the same state |
| Storage.MountDiscardsUnreadable | packages/desktop-client/src/components/ai/AIChatButton.tsx:32-51 | An unreadable stored log gives an empty log and is overwritten by the empty log's text at mount time |
| Storage.MountKeepsId | packages/desktop-client/src/components/ai/AIChatButton.tsx:41-43 | A stored id is still stored after mounting, with the same value: mounting writes it back unchanged |
| Session.Persist | packages/desktop-client/src/components/ai/AIChatButton.tsx:46-57 | A changed log is written. An unchanged one leaves its key as it was. A newly held id becomes what a load adopts, and an unchanged id leaves what a load adopts as it was |
| Session.ReplayConsistent | packages/desktop-client/src/components/ai/AIChatButton.tsx:49-57 | Storage agreeing with the engine stays in agreement after any sequence of events |
| Session.RestartRestores | packages/desktop-client/src/components/ai/AIChatButton.tsx:28-57 | After start-up and any sequence of events, loading storage again restores exactly the log and the id the engine holds |

## Left out

- Storage.DecodeEncodeLog: the stored text is a length-prefixed encoding, not JSON. The engine relies only on the round trip, and that is proved for this encoding. JSON escaping is not modelled.
- Storage.LoadLog: stricter than the source. The source adopts any text that `JSON.parse` accepts, even when it is not an array of messages. The model adopts only text in the shape of a message log.
- Money.FormatMinor: uses exact integer arithmetic instead of a floating-point division and `toFixed`. The two agree while `n / 100` is held in a double with an error below half a cent, which covers amounts below 10^15 minor units. Exponent notation at 10^21 and above is not modelled.
- Prompt.ReadPromptRoundTrip: assumes budget names hold no comma or line break, and the listed dates and payees hold no semicolon or line break. Without that the prompt text is ambiguous and cannot be read back.
- Chat.Complete: the reply content is taken to be a string. A response whose `message` has no `content` is not modelled.
- Chat.Step: a reply event while no request is in flight leaves the state alone. The engine cannot produce one.
- The `isLoading` and `conversationId` values read by `sendMessage` and `fetchAIResponse` are the state at the time of the event. With at most one request in flight, only the completion changes the id. React's batching of two key presses within one render is not modelled.
- Absent collections (`accounts?.length` on `undefined`) are modelled as empty lists. The source produces the same text for both. Non-numeric balances or amounts are modelled as missing.
- `Date.now()` ids and `toISOString()` timestamps are event parameters. Their uniqueness is not claimed, because the source does not ensure it.
- The HTTP call, status codes beyond ok / not ok, and `response.json()` are replaced by the `Outcome` datatype.
- Logging (`console.error` when a stored log cannot be parsed, when a send fails and when the AI service call fails or returns an unexpected shape) has no effect on state and is not modelled.
- Clearing the input field after a send, opening and closing the panel, focus and scroll timers, the JSX markup and `formatTime` are presentation only.
- The Flask backend and its smoke-test script are out of scope. They are a thin wrapper over a remote completion service, with no engine logic.
- In the data hook: the query builder (30-day filter, ordering, limit of 50), `runQuery`, the Redux selector, the payees hook and `console.log` are not modelled. The query result is an input.
- UserData.RefreshTransactions: two overlapping fetches that resolve out of order are not modelled.
