# AIPanel chat turn: a Dafny model

AIPanel is a browser side panel for chatting with an AI. The user types a
message and the panel appends it to the conversation. It then obtains a
reply, appends that too, and keeps the 50 most recent messages in the
extension's storage under the key `aiPanelMessages`. This project models
the one part of the panel with rules of its own: the chat turn. The
repository implements it twice, and each implementation is modelled as
written:

- `AIPanel` (`ai_panel.dfy`), the class-based panel. Its methods push onto
  the `messages` array, toggle `isProcessing` and copy the log into storage.
  Its replies are always simulated: one of five canned texts, or a fixed
  apology when obtaining the reply throws. Two behaviours of the code are
  kept as they are:
  - `addMessage` drops a message silently when the message container is
    missing.
  - After a load, `renderMessages` pushes every loaded message a second
    time, so the in-memory log is doubled.
- `SidePanel` (`side_panel.dfy`), the React panel. Its state hooks
  `messages`, `inputValue` and `isProcessing` and the storage are the fields
  of one object. It asks the background script for a reply first. A
  `null` or empty answer falls back to a canned reply. The grown list is
  saved truncated to 50, while the in-memory list keeps everything.
- `LogDrawer` (`log_drawer.dfy`), the log viewer. It covers the level
  filter, the per-level tab counts, the rules that disable Copy and Clear,
  the empty-state text and the level-to-style switches.

Shared pieces:
- `chat.dfy`: the message record, the storage key, the canned replies, the
  apology text and the `slice(-50)` retention window.
- `text.dfy`: JavaScript's `trim`, which both panels use to decide whether
  a submission is accepted.

Inputs the panels take from the outside world are parameters:
- the random reply index is a `CannedIndex` in [0, 5);
- each `Date.now()` reading is a `nat`;
- whether the DOM elements and `chrome.storage` exist is a boolean field;
- how `chrome.runtime.sendMessage` behaves is a `Channel` value;
- whether the simulated reply throws is a `SimulatedOutcome`.

## Model

| member | source | states |
|---|---|---|
| `Text.TrimShape` | src/sidepanel/sidepanel.ts:59 | `trim` returns a contiguous slice of its input; everything it drops is whitespace |
| `Text.TrimEnds` | src/sidepanel/SidePanel.tsx:93 | a non-empty trimmed string begins and ends with a non-whitespace character |
| `Text.TrimEmptyIffBlank` | src/sidepanel/sidepanel.ts:59-60 | the trimmed input is empty exactly when the input is all whitespace, which is when the guard refuses it |
| `Text.TrimIdempotent` | src/sidepanel/SidePanel.tsx:93 | trimming the trimmed text again changes nothing |
| `Chat.CannedReplyIsCanned` | src/sidepanel/sidepanel.ts:88-102 | the random index always picks one of the five fixed replies, and none of them equals the apology text |
| `Chat.Last` | src/sidepanel/SidePanel.tsx:42 | `slice(-n)` has min(length, n) entries, which are the last entries of the input in order |
| `Chat.Retained` | src/sidepanel/sidepanel.ts:167 | what is saved never has more than 50 entries |
| `Chat.LastAfterAppend` | src/sidepanel/SidePanel.tsx:117-119 | truncating to 50 before appending later messages stores the same window as truncating the whole history once, so saving after every turn keeps the 50 most recent |
| `Chat.RetainedIdempotent` | src/sidepanel/SidePanel.tsx:42 | retention is idempotent: keeping the last 50 of a list that already holds at most 50 changes nothing |
| `AIPanelModel.Restamped` | src/sidepanel/sidepanel.ts:199-201 | the entries re-pushed by `renderMessages` carry the same text and sender as the loaded ones, one each, in order, stamped with the render time |
| `AIPanelModel.ReplyText` | src/sidepanel/sidepanel.ts:70-103 | the `ai` text of a turn is one of the five canned replies exactly when the simulated reply arrived, and the apology exactly when it threw |
| `AIPanelModel.Accepts` | src/sidepanel/sidepanel.ts:57-60 | a submission is accepted exactly when the input element exists, the input is not all whitespace and no turn is in flight |
| `AIPanelModel.Reloaded` | src/sidepanel/sidepanel.ts:176-178 | with a container, a loaded log becomes the stored list followed by a copy of each stored message, so it has twice the stored length; without one, it is the stored list |
| `AIPanelModel.ReloadDoublesStored` | src/sidepanel/sidepanel.ts:172-201 | with a container, retaining a reloaded non-empty log of at most 24 messages with two new entries keeps all of it: the stored log, a copy of it and the two entries, twice the stored length plus two, never the stored log plus the two entries |
| `AIPanelModel.LoadThenTurn` | src/sidepanel/sidepanel.ts:56-82 | after `loadMessages` finds a non-empty stored log of at most 24 messages, the next accepted `sendMessage` stores that log, a restamped copy of it, the trimmed user entry and the `ai` entry: twice the stored length plus two |
| `AIPanelModel.AIPanel.constructor` | src/sidepanel/sidepanel.ts:15-17 | a fresh panel has an empty log and is not processing |
| `AIPanelModel.AIPanel.SetInput` | src/sidepanel/sidepanel.ts:59 | the text typed into the input element is what `sendMessage` reads |
| `AIPanelModel.AIPanel.AddMessage` | src/sidepanel/sidepanel.ts:106-124 | with a container, exactly one entry is appended at the end and the earlier entries stay; without one, the log is unchanged |
| `AIPanelModel.AIPanel.SetProcessing` | src/sidepanel/sidepanel.ts:140-141 | the flag takes the given value |
| `AIPanelModel.AIPanel.SimulateAIResponse` | src/sidepanel/sidepanel.ts:86-104 | on success it appends the canned reply at the index; when it throws, nothing is appended |
| `AIPanelModel.AIPanel.SaveMessages` | src/sidepanel/sidepanel.ts:163-170 | when storage exists, the key holds the last min(length, 50) entries in order; the in-memory log is not truncated |
| `AIPanelModel.AIPanel.RenderMessages` | src/sidepanel/sidepanel.ts:184-203 | with a container, the `forEach` appends a copy of each entry present when it started; without one, the log is unchanged |
| `AIPanelModel.AIPanel.LoadMessages` | src/sidepanel/sidepanel.ts:172-182 | a non-empty stored list replaces the log with no cap and is then rendered, which doubles it; an absent or empty one changes nothing |
| `AIPanelModel.AIPanel.ReplyOrApologise` | src/sidepanel/sidepanel.ts:70-78 | the `try`/`catch` appends exactly one `ai` entry: the reply, or else the apology |
| `AIPanelModel.AIPanel.Exchange` | src/sidepanel/sidepanel.ts:62-83 | an accepted turn does the following: it appends the user text and then one `ai` entry, clears the input, ends with the flag false, and stores the last 50 entries of the resulting log |
| `AIPanelModel.AIPanel.SendMessage` | src/sidepanel/sidepanel.ts:56-84 | a refused submission changes neither the log, the flag, the input nor the store; an accepted one grows the log by the trimmed text and one `ai` entry (by nothing without a container), and ends idle and saved on both paths |
| `AIPanelModel.TurnAppendsUserThenAi` | src/sidepanel/sidepanel.ts:56-103 | one accepted `sendMessage` on a panel with a container grows the log by exactly 2 and keeps its old entries; the trimmed user entry comes before the single `ai` entry, which is canned exactly when the reply arrived and the apology exactly when it threw |
| `SidePanelModel.SendToDeepSeek` | src/sidepanel/SidePanel.tsx:47-75 | intended: the delegated result is a value exactly when the runtime answered with a non-empty string; a missing runtime, a runtime error and a throw all yield null |
| `SidePanelModel.SendToDeepSeekAsWritten` | src/sidepanel/SidePanel.tsx:47-75 | as written: a throwing send gives a rejection and nothing else does; otherwise the result is null, or the response when it is a non-empty string |
| `SidePanelModel.SendToDeepSeekFinding` | src/sidepanel/SidePanel.tsx:48-74 | the code as written agrees with the intended contract except for a throwing send, which it turns into a rejection instead of null |
| `SidePanelModel.AiText` | src/sidepanel/SidePanel.tsx:109 | the chosen text is never empty: it is the delegated reply when that is truthy, and otherwise one of the canned replies |
| `SidePanelModel.AiTextChoice` | src/sidepanel/SidePanel.tsx:108-109 | the delegated reply is used exactly when it is neither null nor empty; otherwise the text is one of the five canned replies |
| `SidePanelModel.TurnReply` | src/sidepanel/SidePanel.tsx:107-129 | the `ai` text of a turn is never empty; it is the apology when awaiting the delegation rejected, the delegated reply when that is truthy, and otherwise a canned reply that is not the apology |
| `SidePanelModel.DelegationNeverFailsTurn` | src/sidepanel/SidePanel.tsx:107-129 | with the intended delegation, the turn's reply is the non-empty answer or a canned reply, never the apology branch; as written, a throwing send yields the apology |
| `SidePanelModel.Accepts` | src/sidepanel/SidePanel.tsx:93-94 | `handleSendMessage` proceeds exactly when the input is not all whitespace and no turn is in flight |
| `SidePanelModel.SendButtonDisabled` | src/sidepanel/SidePanel.tsx:203 | the send button is disabled exactly when a turn is in flight or the input is all whitespace |
| `SidePanelModel.SendButtonMatchesGuard` | src/sidepanel/SidePanel.tsx:203 | the send button is enabled exactly when a click would pass the guard of `handleSendMessage` |
| `SidePanelModel.SidePanel.constructor` | src/sidepanel/SidePanel.tsx:10-12 | the hooks start with no messages, an empty input and the flag false |
| `SidePanelModel.SidePanel.SetInputValue` | src/sidepanel/SidePanel.tsx:186 | typing sets the input |
| `SidePanelModel.SidePanel.LoadMessages` | src/sidepanel/SidePanel.tsx:29-37 | a non-empty stored list replaces the messages verbatim; an absent or empty one changes nothing |
| `SidePanelModel.SidePanel.SaveMessages` | src/sidepanel/SidePanel.tsx:39-45 | when storage exists, the key holds `newMessages.slice(-50)`; the messages are not touched |
| `SidePanelModel.SidePanel.Exchange` | src/sidepanel/SidePanel.tsx:96-133 | the messages become the old ones followed by the user message and one `ai` message (the apology on the `catch` path); the input is cleared, the flag ends false, and the last 50 are saved on both paths |
| `SidePanelModel.SidePanel.HandleSendMessage` | src/sidepanel/SidePanel.tsx:92-134 | a refused submission changes nothing; an accepted one appends the trimmed text and then one `ai` message, clears the input, ends idle and stores the last 50 while keeping every message in memory |
| `SidePanelModel.SaveThenLoad` | src/sidepanel/SidePanel.tsx:29-45 | saving a non-empty list and reloading it gives the list back verbatim when it has at most 50 messages, and otherwise exactly its 50 most recent, oldest first |
| `SidePanelModel.ReloadAfterTurn` | src/sidepanel/SidePanel.tsx:29-45 | after an accepted turn with storage present, reloading the stored list gives back the messages after the turn (old ones, user entry, one `ai` entry) when they number at most 50, and otherwise their 50 most recent, oldest first |
| `LogDrawerModel.FilteredLogs` | src/presentation/components/common/LogDrawer.tsx:48-50 | the filter never shows more entries than there are |
| `LogDrawerModel.FilterAllKeepsEverything` | src/presentation/components/common/LogDrawer.tsx:48-50 | with the "all" filter, `filteredLogs` equals `logs` |
| `LogDrawerModel.FilteredLogsAppend` | src/presentation/components/common/LogDrawer.tsx:48-50 | filtering preserves order: filtering a concatenation gives the two filtered parts, concatenated |
| `LogDrawerModel.FilteredLogsMembers` | src/presentation/components/common/LogDrawer.tsx:48-50 | an entry is shown exactly when it is in the log and its level matches the filter (or the filter is "all") |
| `LogDrawerModel.CountLevel` | src/presentation/components/common/LogDrawer.tsx:153 | a level tab never counts more entries than there are |
| `LogDrawerModel.TabCount` | src/presentation/components/common/LogDrawer.tsx:151-153 | a tab never counts more entries than there are, and the "all" tab counts all of them |
| `LogDrawerModel.LevelFilterCount` | src/presentation/components/common/LogDrawer.tsx:151-153 | on a level tab, the number of entries shown equals the number of entries with that level |
| `LogDrawerModel.SubtitleMatchesTab` | src/presentation/components/common/LogDrawer.tsx:108 | the subtitle count equals the count on the selected tab; the "all" tab shows the number of logs |
| `LogDrawerModel.LevelTabsAddUp` | src/presentation/components/common/LogDrawer.tsx:138-157 | the four level tabs add up to at most the "all" tab, and to exactly it when every entry has one of the four levels |
| `LogDrawerModel.CopyDisabled` | src/presentation/components/common/LogDrawer.tsx:118 | Copy is disabled whenever there are no logs, and on the "all" tab exactly then |
| `LogDrawerModel.ClearDisabled` | src/presentation/components/common/LogDrawer.tsx:127 | Clear is disabled exactly when the "all" filter shows nothing |
| `LogDrawerModel.CopyDisabledRule` | src/presentation/components/common/LogDrawer.tsx:118-127 | Copy is disabled exactly when no entry passes the filter, hence whenever Clear is disabled; on the "all" tab the two rules coincide |
| `LogDrawerModel.EmptyStateText` | src/presentation/components/common/LogDrawer.tsx:170-174 | the text starts with "No "; its fourth character is the "l" of "logs" on the "all" tab and the initial of the level on the others |
| `LogDrawerModel.EmptyStateTextIdentifiesTab` | src/presentation/components/common/LogDrawer.tsx:170-174 | two tabs show the same empty-state text exactly when they are the same tab |
| `LogDrawerModel.LogIcon` | src/presentation/components/common/LogDrawer.tsx:77-88 | the alert glyph is drawn exactly for "error" and "warn", the bug exactly for "debug", and the blue Info icon exactly for every other level |
| `LogDrawerModel.LogColor` | src/presentation/components/common/LogDrawer.tsx:90-101 | the card is red exactly for "error", yellow exactly for "warn" and purple exactly for "debug" |
| `LogDrawerModel.LogStyleAgrees` | src/presentation/components/common/LogDrawer.tsx:77-101 | the card colour and the icon colour agree for every level |
| `LogDrawerModel.LogIconVariants` | src/presentation/components/common/LogDrawer.tsx:77-88 | "error", "warn" and "debug" get three different icons; every other level gets the blue Info icon |
| `LogDrawerModel.LogColorVariants` | src/presentation/components/common/LogDrawer.tsx:90-101 | "error", "warn" and "debug" get three different colours; every other level gets the colour of "info" |
| `LogDrawerModel.LogDrawer.constructor` | src/presentation/components/common/LogDrawer.tsx:20-23 | the drawer starts with no logs on the "all" tab |
| `LogDrawerModel.LogDrawer.ReceiveLogs` | src/presentation/components/common/LogDrawer.tsx:29-36 | the logs become the list the logger delivers |
| `LogDrawerModel.LogDrawer.SelectFilter` | src/presentation/components/common/LogDrawer.tsx:141 | clicking a tab selects its filter and keeps the logs |
| `LogDrawerModel.LogDrawer.HandleClearLogs` | src/presentation/components/common/LogDrawer.tsx:72-75 | afterwards the logs are empty and both Copy and Clear are disabled |

## Findings

| source | as written | input that shows it | evidently intended | confidence | as-written member | corrected member |
|---|---|---|---|---|---|---|
| src/sidepanel/SidePanel.tsx:48-74 | `sendToDeepSeek` returns `new Promise(...)` from inside its `try` without `await`. The promise constructor turns a throw from `chrome.runtime.sendMessage` into a rejection, which the local `catch` never sees. | `chrome.runtime.sendMessage` throws when called, e.g. after the extension context was invalidated | `sendToDeepSeek` yields `null` (its `catch` logs and returns `null`), so the turn falls back to a canned reply | medium; not executed | `SidePanelModel.SendToDeepSeekFinding` | `SidePanelModel.DelegationNeverFailsTurn` |

For that throwing send, the code as written sends `handleSendMessage` into
its `catch` branch, which appends the apology. `SendToDeepSeek` is the
corrected definition. `HandleSendMessage` takes whatever awaiting the
delegation gives, so both versions can be fed to it.

## Left out

- Rendering is left out:
  - DOM elements, `innerHTML`, the welcome message, scrolling, focus;
  - the textarea auto-resize, the typing indicator, button captions;
  - the `disabled` state of the input element.
  None of it changes the log or the flag.
- The 500–1500 ms `setTimeout` delay is left out. It is timing only.
- `Math.random` is left out; the reply index is a parameter.
- `Date.now()` is a parameter of each operation that stamps a message.
- `chrome.storage.local` is a map field that is updated synchronously.
  The callbacks, the asynchrony and storage failures are not modelled.
- Each turn is one atomic step. Overlapping asynchronous turns and React's
  stale closures are not modelled. In `SidePanel` the flag is therefore
  only true inside a turn. In `AIPanel` it can be raised through
  `SetProcessing`, and the guard then refuses.
- `SidePanel.tsx` sends the action `"sendToDeepSeek"`. `service-worker.js`
  answers `"sendAIMessage"`, `"saveChatMessages"` and `"loadChatMessages"`.
  Every other action, `"sendToDeepSeek"` included, it holds open by
  returning `true` without calling `sendResponse`. For that reason the background script is not modelled
  and its answer is the `Channel` input. A non-string
  `response.response` is not modelled.
- `SidePanelModel.SidePanel.HandleSendMessage`: a delegation request that
  goes unanswered keeps the turn in flight. Until the channel closes,
  `isProcessing` stays true and every send is refused. Only the eventual
  outcome is modelled (`LastError` when the channel closes), so the
  method always ends idle.
- `src/sidepanel.tsx` (React mount) and `service-worker.js` are not part of
  this model.
- `handleCopyLogs` (clipboard, `toLocaleTimeString`, `JSON.stringify`) is
  not part of this model. The same goes for the `logger` itself, whose
  source is not available.
- `AIPanelModel.AIPanel.RenderMessages`: every copy it pushes carries one
  time `now`. The code reads `Date.now()` once per `addMessage` call.
- `LogDrawerModel.LogColor`: the colour is modelled, not the Tailwind class
  string `getLogColor` returns, because each class string is fixed by its
  colour.
- `LogDrawerModel.LogIcon`: the icon is a glyph and a colour rather than a
  React element.
- `LogDrawerModel.SubtitleCount`: only the number in the subtitle is
  modelled, not the formatted text "`n` log entries".
- `LogDrawerModel.LogEntry`: the `id` is a number, because its type lives
  in the logger and the drawer uses it only as a key. The `data` field is
  dropped.
- The JavaScript strings are UTF-16. The model uses code points, which does
  not matter for `trim`, since all the whitespace it removes is in the
  Basic Multilingual Plane.
