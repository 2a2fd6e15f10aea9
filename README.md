# Collaborative project session and code verification screens, modelled in Dafny

This project models the logic of two screens of a collaborative coding workspace.
In that workspace, people and an automated agent share a project. A project has a file tree and a chat log. The file tree can be run in a sandboxed browser runtime.

- **The project screen** (`frontend/src/screens/Project.jsx`):
  - `mergeMessages` merges the locally cached chat log with the server's log. `fetchProjectMessages` shows the cache first and the merge second.
  - Optimistic `send`.
  - The `project-message` handler. It treats the agent (sender id `"ai"`) apart: the agent's text is parsed, and a `fileTree` in it replaces the whole tree. The user's own echoed messages are dropped.
  - The editor's `onBlur` tree update, the open-tabs list and the collaborator toggle.
  - The sandbox controller: initialisation gated on cross-origin isolation, and the Run sequence (mount, `npm install`, kill the previous run, `npm start`, `server-ready`).
  - The `socketInitialized` guard.
- **The one-time-code screen** (`frontend/src/screens/OTPVerification.jsx`):
  - `formatTime`, the digits-only input filter and the six-digit gate.
  - The expiry countdown and the resend cooldown, one method per timer firing.
  - The verify and resend handlers.

Modules:

- `Wrappers` (wrappers.dfy): `Option`.
- `Text` (text.dfy): JavaScript string primitives as the screens use them: `trim`, `replace(/\D/g, "")`, `toString` of a non-negative integer, `padStart`.
- `Messages` (messages.dfy): messages, the duplicate test, the stable timestamp sort and `MergeMessages` (a loop, as in the source), with lemmas on the specification function `Merge`.
- `Workspace` (workspace.dfy): the file tree, the tabs list and the toggle, as pure functions.
- `ProjectSession` (session.dfy): class `Session` holds the project screen's state fields. There is one method per handler. Calls on the socket and on the sandbox runtime are appended to ordered logs (`channel`, `sandbox`). Each tree save is appended to `persisted`.
- `OtpVerification` (otp.dfy): `FormatTime` and class `OtpForm`, which holds the screen's state and one method per handler or timer firing.

External calls are parameters of the handler that makes them: the server's reply, a sandbox call that throws, the parsed agent payload, what `verifyOTP`/`sendOTP` come back with (a result or an exception), the current time, and whether the page is cross-origin isolated.

Behaviours of the code worth knowing before reading the model (the model follows the code in each):

- The agent id is `"ai"`. A `fileTree` in an agent message replaces the whole tree (`Project.jsx:281-283`). It is not merged key by key.
- `JSON.parse` of the agent's text is unguarded (`Project.jsx:272`). A malformed payload throws out of the handler before anything changes, so the message is not logged. `Session.Receive` with `parsed == None` leaves every field as it was.
- `mergeMessages` compares server messages only with the cache (`Project.jsx:163`). So two equivalent server messages both survive (`Messages.ServerDuplicatesKept`). The merged log is therefore not free of equivalent pairs in general.
- The message handler is registered inside an effect whose only dependency is the project id (`Project.jsx:260-331`). So it sees `webContainer` as it was when that effect ran, which is `null` (`Project.jsx:55`) on a first visit, since the container is only requested later in the same effect. `Session.subscribedContainer` is that captured value, set by `Session.Open`. The agent tree is mounted only when it is present.
- On a failed server fetch, the shown log is cleared only when the cache snapshot was empty, and the cache is not written.
- The verify button is the form's only submit button and is disabled unless nothing is loading and the code has six characters (`OTPVerification.jsx:135`). So the handler's length error (`OTPVerification.jsx:47-50`) cannot be reached through the form. It also cannot run while a resend is waiting for its answer. `OtpForm.SubmitVerify` is the handler itself; `OtpForm.PressVerify` is the form, gated on the button.
- Neither OTP handler catches exceptions (`OTPVerification.jsx:55`, `OTPVerification.jsx:71`). If `verifyOTP` or `sendOTP` throws, the handler stops after turning `loading` on and clearing the error. `loading` then stays on, so both buttons stay disabled for the rest of the screen's life (`OtpVerification.ResendThrowsScenario`).
- The Run button is rendered only while the sandbox is supported (`Project.jsx:488-492`). `Session.Run` does nothing when the sandbox is unsupported or there is no container.

## Model

| member | source | states |
|---|---|---|
| `Text.Trim` | frontend/src/screens/Project.jsx:183 | `trim` returns a slice of the input whose removed prefix and suffix are all whitespace, and leaves no whitespace at either end |
| `Text.TrimEmptyIffBlank` | frontend/src/screens/Project.jsx:183 | `!message.trim()` holds exactly when the text is empty or made only of ECMAScript whitespace and line terminators |
| `Text.DigitsOnly` | frontend/src/screens/OTPVerification.jsx:86 | the filtered input holds only digits, no more characters than the input, and exactly the digit characters of the input |
| `Text.DigitsOnlyAppend` | frontend/src/screens/OTPVerification.jsx:86 | the digits of a concatenation are the digits of each part, in order: the filter keeps what it keeps in input order |
| `Text.DigitsOnlyChar` | frontend/src/screens/OTPVerification.jsx:86 | on one character the filter keeps a digit and drops anything else |
| `Text.DigitsOnlyFixedPoint` | frontend/src/screens/OTPVerification.jsx:86 | the digit filter returns its input unchanged exactly when the input is all digits |
| `Text.DigitsOnlyIdempotent` | frontend/src/screens/OTPVerification.jsx:86 | filtering an already filtered value changes nothing |
| `Text.Decimal` | frontend/src/screens/OTPVerification.jsx:40-42 | `toString` of a non-negative integer is at least one digit with no leading zero, one digit exactly below 10 |
| `Text.DecimalRoundTrip` | frontend/src/screens/OTPVerification.jsx:40-42 | reading the decimal string back yields the number |
| `Text.PadStart` | frontend/src/screens/OTPVerification.jsx:42 | `padStart` reaches the width (or keeps a longer string), ends with the original string and fills the front with the fill character |
| `Messages.Equivalent` | frontend/src/screens/Project.jsx:163-167 | the duplicate test: same text, same sender id, timestamps (a missing one read as 0) less than 1000 ms apart; its cases are pinned by `DedupTolerance` |
| `Messages.Unseen` | frontend/src/screens/Project.jsx:161-172 | a server message is appended exactly when no cached message has the same text, the same sender id and a timestamp under 1000 ms away (missing timestamp = 0) |
| `Messages.UnseenAppend` | frontend/src/screens/Project.jsx:161-172 | the server list is judged occurrence by occurrence: the messages kept from `a + b` are those kept from `a` followed by those kept from `b`, so repeats are kept and server order is preserved, for every cache |
| `Messages.UnseenOne` | frontend/src/screens/Project.jsx:163-171 | one server message is appended exactly when no cached message is equivalent to it |
| `Messages.SortByStamp` | frontend/src/screens/Project.jsx:175-179 | the sorted log is non-decreasing by timestamp and a permutation of its input |
| `Messages.SortByStampStable` | frontend/src/screens/Project.jsx:175-179 | for every timestamp, the messages carrying it keep their relative order (the sort is stable) |
| `Messages.SortByStampOfSorted` | frontend/src/screens/Project.jsx:175-179 | a log already in timestamp order is returned unchanged |
| `Messages.Merge` | frontend/src/screens/Project.jsx:158-180 | the value `mergeMessages` returns is in timestamp order and holds exactly the cached messages plus the appended server messages |
| `Messages.MergeMessages` | frontend/src/screens/Project.jsx:158-180 | the loop builds `cached ++ unseen server messages` and sorts it; the result is sorted, is a permutation of the cache plus the appended messages, and keeps every cached message |
| `Messages.MergeStable` | frontend/src/screens/Project.jsx:159-179 | within each timestamp the merged log lists the cached messages in cache order, then the appended ones in server order |
| `Messages.MergeWithSelf` | frontend/src/screens/Project.jsx:158-180 | merging a log with itself adds nothing, and returns a sorted log unchanged |
| `Messages.UnseenOfEmptyCache` | frontend/src/screens/Project.jsx:161-172 | with an empty cache every server message is appended, in server order |
| `Messages.ServerDuplicatesKept` | frontend/src/screens/Project.jsx:163-172 | two equivalent server messages are both kept when the cache is empty |
| `Messages.DedupTolerance` | frontend/src/screens/Project.jsx:163-167 | messages 400 ms apart count as one, 1200 ms apart as two; a missing timestamp is compared as 0 |
| `Messages.MergeScenario` | frontend/src/screens/Project.jsx:158-180 | cache `[hi@100]` with server `[hi@100, yo@200]` merges to `[hi@100, yo@200]` |
| `Workspace.WithFileContents` | frontend/src/screens/Project.jsx:569-576 | after the edit, the current file's key maps to `{file: {contents}}`, every other key keeps its entry, and no key is removed |
| `Workspace.Distinct` | frontend/src/screens/Project.jsx:461 | `[...new Set(s)]` has no repetition and the same elements as `s` |
| `Workspace.DistinctFirstOccurrence` | frontend/src/screens/Project.jsx:461 | `[...new Set(s)]` lists its elements in the order of their first occurrence in `s` |
| `Workspace.DistinctOfDistinct` | frontend/src/screens/Project.jsx:461 | a list without repetition is its own `[...new Set(...)]` |
| `Workspace.OpenTab` | frontend/src/screens/Project.jsx:461 | opening a file leaves the tab list unchanged if it is already there, else appends it at the end; the list stays free of repetition |
| `Workspace.Toggle` | frontend/src/screens/Project.jsx:70-80 | the clicked id flips membership and every other id keeps its membership |
| `Workspace.ToggleTwice` | frontend/src/screens/Project.jsx:70-80 | clicking the same user twice restores the selection |
| `ProjectSession.RunCalls` | frontend/src/screens/Project.jsx:500-536 | a Run click on a present container makes at most five runtime calls, the first of which mounts the tree |
| `ProjectSession.IsBlank` | frontend/src/screens/Project.jsx:183 | `!message.trim()` holds exactly when the draft is all whitespace |
| `ProjectSession.RunSupersedes` | frontend/src/screens/Project.jsx:494-536 | a Run mounts before anything else; once `npm install` was spawned, the previous run process is killed exactly once, after that spawn and before `npm start`; without a previous process nothing is killed; the `server-ready` listener is added exactly when no call threw |
| `ProjectSession.Session.constructor` | frontend/src/screens/Project.jsx:40-63 | the first render's state: empty log, tree, tabs and selection, no container, supported, no run process, socket not initialised; the cache is the stored entry |
| `ProjectSession.Session.Open` | frontend/src/screens/Project.jsx:263-268 | the socket is connected and subscribed only if no connection is open; the handler captures the current `webContainer`; at most one connection stays open |
| `ProjectSession.Session.Close` | frontend/src/screens/Project.jsx:325-329 | the cleanup disconnects only an open socket and clears the guard |
| `ProjectSession.Session.BeginFetch` | frontend/src/screens/Project.jsx:131-134 | the cache snapshot is returned and shown at once when non-empty; otherwise the log is untouched |
| `ProjectSession.Session.CompleteFetch` | frontend/src/screens/Project.jsx:137-154 | on a reply the log and the cache both become the merge of the snapshot with the server's list (absent list = `[]`); on failure the cache is untouched and the log is cleared only if the snapshot was empty |
| `ProjectSession.Session.TypeDraft` | frontend/src/screens/Project.jsx:407-409 | the input's text becomes the typed value |
| `ProjectSession.Session.Send` | frontend/src/screens/Project.jsx:182-202 | a blank draft changes nothing; otherwise the log gains exactly one message from the user stamped `now`, the cache is written with the same log, that message is published and the input is cleared |
| `ProjectSession.Session.Receive` | frontend/src/screens/Project.jsx:268-303 | an agent message that parses is appended and cached, and its `fileTree`, if any, replaces the tree and is mounted when the handler's container exists; an unparsable one changes nothing; the user's own message is dropped; anyone else's is appended and cached |
| `ProjectSession.Session.ClickExplorerFile` | frontend/src/screens/Project.jsx:459-462 | the clicked file becomes current and is added to the tabs only if absent |
| `ProjectSession.Session.ClickTab` | frontend/src/screens/Project.jsx:477 | the clicked tab becomes the current file |
| `ProjectSession.Session.EditCurrentFile` | frontend/src/screens/Project.jsx:567-578 | the tree becomes the old tree with the current file's contents replaced, and that same tree is sent for saving |
| `ProjectSession.Session.ClickUser` | frontend/src/screens/Project.jsx:70-80 | the selection becomes the toggle of the clicked id |
| `ProjectSession.Session.AddCollaborators` | frontend/src/screens/Project.jsx:82-97 | the picked ids are what is sent; an accepted request empties the selection, a refused one leaves it |
| `ProjectSession.Session.ProjectLoaded` | frontend/src/screens/Project.jsx:221-232 | a loaded project's saved tree replaces the whole tree, and a project without one leaves the empty tree |
| `ProjectSession.Session.InitializeContainer` | frontend/src/screens/Project.jsx:240-258 | without cross-origin isolation no container is requested, the isolation error is set and the sandbox is unsupported; otherwise a container is requested and either stored with the error cleared, or the failure message is set and the sandbox is unsupported |
| `ProjectSession.Session.Run` | frontend/src/screens/Project.jsx:494-541 | with the sandbox unsupported (no button) or no container nothing happens; otherwise exactly the `RunCalls` sequence is made; on success the new process becomes the run process; on the first throw, `Error running project: <message>` is set and the old handle is kept |
| `ProjectSession.Session.ServerReady` | frontend/src/screens/Project.jsx:533-536 | the preview address becomes the reported URL once a listener has been registered |
| `ProjectSession.SelfEchoScenario` | frontend/src/screens/Project.jsx:291-302 | a sent message echoed back under the user's id appears once in the log, and was published once |
| `ProjectSession.OpenTwiceScenario` | frontend/src/screens/Project.jsx:263-266 | running the socket effect twice connects and subscribes once |
| `ProjectSession.NotIsolatedScenario` | frontend/src/screens/Project.jsx:243-247 | without isolation no sandbox call is made, the sandbox is unsupported and the isolation error is shown |
| `ProjectSession.LoadEditRunScenario` | frontend/src/screens/Project.jsx:221-232 | the project's saved tree, edited in the open file, is the tree that is saved and the tree the next Run mounts |
| `ProjectSession.RerunScenario` | frontend/src/screens/Project.jsx:515-531 | two successful runs: the second kills the first run process between its install and start spawns, and its own process becomes current |
| `OtpVerification.FormatTime` | frontend/src/screens/OTPVerification.jsx:39-43 | the display is digits, a colon and exactly two digits; minutes times 60 plus the seconds field (below 60) is the time given |
| `OtpVerification.OtpForm.constructor` | frontend/src/screens/OTPVerification.jsx:11-15 | empty code and error, not loading, no cooldown, 600 seconds left |
| `OtpVerification.OtpForm.ExpiryTick` | frontend/src/screens/OTPVerification.jsx:18-26 | while time is left it drops by exactly one, never below zero; reaching zero clears the stored code once and sets the expiry error |
| `OtpVerification.OtpForm.CooldownTick` | frontend/src/screens/OTPVerification.jsx:28-37 | the cooldown drops by one and stops at zero |
| `OtpVerification.OtpForm.ChangeOtp` | frontend/src/screens/OTPVerification.jsx:85-90 | the code becomes the input's digits when there are at most six of them, else stays as it was; it always holds at most six digits |
| `OtpVerification.OtpForm.SubmitVerify` | frontend/src/screens/OTPVerification.jsx:45-64 | a code that is not six long only sets the length error and calls nothing; otherwise the code is checked, success calls `onVerified`, failure shows the result's message, and loading ends false; if the check throws, loading stays on and the error stays cleared |
| `OtpVerification.OtpForm.VerifyEnabled` | frontend/src/screens/OTPVerification.jsx:135 | the verify button is enabled exactly when nothing is loading and the code has six characters |
| `OtpVerification.OtpForm.PressVerify` | frontend/src/screens/OTPVerification.jsx:110-140 | while the verify button is disabled, submitting does nothing; otherwise the verify handler runs on the six-digit code, with the same outcomes, a throw included |
| `OtpVerification.OtpForm.ClickResend` | frontend/src/screens/OTPVerification.jsx:66-71 | ignored while loading or cooling down (the button's `disabled`, line 149); otherwise loading starts, the error is cleared and a new code is generated and sent |
| `OtpVerification.OtpForm.ResendAnswered` | frontend/src/screens/OTPVerification.jsx:71-83 | a successful send stores the new code, sets the cooldown to 60 and the time left to 600 and clears the error; a failed one sets the error and leaves both timers, and loading ends false in both cases; a `sendOTP` that throws leaves loading on and changes nothing else |
| `OtpVerification.ResendThrowsScenario` | frontend/src/screens/OTPVerification.jsx:66-83 | after a resend whose `sendOTP` throws, the form stays loading with no error shown, and later clicks on either button make no call |
| `OtpVerification.CountdownScenario` | frontend/src/screens/OTPVerification.jsx:15-26 | from the first render, exactly 600 ticks bring the time to zero, with the stored code cleared once and the expiry error shown |

## Left out

- Rendering is not modelled: JSX, Tailwind classes, Markdown and `highlight.js` (`SyntaxHighlightedCode`, `WriteAiMessage`), the iframe, scrolling, the side panel and modal toggles, and the redirect when no project is given. None of it changes the modelled state.
- The HTTP requests themselves are not modelled. `fetchProjectData` is modelled by its answer (`Session.ProjectLoaded`), and `addCollaborators` by the selection it sends and clears. The replaced `project` object is not modelled: its id is the constant `projectId`. Neither is the modal closing, or the project reload that follows an accepted `addCollaborators`, which is another `ProjectLoaded`. `GET /users/all` only fills the picker's list and is not modelled. A failure of any of these requests is only logged. `saveFileTree` appears only as the `persisted` list of trees sent.
- `localStorage` and JSON (de)serialisation of the cache are not modelled. The cache is a sequence field, and its reads and writes never fail in the model.
- The agent payload is given already parsed (`Option<AgentPayload>`, `None` when `JSON.parse` throws). How text maps to a payload is not modelled.
- Timestamps are integer milliseconds, and the send time is a parameter. ISO date strings, parsing and invalid dates are not modelled.
- `Session.InitializeContainer`, `Session.Run` and `Session.AddCollaborators` each happen in one step. Other handlers can run during their `await`s, and that interleaving is not modelled. For `AddCollaborators`, ids toggled while the request is in flight are also cleared when the answer arrives (`Project.jsx:91`), and the model cannot show that. The fetch and the resend are split at their `await` points.
- Process output streams (`pipeTo`) are not modelled. A `kill` that throws is not modelled. The `server-ready` listeners that pile up over several runs are modelled as one flag, since every one of them sets the same address.
- The mount effect's composition is not one method. The effect opens the socket, requests the container when there is none and the sandbox is supported, then fetches the project and the messages. These are the separate methods `Open`, `InitializeContainer`, `BeginFetch` and `CompleteFetch`.
- The effect that re-saves the log whenever it changes (`Project.jsx:359-363`) writes the same value the handlers already cached, so it is not modelled. The address-bar edit of the preview URL (`Project.jsx:603`) is not modelled either.
- `verifyOTP`, `sendOTP`, `generateOTP`, `storeOTP` and `clearOTP` are uninterpreted. Their calls are logged in order. What `verifyOTP` and `sendOTP` come back with is a parameter, a throw included. `generateOTP`, `storeOTP` and `clearOTP` are assumed not to throw.
- The input's `maxLength` attribute is not modelled, and neither is real time. Each timer firing is one method call.
- `OtpVerification.FormatTime` takes a `nat`. The screen only passes `timeLeft`, which the expiry tick never takes below zero.
- `frontend/src/screens/Home.jsx` and `frontend/src/screens/Logout.jsx` are not part of this model. They hold navigation, network and storage clearing only.
