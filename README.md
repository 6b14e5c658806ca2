# Morfis frontend, modelled in Dafny

Morfis is a web front end for designing CAD parts: the user describes a part in a chat, and a CAD backend answers with a model. The model is shown in a 3D viewer, where it can be recoloured, measured, downloaded and saved. This project models the decision logic of that front end and proves properties of it. The front end has two parts:

- **The Flask server (`app.py`).** It gates requests behind a password session with a one-hour inactivity expiry, gives each browser tab its own session id, stores the models the backend sends, and keeps a log of the design trajectory, which it renders as HTML. It also validates waitlist and feedback requests and runs one YACV viewer server per session.
- **The browser scripts (`static/js/*.js`):**
  - the chat page controller and its conversation panel;
  - the integrated Online3DViewer viewer, the simple Three.js viewer and the YACV iframe viewer;
  - the measuring tool and the download button;
  - the mobile input modal, the trajectory modal, the colour picker and the save dialog.

Each source component is one Dafny module, in one file:

| source | modules |
|---|---|
| `app.py` | `AppSession`, `AppModelData`, `AppDesignTypes`, `AppTrajectory`, `AppValidators`, `AppYacv` |
| `static/js/integrated_viewer.js` | `IntegratedViewer` |
| `static/js/main.js` | `MainConversation`, `MainApp` |
| `static/js/measure_tool.js` | `MeasureTool` |
| `static/js/download_handler.js` | `DownloadHandler` |
| `static/js/three_viewer.js` | `ThreeViewer` |
| `static/js/mobile_input.js` | `MobileInput` |
| `static/js/yacv_build123d_viewer.js` | `YacvViewer` |
| `static/js/trajectory.js` | `TrajectoryView` |
| `static/js/color_selector.js` | `ColorSelector` |
| `static/js/save_design.js` | `SaveDesign` |

| shared module | what it holds |
|---|---|
| `Wrappers` | `Option` and `Result` |
| `Text` | the JavaScript and Python string operations the code uses, over `seq<char>` |
| `Hex` | `parseInt(s, 16)`, the `#RRGGBB` form of CSS Color Module Level 4 (section 5.2) and `bytes.fromhex` |
| `Browser` | `localStorage`, class-list toggling and JavaScript truthiness |
| `PyValues` | the Python values of JSON bodies and of the session |

The following conventions hold throughout:

- **Objects whose fields the source updates are classes.** Their methods change the fields and state the whole new state.
- **Pure helpers are functions.** Their partner properties are lemmas.
- **Network answers are parameters.** In the chat controller each request/answer pair becomes a "begin" step and a "finish" step, which takes the answer as a parameter. A guard that ignores input while a request is pending can then be observed, and so can what changes in between. Four handlers are single steps that take the answer as a parameter: `DownloadHandler.DownloadHandler.HandleDownload`, `SaveDesign.SaveDialog.Confirm`, `YacvViewer.Viewer.ExecuteBuild123dCode` (with `YacvViewer.Viewer.LoadExample`, which calls it) and `TrajectoryView.TrajectoryPage.LoadTrajectoryContent`. "## Left out" says what each of these leaves out.
- **Timer callbacks are separate `Fire…` steps.** A counter or a field records that each one is pending.
- **Effects on libraries are recorded,** not performed: calls into the 3D viewers, requests sent and notices shown.
- **DOM and storage become plain values.** Class lists are `set<string>` values, element lists are sequences, and `localStorage` is a map.
- **Times, random ids and Python's `hash` are parameters.** These are the current time, the `Date.now()` timestamps, the random cache-busting ids, and `hash()` of a session id.

## Model

| member | source | states |
|---|---|---|
| Text.Utf16Length | static/js/mobile_input.js:318 | JavaScript's `length` of a text lies between its number of characters and twice that; it equals the number of characters exactly when none lies outside the Basic Multilingual Plane, and twice it exactly when all do |
| Text.Utf16LengthAppend | static/js/mobile_input.js:318 | the UTF-16 length of two joined texts is the sum of theirs |
| Hex.ParseRgb | static/js/integrated_viewer.js:176-179 | for a `#RRGGBB` colour the three results are its red, green and blue bytes; for any text each parsed part lies between -15 and 255 |
| Hex.ParseHexNumber | static/js/three_viewer.js:299 | for a `#RRGGBB` colour the result is 65536·R + 256·G + B |
| Hex.HexColorPairs | static/js/integrated_viewer.js:176-179 | each two-digit `parseInt` of a `#RRGGBB` colour yields that channel's byte |
| Hex.HexNumberOfColor | static/js/three_viewer.js:299 | `parseInt` of the six digits of a `#RRGGBB` colour is the packed value of its channels |
| Hex.FromHexToHex | app.py:290 | `bytes.fromhex` of hex-encoded bytes gives the same bytes |
| Hex.FromHexOddDigits | app.py:290 | a run of hex digits of odd length is rejected by `bytes.fromhex` |
| AppSession.RefreshSession | app.py:58-74 | for an authenticated session, it stays authenticated exactly when its login time is missing or not run out; an expired or unreadable time removes exactly the flag and the time; a missing or empty one is set to the current ISO time and nothing else changes; a time that has not run out leaves the session as it was; no other key changes |
| AppSession.Decide | app.py:54-104 | login, logout and static always pass, as does an authenticated session; otherwise 401 exactly when the endpoint starts with `api/` or `get_`, the method is POST, or the endpoint is in the protected list |
| AppSession.SessionKey | app.py:170-174 | the key starts with `tab_session_` exactly when a non-empty `X-Tab-ID` header is present |
| AppSession.AllocateSessionId | app.py:167-228 | the key is present afterwards and the result is its value; a missing key gets the fresh id; no existing entry changes and only that key is added |
| AppSession.Session.constructor | app.py:52 | the session holds the given data |
| AppSession.Session.CheckPasswordProtection | app.py:51-105 | the new session is the refreshed one (unchanged for exempt endpoints) and the decision is `Decide` on the refreshed session |
| AppSession.Session.GetSessionId | app.py:167-228 | the new session and the returned id are those of `AllocateSessionId` |
| AppSession.ExemptAlwaysPass | app.py:55-56 | an exempt endpoint passes whatever the session holds |
| AppSession.ExpiredLoginBlocked | app.py:59-66 | a login more than one hour old is dropped, and an API, POST or protected request is then refused |
| AppSession.RecentLoginPasses | app.py:59-64 | a login at most one hour old leaves the session unchanged and every request passes |
| AppSession.SessionKeysDistinct | app.py:172-174 | distinct tab ids get distinct keys, and no tab key is `session_id`, `authenticated` or `login_time` |
| AppSession.AllocateIdempotent | app.py:175-176 | a second call for the same tab returns the same id and state, whatever fresh id it is offered |
| AppSession.AllocateKeepsLogin | app.py:167-228 | allocating an id leaves `authenticated` and `login_time` as they were |
| AppModelData.NormaliseFormat | app.py:279-284 | a missing, `None` or empty format becomes `stl`; a string is lower-cased; a non-string value is an error (the `.lower()` that raises) |
| AppModelData.Extension | app.py:296-299 | `.step` exactly for the format `step`, `.stl` for every other |
| AppModelData.ModelPath | app.py:301 | the path is `static/cadmodels/model` followed by the format's extension |
| AppModelData.ProcessModelData | app.py:275-313 | an error exactly when the format is not text; a model exactly when the payload is non-empty hex text and the file was stored; the model's type is the normalised format, its contents the decoded bytes, and its path is `static/cadmodels/model` with the type's extension, ending in `.step` exactly when the type is `step` |
| AppModelData.ContentType | app.py:348-355 | one of `application/step`, `application/sla`, `application/octet-stream` |
| AppModelData.ContentTypeCaseInsensitive | app.py:348-353 | the Content-Type does not depend on the case of the file name |
| AppModelData.ContentTypeBySuffix | app.py:348-355 | `.step`/`.stp` give STEP, `.stl` gives STL, and octet-stream exactly when none of the three suffixes matches |
| AppModelData.StoredModelServedAs | app.py:296-301 | a stored model's file is served as STEP exactly when the format is `step`, and as STL otherwise |
| AppModelData.HexPayloadStored | app.py:290-313 | non-empty bytes sent hex-encoded are stored exactly, whatever the format |
| AppDesignTypes.Title | app.py:520 | `str.title()` keeps the length and which characters are letters, and changes only their case |
| AppDesignTypes.Capitalize | app.py:622 | `str.capitalize()`: the first character upper-cased and the rest lower-cased, the length kept |
| AppDesignTypes.Spaced | app.py:432 | replacing `_` by a space keeps the length and leaves no underscore |
| AppDesignTypes.DesignTypeEntry | app.py:518-527 | the entry keeps the id; its name is the id with spaces for underscores, title-cased (so it differs from that text only in letter case and holds no underscore); its description is exactly `Start with a <spaced id> design` |
| AppDesignTypes.FormatDesignTypes | app.py:501-527 | one entry per backend id, in order, each being that id's entry |
| AppDesignTypes.NewDesignCommand | app.py:432-433 | the recorded command is `Create new `, the spaced design type, then ` design` |
| AppDesignTypes.NewDesignAnswer | app.py:432-470 | the backend's text when it is present, not empty and not `Completed`; otherwise the blank-canvas text exactly for `empty` and, for any other type, exactly `Starting with a <spaced type> design. You can modify it or add features.`; the answer is never empty nor `Completed` |
| AppDesignTypes.TitleIdempotent | app.py:520 | applying `title()` twice gives the same name as once |
| AppDesignTypes.TitleWordShape | app.py:520 | in a display name a letter starting a word is a capital and a letter inside a word is small |
| AppTrajectory.Trajectory.constructor | app.py:402 | the log starts empty |
| AppTrajectory.Trajectory.AppendUserCommand | app.py:405-410 | the log gains exactly one `user` entry with the command and timestamp at its end |
| AppTrajectory.Trajectory.AppendAiResponse | app.py:413-418 | the log gains exactly one `system` entry with the response and timestamp at its end |
| AppTrajectory.Trajectory.NewDesign | app.py:427-469 | the log is reset to the design's command, followed by the answer when the backend replied; no answer is logged when the reset request fails |
| AppTrajectory.MessageFragments | app.py:616-629 | a message box opens with its type's class and closes at its end, with five or six pieces (six when it has a timestamp) |
| AppTrajectory.RenderMessage | app.py:616-629 | the loop body's markup is that of the message's fragments, with the defaults `system`, empty content and empty time |
| AppTrajectory.RenderMessageList | app.py:611-631 | the message list is the list markup around the boxes of every message, in order |
| AppTrajectory.GenerateTrajectoryHtml | app.py:599-639 | the page is the header, then the error block, the message list or the no-data notice, then the closing tag |
| AppTrajectory.RenderBody | app.py:608-636 | a non-empty error gives only the error block; otherwise a message list gives the list of message boxes, and anything else the no-data notice |
| AppTrajectory.CountAppend | app.py:614-629 | counting boxes and time spans distributes over concatenation |
| AppTrajectory.MessageCounts | app.py:614-629 | the list has one box per message and a time span exactly for each message with a non-empty timestamp |
| AppTrajectory.MessageBoxCounts | app.py:615-628 | one message box opens exactly one box and holds a time span exactly when its timestamp is not empty |
| AppTrajectory.PageStructure | app.py:607-635 | an error gives the error block and no box; a message list gives one box per message and one time span per timestamped message; otherwise the no-data notice and no box |
| AppValidators.ValidateWaitlist | app.py:749-771 | accepted exactly when all four required fields are present and truthy; otherwise refused naming the first field, in order, that is missing or falsy |
| AppValidators.ValidateFeedback | app.py:908-921 | accepted exactly when `message_index` is present and not `null` (0 included) and `feedback_type` is `thumbs_up` or `thumbs_down`; a missing index is refused first |
| AppYacv.YacvPort | app.py:1201 | the port lies in [32323, 33322] for every session hash, negative ones included |
| AppYacv.ProcessTable.constructor | app.py:990 | the process table starts empty: no process belongs to two sessions and none in the table is terminated |
| AppYacv.ProcessTable.Execute | app.py:994-1263 | a body that is not an object, or whose `code` is not text, gets the 500 failure and changes nothing; blank code is refused and changes nothing; a failure to prepare the temporary files gets the 500 failure before any process is touched; otherwise the session's old process, if any, is terminated; a failed spawn then gets the 500 failure and leaves that terminated process in the table; a spawned process is recorded, and the answer is a failure when it exited within two seconds and the server URL otherwise; no process ever belongs to two sessions, and a table without terminated processes keeps none unless the spawn fails |
| AppYacv.ProcessTable.Stop | app.py:1266-1283 | stopped exactly when the session has a process, which is then terminated and removed; otherwise nothing changes; no process belongs to two sessions, and a table without terminated processes keeps none |
| AppYacv.RecordKeepsInjective | app.py:1233 | recording a process no session owns keeps every process in the table owned by one session |
| AppYacv.RecordKeepsLive | app.py:1205-1233 | terminating the session's old process and recording a new live one leaves no terminated process in the table |
| AppYacv.LaunchPortsAgree | app.py:1161-1219 | the script, the child environment and the returned URL name the same port, in [32323, 33322] |
| AppYacv.IndentCodeLines | app.py:1149-1150 | the indented code has as many lines as the original, each being the original line after four spaces |
| IntegratedViewer.PreferredColor | static/js/integrated_viewer.js:175 | the first candidate when it is set and not empty, else the second when it is, else `#FF4500`; never empty. The viewer is created with the pending colour first, a backend model loaded with the stored selection first |
| IntegratedViewer.BaseUrl | static/js/integrated_viewer.js:921-922 | the base URL is a prefix of the URL with no `?`, and the whole URL when it has none |
| IntegratedViewer.Stamped | static/js/integrated_viewer.js:911 | the timestamped URL is never empty, so it always counts as a recorded URL |
| IntegratedViewer.IntegratedViewer.constructor | static/js/integrated_viewer.js:3-26 | a fresh viewer is simple, uninitialised, with no viewer, no last load, no pending colour and no timer; the invariant holds |
| IntegratedViewer.IntegratedViewer.BeginInit | static/js/integrated_viewer.js:28-32 | `init` always chooses the advanced mode and holds colour updates off; nothing else changes |
| IntegratedViewer.IntegratedViewer.FinishInit | static/js/integrated_viewer.js:36-58 | colour updates are allowed again; initialised exactly on success, with a viewer whose colour is the preferred colour with the pending colour before the stored selection |
| IntegratedViewer.IntegratedViewer.UpdateAdvancedModel | static/js/integrated_viewer.js:901-962 | a model with a path is loaded, recorded with its time, coloured by the preferred colour with the stored selection before the pending colour, and clears the pending colour, unless the same stamped URL or the same base URL within a second was last loaded; `reset` loads an empty list and forgets the last load; otherwise, or without a viewer, nothing changes |
| IntegratedViewer.IntegratedViewer.LoadStamped | static/js/integrated_viewer.js:930-951 | the stamped URL and the load time are recorded, the viewer colour is the preferred colour with the stored selection before the pending colour, exactly that URL is loaded, and the pending colour is cleared |
| IntegratedViewer.IntegratedViewer.UpdateModel | static/js/integrated_viewer.js:843-854 | the model is always handed to the download handler; in simple mode the advanced records stay unchanged |
| IntegratedViewer.IntegratedViewer.ClearModel | static/js/integrated_viewer.js:1019-1088 | with an advanced viewer an empty list is loaded and the last load is forgotten; the download handler is cleared in every mode |
| IntegratedViewer.IntegratedViewer.UpdateModelColor | static/js/integrated_viewer.js:1103-1155 | ignored while initialising or without an advanced viewer; otherwise the colour is stored as `selectedColor`, configured, and a single 300 ms timer applying it replaces any earlier one |
| IntegratedViewer.IntegratedViewer.RecreateAdvancedViewerWithColor | static/js/integrated_viewer.js:1157-1213 | throws, leaving only the pending colour set, exactly when no viewer configuration exists; otherwise a new viewer with the colour reloads the given URL, recording it with the time, or forgets the last load when there is none, and the pending colour is cleared |
| IntegratedViewer.IntegratedViewer.FireColorTimer | static/js/integrated_viewer.js:1139-1151 | the timer's colour is applied by recreating the viewer with the last loaded URL, which is reloaded and re-timed; the handle is cleared |
| IntegratedViewer.IntegratedViewer.Destroy | static/js/integrated_viewer.js:1215-1233 | the viewer is marked uninitialised and nothing else of its state changes |
| IntegratedViewer.GlobalUpdateModelColor | static/js/integrated_viewer.js:1330-1345 | an initialised viewer gets the colour through its own update; otherwise the colour is stored under both `selectedColor` and `morfis_model_color` and no timer is set |
| IntegratedViewer.LibraryLoader.constructor | static/js/integrated_viewer.js:227-268 | the first source is given to the one script element, which is then inserted and fetches it; no event has fired, no check is scheduled and the promise is pending |
| IntegratedViewer.LibraryLoader.TryNextUrl | static/js/integrated_viewer.js:238-247 | the next untried source is given to `src`, in order, and nothing new is fetched; once all three were given, a pending promise is rejected with `All CDN sources failed` |
| IntegratedViewer.LibraryLoader.OnError | static/js/integrated_viewer.js:243-268 | the element's one `error` event gives the first CDN to `src`, which fetches nothing: no event is left to come, no check is scheduled and the promise stays pending for good |
| IntegratedViewer.LibraryLoader.OnLoad | static/js/integrated_viewer.js:249-259 | the element's one `load` event schedules one check; the sources and the pending promise are unchanged |
| IntegratedViewer.LibraryLoader.FireCheck | static/js/integrated_viewer.js:250-258 | the check resolves the promise when `OV` exists; otherwise it gives the first CDN to `src`, which fetches nothing, and the promise stays pending for good with no event or check left to come |
| IntegratedViewer.LocalCopyFailureSticks | static/js/integrated_viewer.js:228-268 | when the local copy fails to load, the promise stays pending for good, the first CDN having been set as `src` and never fetched |
| IntegratedViewer.FreshScriptLoader.constructor | static/js/integrated_viewer.js:227-268 | with a fresh element per source, the first source is fetched and the promise is pending |
| IntegratedViewer.FreshScriptLoader.TryNextUrl | static/js/integrated_viewer.js:238-247 | with a fresh element per source: the next source is fetched by a new element whose event is still to come, or, once all three were fetched, a pending promise is rejected with `All CDN sources failed`; the promise is never rejected earlier |
| IntegratedViewer.FreshScriptLoader.OnError | static/js/integrated_viewer.js:262-265 | the newest element's failure moves on to a fresh element for the next source, or rejects a pending promise once none is left |
| IntegratedViewer.FreshScriptLoader.OnLoad | static/js/integrated_viewer.js:249-260 | the newest element's load schedules one more check and changes nothing else |
| IntegratedViewer.FreshScriptLoader.FireCheck | static/js/integrated_viewer.js:250-258 | a check resolves a pending promise when `OV` exists, and otherwise moves on to the next source or rejects a pending promise once none is left |
| IntegratedViewer.LocalCopyFailureRecoversCorrected | static/js/integrated_viewer.js:228-268 | with a fresh element per source, a failing local copy followed by a first CDN that loads resolves the promise |
| IntegratedViewer.AllSourcesFailCorrected | static/js/integrated_viewer.js:239-240 | with a fresh element per source, three failures reject the promise with `All CDN sources failed`, after all three sources were fetched |
| IntegratedViewer.ValidColorChannels | static/js/integrated_viewer.js:176-179 | every `#RRGGBB` colour parses to three channels in 0..255 |
| IntegratedViewer.ColorPrioritiesDiffer | static/js/integrated_viewer.js:175 | initialisation and model loading pick different colours exactly when a pending colour and a stored selection both exist and differ |
| IntegratedViewer.BaseOfStamped | static/js/integrated_viewer.js:911-922 | adding the timestamp does not change the base URL |
| IntegratedViewer.RepeatWithinWindowSkipped | static/js/integrated_viewer.js:925-928 | a second request for the same path less than a second after its load is skipped, whatever its timestamp |
| IntegratedViewer.LaterRequestLoads | static/js/integrated_viewer.js:915-928 | a request for the same path with a new timestamp a second or more later is loaded |
| IntegratedViewer.ClearedNeverSkips | static/js/integrated_viewer.js:1031-1032 | after a reset or a clear no request is skipped |
| IntegratedViewer.OtherModelLoads | static/js/integrated_viewer.js:925 | loads of different base URLs never suppress each other |
| MainConversation.NewMessage | static/js/main.js:700-712 | a new message carries an index exactly when its type is `system`, that index being the counter; only a system message can be a generated answer; it has no buttons yet and no loading rollback button |
| MainConversation.Indices | static/js/main.js:707 | there are never more indices than messages |
| MainConversation.LastSystemPos | static/js/main.js:760-765 | the position found holds an element with the `system-message` class, a loading element included, and no later element has it; none is found exactly when no element has it |
| MainConversation.FirstOfType | static/js/main.js:768-771 | the position found is the first element of that type and no earlier one has it; it is the length when no element has the type |
| MainConversation.Refreshed | static/js/main.js:767-837 | rebuilding the buttons keeps the number of elements and each element's name, type, text, index and generated flag |
| MainConversation.FirstWithIndex | static/js/main.js:520-529 | the position found is the first system message carrying the target index; none is found exactly when no system message carries it |
| MainConversation.PositionOf | static/js/main.js:583 | the position found holds the element with that name; none is found exactly when no element has it |
| MainConversation.Settled | static/js/main.js:600-695 | when the clicked pair is still shown: both buttons are enabled again; a success leaves the clicked button active and the other not, and a failure leaves the active states as they were |
| MainConversation.Detached | static/js/main.js:600-695 | when the clicked pair was replaced by a rebuild: nothing is enabled or disabled (the `finally` clause throws) and the clicked thumb of the shown pair keeps its state; a success switches the other thumb off; a failure changes nothing |
| MainConversation.Voted | static/js/main.js:583-695 | settling a vote changes only the feedback buttons of the message it was for, and nothing at all when that message is gone |
| MainConversation.VotedCorrected | static/js/main.js:583-695 | the intended settling also changes only the feedback buttons of the message the vote was for |
| MainConversation.Conversation.constructor | static/js/main.js:253 | an empty panel with the counter at 0 and no vote in flight satisfies the invariant: indices only on messages of type `system`, increasing and below the counter; buttons only on elements with the `system-message` class; feedback only on generated answers, never both thumbs active; no two elements alike; at most one loading element of each kind |
| MainConversation.Conversation.AddMessage | static/js/main.js:700-753 | the message is appended as a new element and the counter advances exactly for a system message; the votes are kept; the invariant is kept |
| MainConversation.Conversation.ShowLoading | static/js/main.js:850-889 | a loading element, bare for `showLoadingMessage` and with content for `addLoadingMessageWithoutPolling` (lines 1018-1048), is appended with no index and no buttons; the counter does not move; the invariant is kept |
| MainConversation.Conversation.RemoveLoading | static/js/main.js:938-940 | the loading element of that kind goes when it is still in the panel, and then none of that kind is left; nothing else changes; the invariant is kept |
| MainConversation.Conversation.RefreshButtons | static/js/main.js:756-837 | the panel becomes its rebuilt form, and the loop throws exactly when a bare loading element is in the panel; the counter, the votes and the pending rollbacks are kept; the invariant is kept |
| MainConversation.FindLastSystem | static/js/main.js:760-765 | the search finds the position of the last system message, or none when there is no system message |
| MainConversation.Rebuild | static/js/main.js:767-837 | given the last system element, the loop rebuilds every element, in order, up to the first bare loading element, and throws there exactly when there is one |
| MainConversation.AppendValid | static/js/main.js:707-741 | appending a new message keeps the panel invariant with the counter advanced past a system message |
| MainConversation.PrefixValid | static/js/main.js:535-537 | the messages that remain after a rollback keep the panel invariant |
| MainConversation.RemoveValid | static/js/main.js:938-940 | removing an element without an index keeps the panel invariant, and removing the first loading element of a kind leaves none of that kind |
| MainConversation.RefreshedValid | static/js/main.js:767-842 | rebuilding the buttons keeps the panel invariant |
| MainConversation.UpdateValid | static/js/main.js:569-697 | changing the feedback buttons of one generated message keeps the panel invariant |
| MainConversation.Conversation.FindTarget | static/js/main.js:517-529 | the loop finds the first system message with the target index |
| MainConversation.Conversation.TruncateAfter | static/js/main.js:517-541 | every message after the target is removed, or none when it is missing; the counter, the invariant and the pending rollbacks are kept |
| MainConversation.Conversation.Clear | static/js/main.js:392-396 | the panel is emptied and the counter reset to 0 |
| MainConversation.Conversation.BeginFeedback | static/js/main.js:569-585 | a request is sent exactly when the clicked button is neither active nor disabled; then both buttons of that message are disabled and the vote, naming the message and the pair clicked, is in flight; otherwise nothing changes |
| MainConversation.Conversation.FinishFeedback | static/js/main.js:583-695 | the vote leaves those in flight and only the voted message's feedback buttons change: to their settled state when its pair is still the one clicked, and otherwise as the detached button leaves them; the invariant is kept |
| MainConversation.Conversation.FinishFeedbackCorrected | static/js/main.js:583-695 | the intended settling: the vote leaves those in flight and the buttons shown now settle, whether or not a rebuild replaced the pair that was clicked; the invariant is kept |
| MainConversation.AppendKeepsIndices | static/js/main.js:707-741 | appending a message indexed by the counter keeps the indices increasing and below the advanced counter |
| MainConversation.IndicesPrefix | static/js/main.js:535-537 | the indices of a prefix of the panel are a prefix of its indices |
| MainConversation.Build | static/js/main.js:700-741 | replaying `addMessage` from an empty panel keeps one message per call and a non-negative counter |
| MainConversation.BuildIndices | static/js/main.js:707-741 | from an empty panel the system messages are numbered 0, 1, 2, … in the order they were added, and the counter is their number |
| MainConversation.RollbackButtonPlacement | static/js/main.js:789-798 | up to the first bare loading element, an element with the `system-message` class gets a rollback button exactly when it has a positive index and a later element has that class too, a loading element included; from the bare loading element on nothing changes |
| MainConversation.SpinnerCountsAsLast | static/js/main.js:767-798 | when an answer is typed out while the bare loading element of a pending command follows it, every system message with a positive index, the newest answer included, gets a rollback button, and the loading element itself is left as it was |
| MainConversation.FeedbackButtonPlacement | static/js/main.js:776-837 | up to the first bare loading element, exactly the generated answers have feedback buttons after the rebuild, a new enabled pair keeping the active states; other elements, and everything from the bare loading element on, are unchanged; text and index are always kept |
| MainConversation.RollbackTruncation | static/js/main.js:517-541 | a rollback leaves a prefix of the panel that ends at the first system message with the target index, or the whole panel when no message has it |
| MainConversation.RollbackDropsLaterMessages | static/js/main.js:517-538 | once the target is in the panel, every element added after it, such as a command and its answer sent while the rollback was pending, goes with the truncation |
| MainConversation.RebuiltRollbackClickable | static/js/main.js:789-797 | a rebuild gives each system message it reaches a rollback button that is not loading (where it gets one at all), so the loading guard lasts only until the next rebuild |
| MainConversation.Conversation.BeginRollback | static/js/main.js:486-495 | the click is ignored exactly while the button is loading; otherwise that button alone becomes loading under a new click name, and the click is pending with the element and its index |
| MainConversation.Conversation.FinishRollback | static/js/main.js:517-562 | the click leaves those pending; on success the panel is truncated after the target as it is now; then the clicked button, if it is still shown, leaves its loading state, and every other element is unchanged (`MainConversation.Released`) |
| MainConversation.ReleasedValid | static/js/main.js:547-562 | releasing a rollback button keeps the panel well formed |
| MainConversation.FeedbackExclusive | static/js/main.js:571-609 | after a successful vote exactly one thumb is active, and a click on an active thumb sends nothing |
| MainConversation.ShownVoteSettles | static/js/main.js:600-695 | a vote whose pair is still shown settles exactly that message's buttons and changes nothing else |
| MainConversation.RebuiltVoteLost | static/js/main.js:600-608 | a successful vote for an answer whose buttons were rebuilt while it was in flight leaves neither thumb of the shown pair active |
| MainConversation.RebuiltVoteShownCorrected | static/js/main.js:600-608 | with the intended settling the same vote leaves the clicked thumb active and the other not |
| MainConversation.RefreshedKeepsIndices | static/js/main.js:760-842 | refreshing the buttons changes no message's index |
| MainConversation.AppendKeepsNone | static/js/main.js:700-753 | appending an element of another type keeps a type absent from the panel absent |
| MainConversation.TruncatedKeepsNone | static/js/main.js:517-541 | a rollback keeps a type absent from the panel absent |
| MainConversation.WithoutLoadingKeepsNone | static/js/main.js:938-940 | removing a loading element keeps a type absent from the panel absent |
| MainConversation.RefreshedKeepsNone | static/js/main.js:767-837 | rebuilding the buttons keeps a type absent from the panel absent |
| MainConversation.VotedKeepsNone | static/js/main.js:600-695 | settling a vote keeps a type absent from the panel absent |
| MainApp.RequestHeaders | static/js/main.js:99-109 | with the corrected same-origin test the tab id is added for the page's own backend only, and the caller's other headers are passed on unchanged |
| MainApp.TextareaLayout | static/js/main.js:258-283 | a single line no taller than 52 px keeps 52 px; otherwise the height is the content's height capped at 150 px; the `overflow` class is set exactly when the content is taller than 150 px |
| MainApp.NewDesignFallback | static/js/main.js:431-434 | the fallback text names the design type with its first underscore, and only that one, turned into a space |
| MainApp.DesignReply | static/js/main.js:423-448 | the reply is a message of type `system` exactly when the request succeeded, and an error message otherwise |
| MainApp.DesignReplyText | static/js/main.js:423-448 | a successful answer shows its message, or the fallback when it has none; a refused request shows the error for `Failed to start <type> design`; a thrown one shows the timeout text exactly when its message mentions `timed out`, and otherwise `Error: Failed to start <type> design` |
| MainApp.MorfisApp.constructor | static/js/main.js:136-254 | the page starts not waiting, with no requests, an empty one-line command box, no polling, no timers, and the window's height as base, as `--app-height` and as the reference of the viewport-change check |
| MainApp.MorfisApp.Submit | static/js/main.js:306-313 | the first listener always schedules the emptying of the box; a submit while waiting, or of a blank command, changes nothing else; otherwise the trimmed command is shown as a user message followed by the bare loading element, and sent; polling starts and the page waits |
| MainApp.MorfisApp.SendCommand | static/js/main.js:915-931 | the command is shown as a user message followed by the bare loading element, and sent; the box is emptied, polling started and the waiting flag set |
| MainApp.MorfisApp.FireClearInput | static/js/main.js:307-312 | the box is emptied and reset to one line without overflow |
| MainApp.GenerateReply | static/js/main.js:950-986 | an ok answer gives its message as a generated system message; a refusal gives `Error: ` and its error; a thrown error gives the timeout text exactly when its message contains `timed out`, else the failure text; only the ok answer is a system message |
| MainApp.GenerateViewerCalls | static/js/main.js:955-963 | at most one viewer call: a model update exactly when an ok answer has a model, a reset exactly when it has none and asks for one |
| MainApp.MorfisApp.FinishSubmit | static/js/main.js:933-991 | polling stops and waiting ends whatever happened; the bare loading element goes; an answer is shown as a generated system message and updates or resets the viewer as it says; a refusal shows `Error: ` and its error; a thrown error shows the timeout or the failure text |
| MainApp.MorfisApp.FinishTyping | static/js/main.js:756-837 | once an answer is typed out, every element's buttons are rebuilt up to the first bare loading element; the loop throws exactly when there is one, which can only be while a command is pending; the counter and the votes are kept |
| MainApp.MorfisApp.SelectDesign | static/js/main.js:377-408 | ignored while waiting; otherwise the page waits, the counter restarts at 0, the panel holds only the loading element with content, the box is emptied, the viewer reset and the design requested |
| MainApp.MorfisApp.FinishDesignSelection | static/js/main.js:408-455 | waiting ends whatever happened; an answer, ok or refused, removes the loading element, and a thrown request leaves it; then the reply is appended as a generated system message or an error, and the viewer is updated when a model came |
| MainApp.MorfisApp.BeginRollback | static/js/main.js:486-503 | a click on a rollback button is ignored exactly while that button is loading; otherwise the button becomes loading, the click is pending with the message's index as its target, and the request to roll back to that index is sent; nothing else changes |
| MainApp.MorfisApp.FinishRollback | static/js/main.js:505-566 | the click leaves those pending; on success the viewer is updated or reset as the answer says, and the panel, as it is when the answer arrives, loses every message after the target; a refusal only releases the button; a timeout is reported; the clicked button leaves its loading state whatever the answer, unless a rebuild has replaced it; the counter and the waiting state are kept |
| MainApp.MorfisApp.BeginFeedback | static/js/main.js:569-597 | feedback is sent, with the message's index and the vote's name, exactly when the clicked button is neither active nor disabled, and the vote is then in flight |
| MainApp.MorfisApp.FinishFeedback | static/js/main.js:583-695 | the vote leaves those in flight and the panel is settled as `MainConversation.Voted` says: settled when the message's pair is still the one clicked, as the detached button leaves it otherwise |
| MainApp.MorfisApp.AdjustTextareaHeight | static/js/main.js:258-283 | the box's height and overflow class become `TextareaLayout` of its content |
| MainApp.MorfisApp.DetectKeyboard | static/js/main.js:154-172 | the keyboard counts as visible exactly when the window lost more than 150 px, and a restore of the height is scheduled exactly when it has just gone |
| MainApp.MorfisApp.SetViewportHeight | static/js/main.js:138-151 | ignored while the keyboard is visible unless forced; a forced update sets the base height, another the current one |
| MainApp.MorfisApp.OnResize | static/js/main.js:179-184 | after a resize the height follows the window unless the keyboard is up |
| MainApp.MorfisApp.FireViewportRestore | static/js/main.js:168 | the restore timer sets the base height again |
| MainApp.MorfisApp.OnOrientationChange | static/js/main.js:187-193 | the listener only sets a timeout |
| MainApp.MorfisApp.FireOrientationTimer | static/js/main.js:188-192 | the base height becomes the window's height, `--app-height` is forced to it and the keyboard counts as hidden |
| MainApp.MorfisApp.OnFocusIn | static/js/main.js:197-200 | the listener only sets a timeout |
| MainApp.MorfisApp.FireFocusInTimer | static/js/main.js:199 | the keyboard detection runs at the height the window has then: visible exactly when the window lost more than 150 px from the base, and a restore scheduled exactly when it has just gone |
| MainApp.MorfisApp.OnFocusOut | static/js/main.js:202-208 | the listener only sets a timeout |
| MainApp.MorfisApp.FireFocusOutTimer | static/js/main.js:204-207 | the keyboard counts as hidden and `--app-height` is forced to the base height, whatever the window's height |
| MainApp.MorfisApp.HandleViewportChange | static/js/main.js:213-228 | with the keyboard hidden and a change of more than 50 px from the reference height, `--app-height`, the reference and the base all become the current height; otherwise nothing changes |
| MainApp.MorfisApp.OnScroll | static/js/main.js:231-236 | unless the keyboard is visible the timeout is set, replacing a pending one; otherwise nothing changes |
| MainApp.MorfisApp.OnTouchEnd | static/js/main.js:239-243 | a timeout is set exactly when the keyboard is not visible |
| MainApp.MorfisApp.FireScrollTimer | static/js/main.js:234 | the scroll timeout runs `handleViewportChange` and is cleared |
| MainApp.MorfisApp.FireTouchTimer | static/js/main.js:241 | a touchend timeout runs `handleViewportChange` |
| MainApp.OwnBackendAcceptsOtherPort | static/js/main.js:101 | the wrapper's test takes another port of the same host for its own backend, which the corrected test does not |
| MainApp.OwnBackendCorrectedMeaning | static/js/main.js:100-101 | the corrected test agrees with the original on relative URLs and URLs under the origin's path, never accepts more than the original, and accepts an absolute URL only when the origin is followed by the end, a path, a query or a fragment |
| MainApp.TabIdStaysOnOrigin | static/js/main.js:100-106 | with the corrected test, a request to another port carries no tab id and one to the page's own API does |
| MainApp.TextareaBounded | static/js/main.js:264-282 | the box never grows past 150 px and overflows exactly when its content is taller |
| MainApp.DesignFallbackOneUnderscore | static/js/main.js:433 | a type with one underscore appears with a space in its place |
| MainApp.DesignFallbackSecondUnderscoreKept | static/js/main.js:433 | only the first underscore is replaced: `a_b_c` appears as `a b_c` |
| MeasureTool.SquaredDistance | static/js/measure_tool.js:534 | the squared distance of two points is never negative |
| MeasureTool.UnitOf | static/js/measure_tool.js:628-636 | a distance under 0.01 is captioned in millimetres, one from 0.01 up to 1 in centimetres, and one of 1 or more in metres; each unit is chosen exactly on its range |
| MeasureTool.ElementsOf | static/js/measure_tool.js:791-799 | the overlay elements of a list of fallback measurements are exactly the elements of its members, which is what the clear removes from the page |
| MeasureTool.MeasureTool.constructor | static/js/measure_tool.js:8-154 | a new tool is off with nothing measured; it is in fallback mode exactly when the scene, camera or renderer is missing, and only then has a fallback list |
| MeasureTool.MeasureTool.Toggle | static/js/measure_tool.js:223-242 | the tool flips on or off and drops any half-made measurement; switching on shows "Click 1st Point" with the `measuring` class, switching off shows "Measure" with neither `measuring` nor `active`; finished measurements are kept |
| MeasureTool.MeasureTool.Click | static/js/measure_tool.js:166-200 | a click while the tool is off, or without an element to measure against, changes nothing; in fallback mode the 3D measurements are left alone; otherwise the first click starts a measurement with a green marker at the picked point and the second files one whose points are the pending point and the picked one |
| MeasureTool.MeasureTool.AddMeasurementPoint | static/js/measure_tool.js:500-551 | the first point starts a pending measurement with a green marker and prompts for the second; the second adds a red marker, the line and the distance label to the group, files the measurement with its two points and four objects, and prompts for a first point again |
| MeasureTool.MeasureTool.FallbackClick | static/js/measure_tool.js:657-709 | the same two-click machine in screen space: the first click attaches a green marker; the second attaches a red marker and a label, files a three-element measurement and leaves nothing pending |
| MeasureTool.MeasureTool.ClearMeasurements | static/js/measure_tool.js:773-807 | every child of the measurement group is disposed in order and the group emptied, every element of the fallback measurements is detached, and no measurement, finished or pending, remains; the button text is not reset |
| MeasureTool.DrainGroup | static/js/measure_tool.js:777-787 | the group ends empty and every child it held is disposed, in the group's order |
| MeasureTool.DetachAll | static/js/measure_tool.js:791-798 | exactly the elements of the filed fallback measurements are detached; every other element stays attached |
| MeasureTool.DetachElements | static/js/measure_tool.js:793-797 | exactly the elements of one measurement are detached, whether or not they were still attached |
| MeasureTool.UnitFromSquare | static/js/measure_tool.js:534-536 | for a non-negative distance, the unit chosen from its square (which the model computes without a square root) is the unit chosen from the distance |
| MeasureTool.ShownRange | static/js/measure_tool.js:628-636 | the number in front of the unit is under 10 for millimetres, from 1 up to 100 for centimetres and at least 1 for metres |
| DownloadHandler.Cross | static/js/download_handler.js:185-190 | the cross product of two edges is orthogonal to both of them |
| DownloadHandler.GenerateStlContent | static/js/download_handler.js:144-178 | a model without vertices or without faces fails with the missing-data error; otherwise the text is produced exactly when every face index, taken three at a time, names a vertex (else the `undefined` vertex error), and then it is the STL text of the model |
| DownloadHandler.ExtractFilename | static/js/download_handler.js:214-218 | a falsy path gives no name; any other path gives a name without a `/` in it |
| DownloadHandler.DownloadHandler.constructor | static/js/download_handler.js:29-41 | a new handler has no model; with a button on the page the button starts disabled and hidden, without one nothing else is touched; no notice or download has happened |
| DownloadHandler.DownloadHandler.SetButtonState | static/js/download_handler.js:43-54 | with a button, it is enabled and shown exactly when `enabled`; without one nothing changes; the model is untouched |
| DownloadHandler.DownloadHandler.SetCurrentModel | static/js/download_handler.js:56-59 | the model is stored and the button is disabled and hidden exactly when there is no model |
| DownloadHandler.DownloadHandler.ClearCurrentModel | static/js/download_handler.js:61-64 | the model is dropped and the button disabled and hidden |
| DownloadHandler.DownloadHandler.HandleDownload | static/js/download_handler.js:66-142 | without a model only the no-model error is shown; with one exactly one notice is added and the button ends enabled with its plain label; a model path wins and downloads the server file under its last path segment when the fetch succeeds; otherwise vertices and faces download `model.stl` when well formed; a model with neither fails; the success notice appears exactly when a download happened, and a timed-out fetch shows the timeout notice |
| DownloadHandler.DownloadNotice | static/js/download_handler.js:89-98 | the success notice is shown exactly when nothing was thrown; otherwise the timeout notice for an error that mentions a timeout and the general failure notice for any other |
| DownloadHandler.TryDownload | static/js/download_handler.js:79-87 | a model path downloads the server file when the fetch succeeds; otherwise vertices and faces download `model.stl` when well formed; a model with neither downloads nothing and ends in the failure notice; a timed-out fetch ends in the timeout notice; a download happens exactly when nothing is thrown |
| DownloadHandler.DownloadFromPath | static/js/download_handler.js:107-128 | a successful fetch downloads the file at the origin plus the path, named after its last path segment; an HTTP error or a thrown error is rethrown through the path-error wording, and a timeout stays recognisable |
| DownloadHandler.DownloadAsStl | static/js/download_handler.js:130-142 | a well-formed model downloads its STL text as `model.stl`; otherwise nothing is downloaded and the undefined-vertex error is rethrown with the STL prefix |
| DownloadHandler.MentionsTimeout | static/js/download_handler.js:121-127 | an inner error that mentions a timeout is rethrown with a message that still mentions it, so the handler shows the timeout notice |
| DownloadHandler.NormalOrthogonal | static/js/download_handler.js:180-190 | the facet normal is orthogonal to both edges of the facet that start at its first vertex |
| DownloadHandler.InitWellFormed | static/js/download_handler.js:153 | dropping the last triple of well-formed faces leaves well-formed faces, which is what lets the facet loop run triple by triple |
| DownloadHandler.FacetsLength | static/js/download_handler.js:153-170 | the facets have seven lines per index triple |
| DownloadHandler.FacetBlock | static/js/download_handler.js:153-170 | block `k` of seven facet lines is the facet of the vertices named by indices `3k`, `3k+1` and `3k+2`, in order |
| DownloadHandler.FacetsStep | static/js/download_handler.js:153-170 | one more triple of valid indices keeps the faces read so far well formed and appends exactly its facet |
| DownloadHandler.BlockOfSnoc | static/js/download_handler.js:153-170 | a block of seven lines after one more block is appended comes from the front part or, past it, is the appended block |
| DownloadHandler.StlShape | static/js/download_handler.js:150-177 | the STL text opens with `solid model`, closes with `endsolid model`, has `2 + 7n` lines for `n` triples, and facet `k` lists the three vertices its index triple names |
| DownloadHandler.FilenameIsLastSegment | static/js/download_handler.js:214-218 | the name is the last segment of the path: it ends the path and is all of it or follows a `/`; a path ending in `/`, an empty path or no path saves as `model.step` |
| ThreeViewer.ToInt32 | static/js/three_viewer.js:302-304 | the operand of a shift is brought into the signed 32-bit range, and a value already in its non-negative half is left as it is |
| ThreeViewer.ChannelOf | static/js/three_viewer.js:302-304 | a shifted-and-masked channel is always between 0 and 255 |
| ThreeViewer.Emissive | static/js/three_viewer.js:307-312 | the packed emissive colour always fits in 24 bits |
| ThreeViewer.EmissiveHex | static/js/three_viewer.js:299-312 | the emissive colour of any material, whatever its colour text, fits in 24 bits |
| ThreeViewer.Without | static/js/three_viewer.js:291-293 | removing the model from the scene keeps every other mesh, removes the model's own and adds nothing |
| ThreeViewer.RecolorAll | static/js/three_viewer.js:403-408 | the forEach over an array of materials keeps its length and sets every material to the new colour |
| ThreeViewer.Viewer.constructor | static/js/three_viewer.js:1-2 | the page starts with no current model, an empty scene, no load running and the camera never reset |
| ThreeViewer.Viewer.UpdateModel | static/js/three_viewer.js:289-358 | the current mesh leaves the scene (it stays current meanwhile); an STL model is loaded in the background with the stored colour, while any other type becomes a current cube of the stored colour in the scene at once; the camera is not reset |
| ThreeViewer.Viewer.StoredColor | static/js/three_viewer.js:295-296 | the colour is the one stored under `morfis_model_color` when it is set and not empty, and the default purple otherwise |
| ThreeViewer.Viewer.FireStlLoaded | static/js/three_viewer.js:315-342 | when a pending STL load completes, its mesh, with the colour captured when the load began, becomes current and joins the scene, the load is no longer pending and the camera is reset |
| ThreeViewer.Viewer.ResetViewer | static/js/three_viewer.js:360-379 | the current model leaves the scene and is dropped, and the camera is reset |
| ThreeViewer.Viewer.UpdateModelColor | static/js/three_viewer.js:382-415 | without a current model nothing happens; otherwise the same mesh gets the new colour on its single material or on every one of its materials, and a mesh without material is left alone |
| ThreeViewer.DefaultColorValue | static/js/three_viewer.js:296-312 | the default purple `#9146FF` is the value 0x9146FF and its emissive colour is 0x301755 |
| ThreeViewer.PackIsSum | static/js/three_viewer.js:312 | or-ing three shifted channels (each below 256) is the same as adding them up, and the result fits in 24 bits |
| ThreeViewer.ChannelsOfColorValue | static/js/three_viewer.js:302-304 | for a 24-bit value the three channels are its three bytes, and they put the value back together |
| ThreeViewer.ChannelsOfHexColor | static/js/three_viewer.js:299-304 | a `#RRGGBB` colour is split into its red, green and blue byte |
| ThreeViewer.EmissiveChannels | static/js/three_viewer.js:307-312 | each channel of the emissive colour is the colour's own channel divided by three and rounded down, so never brighter than it |
| MobileInput.FieldTitle | static/js/mobile_input.js:395-407 | each of the six known field ids gets its own title, and every other id the default "Enter Text" |
| MobileInput.ModalTitle | static/js/mobile_input.js:237-251 | the three ids the modal knows get their fixed titles; any other field takes its `aria-label` when that is set and not empty, else the label of its form group when there is one, else "Enter Text" |
| MobileInput.CounterColor | static/js/mobile_input.js:325-332 | the counter is red exactly above 90% of the limit, yellow exactly above 80% but not above 90%, and grey at 80% or less |
| MobileInput.AddInputListener | static/js/mobile_input.js:140-154 | the field ends marked and gains a focus listener exactly when it was not marked before; its text is untouched |
| MobileInput.AddInputListeners | static/js/mobile_input.js:129-135 | after the forEach every field is marked and has gained exactly one listener if it was unmarked, and none otherwise, however often it occurs in the list |
| MobileInput.Modal.constructor | static/js/mobile_input.js:8-12 | a new modal is hidden, has no field taken over and no remembered text, shows the default title, a plain text input and a hidden counter, and has nothing scheduled |
| MobileInput.Modal.UpdateCharacterCounter | static/js/mobile_input.js:316-334 | with the counter shown and a limit set, the counter reads `current/max` in the colour for how full the field is, `current` being the text's length in UTF-16 code units; otherwise the counter is unchanged; nothing else changes |
| MobileInput.Modal.ConfigureModal | static/js/mobile_input.js:231-290 | the title is the modal title of the field; it throws exactly when a one-line field is configured while the modal field is still a textarea (assigning `type` to a textarea throws in class code), and then nothing but the title has changed; otherwise a page textarea gets a textarea with the field's placeholder (or "Enter text"), its text and its limit (or none), any other field a password or text input with the same and the previous limit when it has none, and the counter is shown exactly for a textarea with a limit, reading the remembered text's length in UTF-16 code units |
| MobileInput.Modal.ShowModal | static/js/mobile_input.js:201-226 | while the modal is visible nothing changes; otherwise the field and its text are remembered, the modal becomes visible and takes the field's title; when the configuration throws the modal is not shown and scrolling is untouched; otherwise the modal shows that text in a field of the page field's kind and the page stops scrolling |
| MobileInput.Modal.ShowModalCorrected | static/js/mobile_input.js:201-290 | as evidently intended: an earlier textarea is swapped back for an input before a one-line field is configured, so a hidden modal always becomes visible and shown with the field's text in a field of its kind, and the page stops scrolling |
| MobileInput.QuickReopenSticks | static/js/mobile_input.js:201-290 | a page textarea opened and cancelled, then a one-line field opened before the clean-up: the configuration throws, the modal is visible but not shown, a further `showModal` is ignored, and the clean-up is still pending |
| MobileInput.QuickReopenCorrected | static/js/mobile_input.js:201-290 | the same steps with the corrected `showModal` leave the modal shown with the one-line field's text in a one-line field |
| MobileInput.Modal.TypeText | static/js/mobile_input.js:308-310 | typing replaces the modal's text, and a shown counter with a limit then counts the new text's UTF-16 code units |
| MobileInput.Modal.HideModal | static/js/mobile_input.js:339-390 | while hidden nothing changes; otherwise the modal is hidden and one more clean-up is scheduled; saving writes the modal's text into the field, dispatches `input` then `change` on it, and schedules a form submit for a field in a form that is the command input or was edited in a one-line field; cancelling leaves the field's text as it was |
| MobileInput.Modal.KeyDown | static/js/mobile_input.js:297-305 | Enter without Shift in a one-line field hides a visible modal with saving, Escape hides it without saving, and any other key leaves it as it is |
| MobileInput.Modal.FireCleanup | static/js/mobile_input.js:371-389 | one pending clean-up is used up; the page may scroll again, the remembered field and text are dropped, and a textarea field is replaced by a fresh one-line input; visibility is untouched |
| MobileInput.LowerIdle | static/js/mobile_input.js:189-190 | text without upper-case letters is its own lower case |
| MobileInput.LowerTwice | static/js/mobile_input.js:189-190 | lower-casing twice is lower-casing once |
| MobileInput.TextInputIgnoresCase | static/js/mobile_input.js:188-196 | whether an element is a text input does not depend on the case of its tag name or type |
| MobileInput.SelectedAreTextInputs | static/js/mobile_input.js:130-196 | every field the selector of the initial scan finds is one the observer accepts as a text input; both ignore the case of the type, so `<INPUT type="Email">` is found; the observer also accepts `search` inputs and `input`s with no `type` attribute or an unknown one, whose `type` property is `text`, and the selector misses these |
| MobileInput.InputTypeProperty | static/js/mobile_input.js:189 | the `type` property of an `input` is always a defined type: the attribute in lower case when it names one, and `text` when it is missing or names none |
| MobileInput.TitleTablesAgree | static/js/mobile_input.js:239-244 | the two title tables agree on the three ids the modal knows; `email` has a title of its own only in the unused table |
| MobileInput.RedMeansNearlyFull | static/js/mobile_input.js:326-332 | for a positive limit, red means more than nine tenths of the limit used and grey at most eight tenths, in exact integer terms |
| YacvViewer.StatusColor | static/js/yacv_build123d_viewer.js:235-242 | each of the four status types has its own colour, and any type outside the table is shown in the `normal` colour |
| YacvViewer.ExecError | static/js/yacv_build123d_viewer.js:92-127 | running the code fails exactly unless a response with an ok status reports `success`; a thrown request passes its message on, a bad status gives `HTTP error! status: <n>`, a body that is not JSON gives the parser's message, and a reported failure gives its `error` or the default failure text |
| YacvViewer.IframeSource | static/js/yacv_build123d_viewer.js:161-165 | the fresh iframe's address starts with the viewer's `index.html?t=` under the server path and ends with `&nocache=1` |
| YacvViewer.Viewer.constructor | static/js/yacv_build123d_viewer.js:3-11 | a new viewer has no container, element, status bar, code or polling and is not initialised |
| YacvViewer.Viewer.UpdateStatus | static/js/yacv_build123d_viewer.js:229-243 | with a status bar the message is shown in the colour of its type; without one nothing changes; nothing else changes either way |
| YacvViewer.Viewer.Init | static/js/yacv_build123d_viewer.js:13-86 | with a container the viewer element is built (a blank iframe and a status bar reading Ready in the normal colour) and the viewer is initialised; without one it fails with the error of writing `innerHTML` on null, stays uninitialised and the error is passed on |
| YacvViewer.Viewer.ConnectToServer | static/js/yacv_build123d_viewer.js:131-216 | the server path is remembered; with a viewer element the iframe loads the fresh cache-busting address, the status says it is loading and a fallback check is scheduled; without one it fails with the error of setting `onload` on null and nothing else changes |
| YacvViewer.Viewer.ExecuteBuild123dCode | static/js/yacv_build123d_viewer.js:88-129 | the code is remembered; it succeeds exactly when the server reports success and the iframe can be replaced, and then the iframe shows the viewer under `yacv_url` (or `/yacv/`) and the status reports the number of objects shown; any failure leaves the server path and the iframe as they were when the server failed, shows `Error: <message>` in the error colour and passes the message on |
| YacvViewer.Viewer.ShowResult | static/js/yacv_build123d_viewer.js:111-128 | the server path becomes `yacv_url` (or `/yacv/`) in every case; with a viewer element the iframe loads the viewer there and the status reports the number of objects shown, and without one the connection error is shown in the error colour and passed on with the iframe unchanged |
| YacvViewer.Viewer.FireIframeLoad | static/js/yacv_build123d_viewer.js:172-175 | the iframe's load event shows the loaded text as a success |
| YacvViewer.Viewer.FireIframeError | static/js/yacv_build123d_viewer.js:177-186 | the iframe's error handler shows the new-window suggestion as an error and shows the test button when the page has one; browsers do not fire that event for a frame whose document fails, so the five-second check is the working path |
| YacvViewer.Viewer.FireFallbackTimer | static/js/yacv_build123d_viewer.js:192-215 | five seconds after a connection, the timer changes nothing for a filled iframe; an empty one shows the slow-loading text and a cross-origin one the new-window text, both as processing, and either shows the test button when there is one |
| YacvViewer.Viewer.StartServerPolling | static/js/yacv_build123d_viewer.js:218-227 | a running polling interval is cleared, and no new one is started |
| YacvViewer.Viewer.ClearModel | static/js/yacv_build123d_viewer.js:245-258 | with a viewer element the iframe shows a blank page, polling stops and the status reads Ready; without one it fails with the error of setting `src` on null before changing anything |
| YacvViewer.Viewer.Destroy | static/js/yacv_build123d_viewer.js:260-275 | polling stops, a container is emptied and the viewer is no longer initialised |
| YacvViewer.Viewer.LoadExample | static/js/yacv_build123d_viewer.js:278-353 | the name defaults to `box_with_hole`; one of the three built-in examples runs its code, any other name fails with `Example '<name>' not found` and runs nothing; the load succeeds only for a built-in example the server ran |
| YacvViewer.InitGlobal | static/js/yacv_build123d_viewer.js:356-367 | a previous global viewer is destroyed (no longer initialised, polling stopped) and a new one is made and initialised, succeeding exactly when there is a container |
| YacvViewer.StatusColorTable | static/js/yacv_build123d_viewer.js:235-242 | a status is shown in the normal colour exactly when its type is not `processing`, `success` or `error` |
| YacvViewer.ServerPathChoice | static/js/yacv_build123d_viewer.js:113-116 | the fresh iframe loads under the path the server names when it names one, and under `/yacv/` otherwise |
| TrajectoryView.ToggleContent | static/js/trajectory.js:100-106 | `content-collapsed` is present afterwards exactly when it was absent before, and every other class is kept |
| TrajectoryView.IconFor | static/js/trajectory.js:196-201 | the icon is the down chevron exactly for collapsed content and the up chevron exactly for expanded content |
| TrajectoryView.ErrorText | static/js/trajectory.js:172-174 | the timeout text is shown exactly when the error's message mentions `timed out`, and the generic text otherwise |
| TrajectoryView.MessageBox.HandleClick | static/js/trajectory.js:187-204 | a box with content has it toggled and, when it has an indicator, the icon set to match; a box without content is left alone |
| TrajectoryView.MessageBox.Click | static/js/trajectory.js:152-155 | a box whose own handler is registered gets both that handler and the document's handler, so its content ends as it was; a box without its own handler is toggled once by the document's handler; the icon matches the content either way |
| TrajectoryView.MessageBox.ClickCorrected | static/js/trajectory.js:207-229 | one click toggles the content once and leaves the icon matching it |
| TrajectoryView.EnhanceMessageBoxes | static/js/trajectory.js:136-165 | every box ends with its click handler registered exactly once; a box without an indicator gets one pointing down, a box with one keeps it; no content changes |
| TrajectoryView.TrajectoryPage.constructor | static/js/trajectory.js:95-115 | the page starts with nothing in the trajectory content, the shared polling interval as the chat page left it, and no listener or timer of the modal's own |
| TrajectoryView.TrajectoryPage.ShowTrajectoryModal | static/js/trajectory.js:28-92 | on a page holding the modal and its content area, backdrops and `modal-open` are removed with no other body class touched, a hidden-event listener is added, the spinner is shown and one load is scheduled; the polling interval is untouched |
| TrajectoryView.TrajectoryPage.ModalHidden | static/js/trajectory.js:48-64 | closing the modal clears a running polling interval and drops it, and removes the backdrops and `modal-open`; the content is untouched |
| TrajectoryView.TrajectoryPage.LoadTrajectoryContent | static/js/trajectory.js:118-184 | without a content area nothing changes; a successful fetch shows its HTML and schedules the enhancement; a failed status shows the generic error; a thrown error shows the timeout or generic text by its message; polling is untouched |
| TrajectoryView.TrajectoryPage.FireLoad | static/js/trajectory.js:89-91 | the load timer runs one scheduled load, which shows the fetched HTML when it succeeds |
| TrajectoryView.TrajectoryPage.FireEnhance | static/js/trajectory.js:136-165 | the enhance timer runs once and leaves every box of the new HTML with an indicator and one click handler, with its content untouched |
| TrajectoryView.FetchFailedNotTimeout | static/js/trajectory.js:126-128 | the error thrown for a failed status does not mention a timeout, so it is shown with the generic text |
| TrajectoryView.ToggleContentTwice | static/js/trajectory.js:100-106 | toggling twice restores the classes |
| TrajectoryView.NewIndicatorMatches | static/js/trajectory.js:143-148 | for collapsed content, the down chevron of a new indicator is the icon that matches it |
| ColorSelector.SavedColor | static/js/color_selector.js:15-17 | the colour to restore is `selectedColor` when it is set and not empty, and `morfis_model_color` otherwise |
| ColorSelector.ColorOption.constructor | static/js/color_selector.js:4 | an option carries its `data-color` and its classes |
| ColorSelector.Selector.constructor | static/js/color_selector.js:2-13 | the selector works over the page's options and storage and has not yet applied a colour to the model |
| ColorSelector.Selector.SetActiveColor | static/js/color_selector.js:56-63 | exactly the chosen option has the `active` class afterwards, and no other class of any option changes |
| ColorSelector.Selector.RestoreSavedColor | static/js/color_selector.js:15-28 | when a colour is saved and some option shows it, the last option showing it ends as the only active one; otherwise no option changes; the model colour is not applied |
| ColorSelector.Selector.Click | static/js/color_selector.js:30-54 | the clicked option becomes the only active one, its colour is stored under both keys, and it is applied to the model exactly when the viewer provides `updateModelColor` |
| ColorSelector.ClickedColorIsRestored | static/js/color_selector.js:17-43 | after a click on a colour the next page load restores that colour, and the key the viewer reads holds it too |
| ColorSelector.NewerKeyWins | static/js/color_selector.js:16-17 | a non-empty `selectedColor` wins, and the older key is used only when the newer one is missing or empty |
| SaveDesign.StatusClasses | static/js/save_design.js:103-105 | a status line has the classes `mt-3` and its type and nothing else, and is never hidden |
| SaveDesign.SaveStatus | static/js/save_design.js:64-80 | the status is a success exactly when the response is ok and its body reports `success`, and then shows the body's message; any other JSON answer shows its non-empty message or the default failure text; a request that throws, or a body that is not JSON, shows the generic error |
| SaveDesign.SaveDialog.constructor | static/js/save_design.js:4-9 | the dialog starts with an empty name, a hidden empty status line, the button enabled and nothing sent |
| SaveDesign.SaveDialog.ShowSaveStatus | static/js/save_design.js:100-106 | with a status line, it shows the message with the classes of its type; without one nothing changes; the form and button are untouched |
| SaveDesign.SaveDialog.Open | static/js/save_design.js:19-35 | the name is emptied and a status line is hidden and emptied; the button and the requests are untouched |
| SaveDesign.SaveDialog.Confirm | static/js/save_design.js:39-97 | a name that trims to nothing shows the empty-name error, focuses the field and sends nothing; any other name is sent trimmed, the answer's status is shown, a success schedules the closing of the dialog, and the button ends enabled with its original text |
| SaveDesign.SaveDialog.Send | static/js/save_design.js:47-85 | the trimmed name is sent once, the answer's status is shown, one close is scheduled exactly on success, and the button ends enabled with its original text whatever the outcome |
| SaveDesign.BlankNames | static/js/save_design.js:41 | a name is refused exactly when it is all whitespace, and a name that is sent neither starts nor ends with whitespace |
| SaveDesign.SuccessNeedsBoth | static/js/save_design.js:66 | a save needs both an ok response and a `success` status: a body reporting success counts only with an ok response, and any other status is an error even with an ok response |

## Left out

- Rendering and library objects:
  - Three.js and Online3DViewer scene building, rendering loops, lighting, the camera, raycasting and the axis helper are not modelled.
  - A measurement click arrives with the world point that raycasting produced.
  - Loading a model into the viewer library is recorded as a call.
- DOM presentation:
  - HTML markup of spinners and error boxes is not modelled.
  - Chat bubbles, Bootstrap modals, focus, `setSelectionRange`, Prism highlighting and the dots of the loading elements are not modelled.
  - The loading elements themselves are modelled (`MainConversation.Conversation.ShowLoading`). The one `showLoadingMessage` builds has no `.message-content`. While a command is pending it is the last element with the `system-message` class, so an answer typed out in that time gets a rollback button, and the rebuilding loop throws at that element (`MainConversation.SpinnerCountsAsLast`). The one built for a design selection has content; a thrown design request leaves it in the panel.
- Floating point:
  - `toFixed` text in the STL output, the distance labels and the logs is not modelled.
  - Normalisation of each facet normal is not modelled, so the normal is the raw cross product.
  - Square roots of distances are not modelled: the unit is chosen from the squared distance, which `MeasureTool.UnitFromSquare` shows agrees.
  - The pixel arithmetic of the fallback overlay and the NDC mapping are not modelled.
  - The counter's `max * 0.9` and `max * 0.8` are compared in exact rational arithmetic.
- `parseInt` precision: values are exact integers, with no rounding past 2^53.
- Case mapping and trimming: case mapping covers ASCII letters only; trimming uses JavaScript's whitespace set.
- Object lookups: JavaScript object-literal lookups (status colours, titles, examples) are modelled as lookups of own keys, so prototype keys such as `toString` are not modelled.
- Network and processes:
  - `fetchWithTimeout`, `make_backend_request`, and every `fetch` or `requests` call are outcome parameters.
  - The YACV subprocess itself, its script text, the temporary files and the copying of the YACV frontend files are not modelled. The process table records which session owns which process.
- The database, Flask templating and logging: session tracking in the database, `render_template` and all logging are not modelled.
- The simple viewer in the integrated viewer: its branches of `updateModel` and `updateModelColor` are not modelled. The viewer is in simple mode only until `init` starts (`integrated_viewer.js:4`, `31`), and then only these branches are skipped.
- IntegratedViewer.IntegratedViewer.Destroy: the first `destroy` definition is not modelled, because the later definition (`integrated_viewer.js:1215`) replaces it on the class.
- Cross-tab duplicate detection (`BroadcastChannel` and `localStorage` events) is not modelled: it is concurrency between tabs.
- The `scroll` listener's `clearTimeout` and new timeout are modelled as one pending timeout (`MainApp.MorfisApp.OnScroll`), since only the newest one can fire.
- MainApp.DesignReply: states only the kind of the reply; its texts are stated by `MainApp.DesignReplyText`.
- `maxLength` enforcement of the browser while typing into the mobile modal is not modelled. The counter is modelled.
- The unused `colorNames` table of the colour picker is not modelled.
- The Python source text of the three built-in examples of `loadExample` is not part of this model. A table of three non-empty programs stands for it.
- TrajectoryView.TrajectoryPage.ShowTrajectoryModal: the page is taken to hold `#trajectoryModal` and `#trajectoryContent`. Without the content area the source throws at `trajectoryContent.style` (`trajectory.js:70-73`), after adding the listener and showing the modal, and that case is not modelled.
- TrajectoryView.TrajectoryPage.LoadTrajectoryContent: a single step. The content area is taken to be the same element before and after the fetch is awaited, so closing the modal or a second load while the fetch is pending is not modelled.
- DownloadHandler.DownloadHandler.HandleDownload: requires the button to exist, because the click handler is only registered on it (`download_handler.js:35-37`). A direct call on a page without the button is not modelled.
- DownloadHandler.DownloadHandler.HandleDownload: a single step. The button is disabled while the download is pending, so no second click comes in; a new model stored by `updateModelData` while the fetch is pending is not modelled.
- SaveDesign.SaveDialog.Confirm: a single step. The confirm button is disabled while the request is pending, and Enter only clicks that button, so no second save starts; closing the dialog or editing the name while the request is pending is not modelled.
- YacvViewer.Viewer.ExecuteBuild123dCode: a single step, and so is `YacvViewer.Viewer.LoadExample`. A second execution that starts while the first is pending, in which case the later answer to arrive sets the iframe and the status, is not modelled.
- AppYacv.YacvPort: states the range of the port and the agreement of its three uses, not the value `hash()` produces, which is a parameter.
- AppModelData.ContentType: the suffix test is ASCII case-insensitive, as `Text.Lower` is.
- ThreeViewer.Viewer.UpdateModel: the STL geometry's centring and scaling are left out; only which mesh becomes current, with which colour, is modelled.

## Findings

| source | as written | input that shows it | evidently intended | confidence | as-written member | corrected member |
|---|---|---|---|---|---|---|
| static/js/main.js:101 | `X-Tab-ID` is added when the URL does not start with `http` or when it starts with the page origin as text, so an absolute URL on another port of the same host also counts as the page's own backend | url `http://localhost:50001/api/config` with origin `http://localhost:5000` | only relative URLs and URLs on the page's own origin (its scheme, host and port, followed by `/`) carry the tab id, as the comment at line 100 says | medium, not executed | MainApp.OwnBackendAcceptsOtherPort | MainApp.IsOwnBackendCorrected |
| static/js/trajectory.js:152-155 | every enhanced message box gets its own click handler, while the document's click handler (lines 207-229) also toggles the box the click came from. One click runs both, and the two toggles cancel out | any click on a message box after the trajectory content has loaded and been enhanced | one click collapses or expands the message once | medium, not executed | TrajectoryView.MessageBox.Click | TrajectoryView.MessageBox.ClickCorrected |
| static/js/mobile_input.js:273 | `configureModal` sets `type` on the modal's field to configure a one-line field. When the field is still the textarea of an earlier page textarea, the assignment throws, because a textarea's `type` has only a getter and class code is strict. This happens when the 300 ms clean-up of the previous hide (line 371) has not yet swapped it back. `showModal` has already set `isVisible`, so the modal is never shown and every later `showModal` returns at its guard (line 202) | open the modal for a page textarea, cancel it, and focus a text input before the clean-up runs | the modal opens for the one-line field, with a fresh input in place of the textarea | medium, not executed | MobileInput.QuickReopenSticks | MobileInput.Modal.ShowModalCorrected |
| static/js/main.js:600-694 | `handleFeedback` keeps the clicked button and the message element it found before the request (line 583). When another answer is typed out while the request is pending, `addMessage` replaces every message's buttons (line 782). On success `active` then goes onto the removed button (line 602), the other thumb of the new pair loses `active` (line 607), and `closest` on the removed button gives null, so the `finally` clause throws (line 694). The vote never shows as active | click a thumb on an earlier answer while the next answer is being typed out, with the feedback answer arriving after the typing ends | the buttons the page shows take the vote: the clicked thumb active, the other not, both enabled | medium, not executed | MainConversation.RebuiltVoteLost | MainConversation.Conversation.FinishFeedbackCorrected |
| static/js/integrated_viewer.js:243-268 | `loadOnline3DViewer` uses one script element. Its `src` is set to the local copy before the element is inserted (line 268), which starts its only fetch. When that fails, `onerror` sets `src` to the first CDN (line 244), but a script element that has already started does not fetch again, so no further event fires. The promise stays pending for good, and the rejection at line 240 cannot happen | the local copy `/static/js/libs/o3dv.min.js` fails to load | each source is fetched in turn by a fresh script element, and the promise is rejected once all three failed | medium, not executed | IntegratedViewer.LocalCopyFailureSticks | IntegratedViewer.FreshScriptLoader.TryNextUrl |
