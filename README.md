# Potato Guru client: a Dafny model

This project models the logic inside the "Potato Guru" web client. The client is a chatbot front end for cold-storage owners and people planning to build storage. The model covers:

- the task poller and response classifier of the chat API;
- the two intake wizards;
- the chat screens, with their message lists, MCQ (multiple-choice question) flags, quota flags, sources, bold spans and line rendering;
- the two one-time-code entry screens;
- the login form, the auth context, the token store and the HTTP interceptors;
- the endpoint builders;
- the dashboard and password-recovery state machines.

The network, timers and storage backends are replaced by inputs:

- every server call is an outcome value given to the handler that awaits it;
- `pollTaskResult` runs over a given sequence of poll outcomes and counts its delays instead of sleeping;
- every timer-driven change is one atomic step;
- ids and clocks come in as `stamp` and `now` parameters.

Each React component whose handlers update state is a `class`:

- its fields are the component's state;
- its methods are the handlers, and each method states the whole new state.

Pure helpers are functions, and the properties that relate several calls are lemmas.

Modules follow the source files:

- `ChatApi`: `api/chat.api.ts`
- `Endpoints`: `api/constants.ts`
- `ApiConfig`: `api/config.ts`
- `TokenStore`: `utils/localStorage.ts`
- `AuthContext`: `context/AuthContext.tsx`
- `LoginForm`: `components/auth/LoginForm.tsx`
- `IntakeForm`: `components/intake/IntakeForm.tsx`
- `ConversationalForm`: `components/ConversationalForm.tsx`
- `ChatArea`: `components/chat/ChatArea.tsx`
- `ChatInput`: `components/chat/ChatInput.tsx`
- `MessageBubble`: `components/chat/MessageBubble.tsx`
- `IntakeDetailsModal`: `components/chat/IntakeDetailsModal.tsx`
- `Sidebar`: `components/layout/Sidebar.tsx`
- `ChatInterface`: `components/ChatInterface.tsx`
- `VerifyOtpForm`: `components/auth/VerifyOTPForm.tsx`
- `OtpVerification`: `components/auth/OTPVerification.tsx`
- `Dashboard`: `pages/Dashboard.tsx`
- `ForgotPassword`: `pages/ForgotPassword.tsx`

Three modules are shared:

- `Common`: Option, JavaScript whitespace and `trim`, digits and decimal text.
- `Js`: a JavaScript value with its truthiness and `String()`.
- `FormValues`: the wizard answer type and the multi-select toggle.

## Model

| member | source | states |
|---|---|---|
| Common.TrimFaithful | components/chat/ChatInput.tsx:28-29 | trim keeps the infix left after dropping the leading and the trailing white space: everything before and after it is white space, and it neither starts nor ends with white space |
| Common.TrimEmptyIff | components/ChatInterface.tsx:46 | a string trims to the empty string exactly when every character is white space |
| ChatApi.TerminalResult | api/chat.api.ts:146-166 | a SUCCESS record gives success with the record's session id, type, message, MCQ, MCQ id and quota, and suggestions defaulting to []; a FAILURE gives failure with the server error or the fallback text |
| ChatApi.FirstTerminalFrom | api/chat.api.ts:133-176 | the index found is the first terminal outcome at or after the start, within the attempt bound, or the bound when there is none |
| ChatApi.PollTaskResult | api/chat.api.ts:130-183 | the loop's result, request count and delay count equal those of the specification; at most 100 requests are made |
| ChatApi.PollSucceedsIff | api/chat.api.ts:146-158 | the poll succeeds iff the first terminal outcome among the first 100 is a SUCCESS |
| ChatApi.PollFailureCarriesError | api/chat.api.ts:160-166 | when the first terminal outcome is a FAILURE, the result is a failure carrying the server's error or 'Something went wrong. Please try again later.' |
| ChatApi.PollTimesOut | api/chat.api.ts:178-182 | with no terminal status in 100 attempts the result is the time-out failure, after 100 requests |
| ChatApi.PollIgnoresLaterOutcomes | api/chat.api.ts:146-166 | outcomes after the first terminal one never change the result or the counts |
| ChatApi.PollTreatsNonTerminalAlike | api/chat.api.ts:168-175 | a pending status and a network error in the same position give the same result and counts |
| ChatApi.PollWaitBounded | api/chat.api.ts:168-175 | the delays equal the non-terminal outcomes before the result, and requests are delays plus at most one |
| ChatApi.PollPendingPendingSuccess | api/chat.api.ts:133-158 | PENDING, PENDING, SUCCESS gives success after three requests and two delays |
| ChatApi.StatusOutcomesAsWritten | api/chat.api.ts:137 | as written (see Findings), every one of the 100 attempts yields a thrown error, because the status route builder is missing from the endpoint table |
| ChatApi.MissingStatusRouteTimesOut | api/chat.api.ts:133-182 | as written, polling never succeeds: it ends in the time-out failure after 100 attempts and 150 s of sleeping |
| ChatApi.AskPayloadFor | api/chat.api.ts:192-193 | the payload carries the question, and carries `session_id` exactly when a session id is given |
| ChatApi.ClassifyAsk | api/chat.api.ts:198-231 | a synchronous answer is the session-limit result with the server message; missing data gives 'Invalid response from server.'; a thrown 'maximum' error is the limit result; other throws give 'Unable to send message. Please try again.' |
| ChatApi.ClassifyAnswerMcq | api/chat.api.ts:234-258 | like ClassifyAsk but with no limit check; every throw gives 'Unable to submit your response. Please try again.' |
| ChatApi.AskQuestion | api/chat.api.ts:191-232 | the result equals the classification of the submission, and polling happens only for an accepted task |
| ChatApi.AnswerMcq | api/chat.api.ts:234-258 | the same for the MCQ answer submission |
| ChatApi.AskQuotaRefusalDoesNotPoll | api/chat.api.ts:198-204 | a refusal for quota ends with no poll request |
| Endpoints.History | api/constants.ts:21 | the route starts with '/history/', ends with '/' and is 10 characters longer than the id; with the round trip below, it is '/history/' + id + '/' |
| Endpoints.UpdateTitle | api/constants.ts:22 | the route starts with '/sessions/', ends with '/title/' and is 17 characters longer than the id |
| Endpoints.SessionIntake | api/constants.ts:23 | the route starts with '/sessions/', ends with '/intake/' and is 18 characters longer than the id |
| Endpoints.SessionRoutesRoundTrip | api/constants.ts:21-23 | cutting the fixed prefix and suffix off each built route gives back exactly the id |
| Endpoints.SessionRoutesInjective | api/constants.ts:21-23 | different ids give different routes, for each builder |
| Endpoints.Between | api/constants.ts:21-23 | a route has the prefix + id + suffix shape iff it starts and ends with them, and then the id found is the part in between |
| Endpoints.FixedRoutesDistinct | api/constants.ts:2-20 | the static endpoint strings are pairwise distinct |
| Endpoints.FixedRoutesSlashed | api/constants.ts:2-20 | every static endpoint string starts and ends with '/' |
| ApiConfig.WithAuthorization | api/config.ts:13-19 | `Authorization` is set to 'Bearer ' + token iff a non-empty token is stored; otherwise the headers are unchanged; other headers are kept |
| ApiConfig.OnResponseError | api/config.ts:24-36 | a 401 or 403 clears the stored session and redirects to the login route; any other error leaves the store unchanged |
| ApiConfig.AuthorizationUsesStoredToken | api/config.ts:15-18 | the attached credential is the stored access token |
| ApiConfig.NoCredentialAfterSignOut | api/config.ts:28-32 | after the store is cleared, requests carry no credential |
| TokenStore.ReadUser | utils/localStorage.ts:17-20 | there is no user iff the key is absent or empty; otherwise the decoded user, or Corrupt when decoding fails |
| TokenStore.Cleared | utils/localStorage.ts:22-26 | the three keys are removed and every other key is kept |
| TokenStore.UserRoundTrip | utils/localStorage.ts:13-20 | writing a user and then reading it gives that user |
| TokenStore.ClearedHasNoUser | utils/localStorage.ts:17-26 | after clearing, no user is read |
| TokenStore.ClearedIdempotent | utils/localStorage.ts:22-26 | clearing twice is clearing once |
| TokenStore.Store.SetTokens | utils/localStorage.ts:5-8 | only the two token keys are written |
| TokenStore.Store.SetUser | utils/localStorage.ts:13-15 | only the user key is written, with the encoded user |
| TokenStore.Store.ClearTokens | utils/localStorage.ts:10-26 | exactly the three keys are removed, and afterwards all three getters return nothing |
| AuthContext.LoginError | context/AuthContext.tsx:68-71 | the error is the message, else the error field, else 'Invalid credentials' |
| AuthContext.SignupError | context/AuthContext.tsx:47-50 | the error is the message, else errors, else `{general: error or 'Signup failed'}` |
| AuthContext.RestoredUser | context/AuthContext.tsx:21-31 | a user is restored only when both a token and a readable user are stored |
| AuthContext.LoginSurvivesReload | context/AuthContext.tsx:56-65 | after a successful login, a reload restores the same user |
| AuthContext.NothingRestoredAfterSignOut | context/AuthContext.tsx:75-78 | after logout, a reload restores nobody |
| AuthContext.Auth.Mount | context/AuthContext.tsx:21-31 | the user is restored as RestoredUser says, loading ends, and a corrupt stored user throws |
| AuthContext.Auth.IsAuthenticated | context/AuthContext.tsx:97 | authenticated exactly when a user is set |
| AuthContext.Auth.Signup | context/AuthContext.tsx:33-52 | a success stores both tokens and the user and sets the user; a failure keeps the user and reports SignupError, and a 401 or 403 failure also goes through the response interceptor, which clears the stored tokens and user and redirects to the login route |
| AuthContext.Auth.Login | context/AuthContext.tsx:54-73 | a success stores both tokens and the user and sets the user; a failure keeps the user and reports LoginError |
| AuthContext.Auth.Logout | context/AuthContext.tsx:75-78 | the tokens and the user are cleared, and the user is no longer authenticated (`user != null` at line 97) |
| AuthContext.Auth.UpdateProfile | context/AuthContext.tsx:80-91 | a success saves and sets the returned user; a failure rethrows and leaves the user unchanged, and the store is cleared only when the interceptor saw a 401 or 403 |
| LoginForm.ErrorMessage | components/auth/LoginForm.tsx:37-56 | a string is shown as it is; for an object, the first key's value decides (a non-empty array gives its first element, a string is shown, otherwise the fallback); null throws; every other value gives 'Invalid email or password' |
| LoginForm.LoginErrorsAreShown | components/auth/LoginForm.tsx:37-50 | errors coming from the auth context never make the form throw |
| LoginForm.FieldErrorsShowFirstMessage | components/auth/LoginForm.tsx:39-45 | a per-field error object shows its first field's first message |
| LoginForm.Login.HandleChange | components/auth/LoginForm.tsx:18-22 | only the named field is written, and the error is cleared |
| LoginForm.Login.TogglePassword | components/auth/LoginForm.tsx:106 | the password visibility flips; the form data, error, loading and navigation are kept |
| LoginForm.Login.HandleSubmit | components/auth/LoginForm.tsx:24-57 | a success navigates to '/dashboard'; a failure shows ErrorMessage; loading ends, except when the extraction throws |
| FormValues.Without | components/intake/IntakeForm.tsx:99-100 | the option is removed, and every other member is kept |
| FormValues.Toggle | components/intake/IntakeForm.tsx:97-103 | the option's membership is flipped, all other memberships are kept, and a new option is appended |
| FormValues.ToggleTwiceRestores | components/intake/IntakeForm.tsx:97-103 | toggling a new option twice gives back the same list |
| FormValues.ToggleTwiceMembership | components/intake/IntakeForm.tsx:97-103 | toggling twice restores every membership |
| FormValues.VarietyOptions | components/intake/IntakeForm.tsx:64-71 | the category's table entry, or [] when there is none |
| IntakeForm.Fields | components/intake/IntakeForm.tsx:44-48 | the owner flow, the builder flow, or [] with no user type |
| IntakeForm.UserChoiceFor | components/intake/IntakeForm.tsx:128-133 | 'existing' iff the user is an owner, otherwise 'build' |
| IntakeForm.FieldOptions | components/intake/IntakeForm.tsx:64-71 | the variety field shows the chosen category's varieties; other fields show their own options; with no field there are none |
| IntakeForm.AfterCategoryEffect | components/intake/IntakeForm.tsx:73-84 | only `variety` can be removed, it is removed iff it is no longer offered for the new category, and no stale variety remains |
| IntakeForm.SelectionMakesStepValid | components/intake/IntakeForm.tsx:52-54 | after a selection on a selection step, the step is valid |
| IntakeForm.ListedVarietySurvives | components/intake/IntakeForm.tsx:73-84 | a variety listed for the new category is kept |
| IntakeForm.Intake.ContinueEnabled | components/intake/IntakeForm.tsx:421 | Continue is enabled only on a question and never while submitting; on a multi-select question it is enabled exactly when something is ticked and nothing is submitting |
| IntakeForm.TextStepValidIff | components/intake/IntakeForm.tsx:153-164 | a text step is valid iff its trimmed value is non-empty |
| IntakeForm.Intake.HandleUserTypeSelect | components/intake/IntakeForm.tsx:86-91 | sets the user type, returns to step 0 and empties both answer stores |
| IntakeForm.Intake.HandleSelection | components/intake/IntakeForm.tsx:52-54 | stores the option under the field key, followed by the variety effect |
| IntakeForm.Intake.HandleTextInput | components/intake/IntakeForm.tsx:93-95 | stores the text under the field key, followed by the variety effect |
| IntakeForm.Intake.HandleMultiSelection | components/intake/IntakeForm.tsx:97-103 | toggles the option in the multi-select list |
| IntakeForm.Intake.HandleBack | components/intake/IntakeForm.tsx:105-111 | from step i>0 goes to i-1 with the answers kept; from step 0 clears the user type |
| IntakeForm.Intake.PerformNextStep | components/intake/IntakeForm.tsx:113-133 | does nothing while submitting; before the last step, stores the multi answer, advances by one and clears the multi list; at the last step, starts a submission of the answers with the final value |
| IntakeForm.Intake.HandleNext | components/intake/IntakeForm.tsx:56-62 | runs only from an enabled Continue button; it hands performNextStep the multi-select list or the stored answer: before the last question it advances, empties the list and keeps the submitting flag and the error; at the last question it keeps the step and the list, starts submitting, clears the error and returns the payload |
| IntakeForm.Intake.CompleteSubmission | components/intake/IntakeForm.tsx:138-149 | a success submits once and hands over the payload; a failure sets the server message or 'Failed to submit form. Please try again.', ends submitting and keeps the step and the answers |
| ConversationalForm.FlowFor | components/ConversationalForm.tsx:19-20 | the owner flow only for an existing owner, otherwise the builder flow |
| ConversationalForm.DisplayStep | components/ConversationalForm.tsx:22-31 | the variety step with a category answered shows that category's varieties; every other step is shown as it is |
| ConversationalForm.MultiToggled | components/ConversationalForm.tsx:72-79 | the option's membership is toggled; a non-list value counts as empty |
| ConversationalForm.BlockedIff | components/ConversationalForm.tsx:36-38 | advancing is allowed iff a multi step has a non-empty list, or any other step has a truthy value |
| ConversationalForm.Conversation.constructor | components/ConversationalForm.tsx:13 | starts on the role screen (step -1) with no current step |
| ConversationalForm.Conversation.TransitionToNext | components/ConversationalForm.tsx:36-60 | a blocked value changes nothing; from -1 goes to 0 and records nothing; otherwise records the answer and either advances with the value reset or hands over the updated answers |
| ConversationalForm.Conversation.HandleRoleSelect | components/ConversationalForm.tsx:50-51 | sets the role and moves to step 0 |
| ConversationalForm.Conversation.HandleMultiSelect | components/ConversationalForm.tsx:72-79 | the current value becomes MultiToggled of the value before |
| ConversationalForm.Conversation.HandleInput | components/ConversationalForm.tsx:143 | the current value becomes the typed text; the role, step, answers and completion are kept |
| ConversationalForm.Conversation.HandleBack | components/ConversationalForm.tsx:125 | from 0 clears the role and returns to -1; from i>0 goes to i-1; the answers are kept |
| ChatArea.UserMessage | components/chat/ChatArea.tsx:150-162 | a user message with the question text, id and sequence number; it is never a pending MCQ |
| ChatArea.InputDisabled | components/chat/ChatArea.tsx:544 | a pending MCQ always disables the composer; while asking is allowed or questions remain, only a pending MCQ does |
| ChatArea.AnswerMessage | components/chat/ChatArea.tsx:178-190 | the bot message takes the MCQ id as its own id when there is one, otherwise a fresh id |
| ChatArea.FollowUpMessage | components/chat/ChatArea.tsx:240-259 | the bot follow-up to an MCQ answer is never a pending MCQ |
| ChatArea.MarkSelected | components/chat/ChatArea.tsx:226-232 | the option is set on messages with the id, every other message is unchanged, and the length is kept |
| ChatArea.MarkSelectedAnswers | components/chat/ChatArea.tsx:226-235 | after marking, a message is pending iff it was pending and has another id |
| ChatArea.StaleMcqBlocksNewSession | components/chat/ChatArea.tsx:134-138 | as written, a loaded session with no MCQ keeps the composer disabled by the previous session's MCQ |
| ChatArea.HistoryMcqState | components/chat/ChatArea.tsx:134-138 | waiting iff the last loaded message is a pending MCQ, and then with its id |
| ChatArea.HistoryMcqStateAgrees | components/chat/ChatArea.tsx:134-138 | the corrected load equals the written one when nothing was pending before |
| ChatArea.LoadedSessionNotBlockedByMcq | components/chat/ChatArea.tsx:134-138 | after a corrected load with no pending MCQ, only the quota can disable the input (see also line 544) |
| ChatArea.NewChatBlockedByStaleMcq | components/chat/ChatArea.tsx:48-54 | as written, the no-session reset keeps a pending MCQ's flags; the session list has no composer, but the next session opened from it (a new one with an empty history) loads with the flags still set, so its composer is disabled |
| ChatArea.TypeStep | components/chat/ChatArea.tsx:72-83 | the shown text stays a prefix, grows by one character per tick, and typing stops at full length |
| ChatArea.TypingShowsPrefix | components/chat/ChatArea.tsx:72-83 | n ticks show exactly the first min(shown + n, length) characters |
| ChatArea.Chat.ChangeSession | components/chat/ChatArea.tsx:44-57 | corrected (see Findings): with no session, clears the messages, restores a quota of 4 with asking allowed, clears the welcome text and, unlike the source, the MCQ state; a load takes the history and, unlike the source, HistoryMcqState (see also lines 125-144) |
| ChatArea.Chat.CreateSession | components/chat/ChatArea.tsx:86-105 | a created session's id is returned and its welcome text (or the default one) starts typing from empty; a failure changes nothing |
| ChatArea.Chat.TypeWelcome | components/chat/ChatArea.tsx:72-83 | one TypeStep of the welcome text |
| ChatArea.Chat.HandleSendMessage | components/chat/ChatArea.tsx:146-220 | does nothing when asking is blocked or an MCQ is waiting; on success the optimistic message is replaced by the user message plus the bot answer, and the quota and MCQ flags are updated; on error the optimistic message is removed, and 'maximum' blocks asking with 0 left |
| ChatArea.Chat.HandleMcqSelect | components/chat/ChatArea.tsx:222-269 | does nothing without a current MCQ; otherwise marks only that message and clears waiting and loading; on a reply it also clears the id, appends one bot message and turns asking off on a zero quota; on a throw it keeps the id and appends nothing |
| ChatArea.Chat.ComposerDisabled | components/chat/ChatArea.tsx:542-547 | the composer is disabled while an MCQ is pending; otherwise exactly when asking is blocked and no questions remain |
| ChatArea.Chat.LoadHistory | components/chat/ChatArea.tsx:125-144 | corrected (see Findings): the messages and quota become the loaded ones, and the MCQ state is HistoryMcqState of the loaded messages alone; nothing else changes |
| ChatArea.Chat.ResetScreen | components/chat/ChatArea.tsx:48-54 | corrected (see Findings): no messages, a quota of 4 with asking allowed, no welcome text and, unlike the source, no pending MCQ; session, loading and typing are kept |
| ChatArea.Chat.ShowAnswer | components/chat/ChatArea.tsx:173-203 | the optimistic message is followed by the bot answer; the quota is the reply's; the answer is typed out; an MCQ reply with an id makes it the pending MCQ; asking stays allowed only while questions remain |
| ChatArea.Chat.RollBack | components/chat/ChatArea.tsx:204-215 | the optimistic message is removed, leaving the earlier messages; an error whose message mentions 'maximum' blocks asking with 0 left; otherwise the quota is kept |
| ChatArea.Chat.ShowFollowUp | components/chat/ChatArea.tsx:237-262 | the follow-up is appended and typed out, the quota is the reply's, the MCQ id is cleared, and asking stays allowed only while questions remain |
| ChatArea.Chat.TypingComplete | components/chat/ChatArea.tsx:477 | the typing animation ends and nothing else changes |
| ChatInput.ClampedHeight | components/chat/ChatInput.tsx:19-24 | min(scrollHeight, 120): never above 120, and equal to the scroll height below it |
| ChatInput.Composer.HandleChange | components/chat/ChatInput.tsx:75 | the draft becomes the typed text; the height is kept |
| ChatInput.Composer.Resize | components/chat/ChatInput.tsx:19-23 | the height becomes min(scrollHeight, 120); the draft is kept |
| ChatInput.Composer.HandleSubmit | components/chat/ChatInput.tsx:26-32 | sends the trimmed draft iff it is non-empty and the input is neither disabled nor loading; the draft is cleared after a send and kept otherwise |
| ChatInput.Composer.HandleKeyDown | components/chat/ChatInput.tsx:34-39 | Enter without Shift prevents the default and submits as HandleSubmit does: the trimmed draft is sent and cleared when it may be, and otherwise the draft is kept; every other key changes nothing |
| ChatInput.ShiftEnterKeepsDraft | components/chat/ChatInput.tsx:34-39 | Shift+Enter sends nothing and keeps the draft |
| MessageBubble.Align | components/chat/MessageBubble.tsx:16-20 | right-aligned iff the sender is the user |
| MessageBubble.OptionStyle | components/chat/MessageBubble.tsx:47-63 | an option looks chosen iff it is the selected option, locked iff another option is selected, and open iff none is |
| MessageBubble.Click | components/chat/MessageBubble.tsx:40-73 | a click reports (message id, option) iff the MCQ is not yet answered |
| MessageBubble.AnsweredMcqIsFinal | components/chat/MessageBubble.tsx:47 | once ChatArea has recorded an answer, no option can be clicked again |
| MessageBubble.McqHidesSuggestions | components/chat/MessageBubble.tsx:40-76 | a message that carries an MCQ never shows suggestion pills, and a message still awaiting its MCQ answer has a clickable first option |
| IntakeDetailsModal.FormatUserChoice | components/chat/IntakeDetailsModal.tsx:19-21 | 'Cold Storage Owner' iff the choice is 'existing', otherwise 'Planning to Build' |
| IntakeDetailsModal.Capitalize | components/chat/IntakeDetailsModal.tsx:42 | the first character is uppercased, the rest is unchanged, and '' stays '' |
| IntakeDetailsModal.FormatFieldName | components/chat/IntakeDetailsModal.tsx:25-42 | a mapped key gets its fixed label (for example, 'capacity_mt' gets 'Capacity (MT)'); any other key is capitalized |
| IntakeDetailsModal.FormatFieldValue | components/chat/IntakeDetailsModal.tsx:46-54 | an array is joined with ', ', booleans become 'Yes'/'No', and everything else goes through String() |
| IntakeDetailsModal.ListAnswerReadsAsOptions | components/chat/IntakeDetailsModal.tsx:46-49 | a list of strings is shown as the strings joined by ', ' |
| IntakeDetailsModal.Entries | components/chat/IntakeDetailsModal.tsx:87-89 | an object's own entries; for an array or a string, one entry per element, keyed by its index as a decimal string; none for other values |
| IntakeDetailsModal.Render | components/chat/IntakeDetailsModal.tsx:87-104 | closed renders nothing; with no data or no keys, the notice; otherwise one row per entry with its formatted name and value (see also line 16) |
| IntakeDetailsModal.MissingDataShowsNotice | components/chat/IntakeDetailsModal.tsx:87-104 | null or an empty object shows 'No intake data available' |
| Sidebar.Renamed | components/layout/Sidebar.tsx:37-39 | only sessions with the id get the new title; the other sessions, the other fields and the length are unchanged |
| Sidebar.RenameLastWins | components/layout/Sidebar.tsx:37-39 | renaming twice is renaming with the second title |
| Sidebar.RenamesCommute | components/layout/Sidebar.tsx:37-39 | renames of different sessions commute |
| Sidebar.SessionList.LoadSessions | components/layout/Sidebar.tsx:21-30 | a load replaces the list and a failure keeps it; loading ends and the edit state is kept |
| Sidebar.SessionList.StartEditing | components/layout/Sidebar.tsx:47-50 | editing starts on the session, seeded with its title |
| Sidebar.SessionList.HandleTitleChange | components/layout/Sidebar.tsx:98 | the edited title becomes the typed text; the sessions, loading and the edited id are kept |
| Sidebar.SessionList.HandleRename | components/layout/Sidebar.tsx:32-45 | a blank trimmed title does nothing; a success renames with the untrimmed title and ends editing; a failure changes nothing |
| Sidebar.SessionList.HandleEditKey | components/layout/Sidebar.tsx:100-103 | Enter attempts the rename; Escape ends editing without renaming and keeps the typed title; other keys do nothing |
| Sidebar.SessionList.HandleBlur | components/layout/Sidebar.tsx:99 | blur attempts the rename |
| ChatInterface.SourcesFaithful | components/ChatInterface.tsx:58-64 | a link is in the sources iff it comes from a chunk with a URI (its title defaulting to 'Source'); there are no more sources than chunks; there are none iff no chunk has a URI |
| ChatInterface.SourcesConcat | components/ChatInterface.tsx:58-64 | the sources of two chunk lists are the sources of each, in order |
| ChatInterface.ExtractSources | components/ChatInterface.tsx:58-64 | the forEach loop computes Sources |
| ChatInterface.ReplyText | components/ChatInterface.tsx:65-71 | the reply's text, 'No response.' when it is empty, or 'Error connecting to AI.' on failure; it is never empty |
| ChatInterface.SourceLabel | components/ChatInterface.tsx:148 | the label is at most 15 characters of the title, followed by '...' |
| ChatInterface.BoldPartsFaithful | components/ChatInterface.tsx:77-83 | concatenating the parts gives back the line; there is an odd number of parts, alternating text pieces and matches; no stretch of a text piece is a bold match; every match is '**', then a run in which no '**' begins and with no line break, then '**' |
| ChatInterface.ScanClose | components/ChatInterface.tsx:78 | the lazy `.*?\*\*` finds the end of the first closing '**', with no '**' beginning and no line break before it |
| ChatInterface.MatchAt | components/ChatInterface.tsx:78 | a match starting at a position spans at least the two markers and stays within the line |
| ChatInterface.MarkedIsMatch | components/ChatInterface.tsx:78 | wherever a stretch of the line is '**', a run without '**' or line break, then '**', the match at its start ends exactly at its end |
| ChatInterface.SplitFrom | components/ChatInterface.tsx:78 | the split from any position yields an odd number of parts |
| ChatInterface.ParseBold | components/ChatInterface.tsx:77-83 | one span per split part (the spans are characterised by MatchesRenderBold and UnmarkedLineIsPlain) |
| ChatInterface.SplitWithoutMarkers | components/ChatInterface.tsx:77-83 | a line without '**' is one plain part |
| ChatInterface.MatchesRenderBold | components/ChatInterface.tsx:79-81 | a marked part is shown bold with both markers removed |
| ChatInterface.UnmarkedLineIsPlain | components/ChatInterface.tsx:77-83 | a line without '**' is shown as plain text |
| ChatInterface.LoneMarkersVanish | components/ChatInterface.tsx:77-83 | the line '**' renders as one empty bold span |
| ChatInterface.SplitLines | components/ChatInterface.tsx:86 | there is at least one line, and no line holds '\n' |
| ChatInterface.SplitLinesFaithful | components/ChatInterface.tsx:86 | joining the lines with '\n' gives the text, and there is one line more than there are line feeds |
| ChatInterface.RenderContentClassifies | components/ChatInterface.tsx:85-99 | one output per line: a blank line is a spacer; a trimmed line starting with '* ' or '- ' is a bullet with that prefix removed; any other line is a paragraph |
| ChatInterface.RenderContent | components/ChatInterface.tsx:85-99 | one rendered line per line of the text (classified by RenderContentClassifies) |
| ChatInterface.Advisor.HandleSend | components/ChatInterface.tsx:45-56 | nothing happens for blank text or while loading; otherwise one user message is appended (none for the init prompt), then one thinking placeholder, and the input is cleared |
| ChatInterface.Advisor.SendDisabled | components/ChatInterface.tsx:177 | the send button is disabled exactly while loading or while the input is all white space |
| ChatInterface.Advisor.HandleInputChange | components/ChatInterface.tsx:171 | the input becomes the typed text; messages and loading are kept |
| ChatInterface.Echo | components/ChatInterface.tsx:47-50 | no user message for a text holding the init marker; otherwise exactly one user message with the text, stamped with the clock reading |
| ChatInterface.Placeholder | components/ChatInterface.tsx:52-54 | an empty, thinking model message whose id is the clock reading plus one |
| ChatInterface.Advisor.Mount | components/ChatInterface.tsx:35-39 | with only the welcome message on screen and nothing loading, the init prompt is sent: only a thinking placeholder is added, loading starts and the input is cleared; with the welcome message alone but already loading, nothing changes except that loading stays on; with any other history, no prompt is sent and the messages, loading flag and input are kept |
| ChatInterface.Advisor.ResolveReply | components/ChatInterface.tsx:57-74 | only the placeholder with the matching id is replaced, with ReplyText; the sources are set from the reply and are absent when there are none; loading ends |
| ChatInterface.StampsDiffer | components/ChatInterface.tsx:49-52 | the user message's id (the clock reading) and the placeholder's id (the reading plus one) always differ, and neither is the welcome message's id |
| ChatInterface.SendThenReply | components/ChatInterface.tsx:45-75 | a send followed by its reply ends with the user message and the answered placeholder |
| VerifyOtpForm.ErrorOr | components/auth/VerifyOTPForm.tsx:90-93 | the server's error text, unless it is absent or empty |
| VerifyOtpForm.PastePrefix | components/auth/VerifyOTPForm.tsx:62 | the first min(length, 6) characters of the pasted text |
| VerifyOtpForm.FullSlotsPassGate | components/auth/VerifyOTPForm.tsx:79-82 | six one-character slots make a code of length 6 |
| VerifyOtpForm.TwoDigits | components/auth/VerifyOTPForm.tsx:29-33 | a padded number below 100 is two digits whose value is that number |
| VerifyOtpForm.FormatTime | components/auth/VerifyOTPForm.tsx:29-33 | the display has at least five characters with ':' third from the end, and exactly five below 100 minutes |
| VerifyOtpForm.FormatTimeRoundTrip | components/auth/VerifyOTPForm.tsx:29-33 | below 6000 seconds the display is MM:SS, and its fields recombine to the seconds |
| VerifyOtpForm.FullCountdownDisplay | components/auth/VerifyOTPForm.tsx:29-33 | 900 seconds reads '15:00' (see also line 14) |
| VerifyOtpForm.Tick | components/auth/VerifyOTPForm.tsx:22-24 | the countdown drops by one and stops at 0 |
| VerifyOtpForm.CodeForm.constructor | components/auth/VerifyOTPForm.tsx:11-14 | six empty slots and a 900 s countdown |
| VerifyOtpForm.CodeForm.HandleVerify | components/auth/VerifyOTPForm.tsx:78-97 | a code whose length is not 6 is refused with 'Please enter all 6 digits' and no request; a failure empties all six slots |
| VerifyOtpForm.CodeForm.HandleChange | components/auth/VerifyOTPForm.tsx:35-52 | only digit strings are written, to that slot alone, and the error is cleared; auto-verify fires iff slot 5 was edited and all slots are filled, and then ends with loading off, the digits kept on success and the slots emptied on failure |
| VerifyOtpForm.CodeForm.HandlePaste | components/auth/VerifyOTPForm.tsx:60-76 | a non-empty all-digit prefix fills slots 0..n-1 and leaves the rest as they were; auto-verify fires iff n = 6, and then ends with loading off, the digits kept on success and the slots emptied on failure |
| VerifyOtpForm.CodeForm.HandleSubmit | components/auth/VerifyOTPForm.tsx:99-102 | verifies the current digits: an incomplete code sets the error and keeps everything else; a request ends with loading off, and either records the code and keeps the digits, or keeps the verified state, shows the error and empties the slots |
| VerifyOtpForm.CodeForm.SubmitDisabled | components/auth/VerifyOTPForm.tsx:175 | the button is disabled while loading, and when enabled every slot holds a digit |
| VerifyOtpForm.CodeForm.CountDown | components/auth/VerifyOTPForm.tsx:22-24 | the timer goes through Tick |
| VerifyOtpForm.CodeForm.HandleResend | components/auth/VerifyOTPForm.tsx:104-116 | refused while the timer runs; a success resets it to 900 and clears the digits and the error; a failure shows the error |
| OtpVerification.LoginCodeForm.constructor | components/auth/OTPVerification.tsx:13-16 | six empty slots and a 60 s countdown |
| OtpVerification.LoginCodeForm.HandleChange | components/auth/OTPVerification.tsx:31-42 | only digit strings are written, to that slot alone |
| OtpVerification.LoginCodeForm.HandlePaste | components/auth/OTPVerification.tsx:50-61 | a non-empty all-digit prefix fills slots 0..n-1, the rest are kept, and nothing is submitted |
| OtpVerification.LoginCodeForm.HandleSubmit | components/auth/OTPVerification.tsx:63-85 | a code shorter than 6 sets 'Please enter all 6 digits' and sends nothing; a resolved login goes to the dashboard; a rejected one shows its message and empties the slots |
| OtpVerification.LoginCodeForm.CountDown | components/auth/OTPVerification.tsx:24-26 | the timer goes through Tick |
| OtpVerification.LoginCodeForm.HandleResend | components/auth/OTPVerification.tsx:87-97 | refused while the timer runs; a success resets it to 60 and clears the error but keeps the digits |
| Dashboard.Page.constructor | pages/Dashboard.tsx:9-11 | view 'intake', no session, no suggestions |
| Dashboard.Page.HandleIntakeComplete | pages/Dashboard.tsx:13-19 | sets the session and the suggestions and shows the chat |
| Dashboard.Page.HandleSessionCreated | pages/Dashboard.tsx:21-23 | only the session id changes |
| Dashboard.Page.HandleSessionSelect | pages/Dashboard.tsx:25-29 | sets the session, clears the suggestions and shows the chat |
| Dashboard.Page.HandleGoToIntake | pages/Dashboard.tsx:31-33 | only the view changes |
| Dashboard.Page.HandleGoToChats | pages/Dashboard.tsx:35-37 | only the view changes |
| Dashboard.Page.HandleNewChat | pages/Dashboard.tsx:39-43 | clears the session and the suggestions and shows the chat |
| Dashboard.NewChatAfterIntake | pages/Dashboard.tsx:13-43 | intake completion, a visit to the intake view, then New chat give the chat view with no session and no suggestions |
| ForgotPassword.ScreenFor | pages/ForgotPassword.tsx:31-45 | exactly one sub-form per step, carrying the email and the code it needs |
| ForgotPassword.Recovery.constructor | pages/ForgotPassword.tsx:9-11 | starts at 'request-otp' with an empty email and code |
| ForgotPassword.Recovery.HandleOtpSent | pages/ForgotPassword.tsx:13-16 | stores the email and moves to 'verify-otp' |
| ForgotPassword.Recovery.HandleOtpVerified | pages/ForgotPassword.tsx:18-21 | stores the code and moves to 'reset-password' |
| ForgotPassword.Recovery.HandleBackToRequest | pages/ForgotPassword.tsx:23-27 | returns to 'request-otp' and clears the email and the code |
| ForgotPassword.RecoverInOrder | pages/ForgotPassword.tsx:31-45 | the reset form always receives the email that was last sent a code and the code that was verified, even after a detour back to the request step |

## Left out
- ChatArea.Chat.ChangeSession: follows the corrected behaviour of both Findings rows, clearing the MCQ flags on the no-session reset and setting them from the loaded history alone; the source's own behaviour is NoSessionResetAsWritten and HistoryMcqStateAsWritten.
- ChatArea.Chat.ResetScreen and ChatArea.Chat.LoadHistory: the same; they are the corrected halves of ChangeSession.
- Timers are left out:
  - the real `sleep` in polling becomes a delay count;
  - the countdowns, the welcome typing and the transition fades each become one atomic step per tick or transition;
  - the splash delays and the 3 s success delay are not modelled.
- ChatInterface.Advisor.HandleSend and ChatInterface.StampsDiffer: one `stamp` stands for both `Date.now()` readings (components/ChatInterface.tsx:49 and :53). Two readings t1 <= t2 give ids t1 and t2 + 1, which still differ, but the model does not state this.
- The network, axios and the backend are left out. Each response is an input outcome.
- The thin wrappers in `api/auth.api.ts` and `api/intake.api.ts` are not part of this model.
- The `window.location` redirect is modelled as a returned route.
- JSON `stringify`/`parse` is modelled as an encode/decode pair given to the token store. A stored text that does not decode yields `Corrupt`, where the page throws.
- Focus handling, scrolling, the menu and the splash screen are left out. This includes `inputRefs` and `scrollIntoView`.
- JSX, CSS classes, animations and the floating-point progress widths are left out. Only the render predicates are modelled.
- `services/geminiService.ts` is not part of this model. `LocationAutocomplete` and the layout shells (Header, MobileNav, MainLayout, GlobalHeader, SuggestedQuestions, App routes) are not part of it either.
- `pages/Profile.tsx`, `PreferenceModal` and `TransitionScreen` are not part of this model.
- Overlapping async handlers, stale closures and the missing cancellation of an in-flight poll are left out. Each handler runs to completion.
  - The exceptions are IntakeForm submission and ChatInterface's send. Each is split into a start step and a completion step, so that their busy guards mean something.
- ChatArea reads `response.data.*`, but `askQuestion` and `answerMCQ` return a different record. ChatArea is therefore modelled against its own response records, and the two are not composed.
- The `TASK_STATUS` and `CREATE_SESSION` routes are missing from the endpoint table. Their paths are not modelled. For `TASK_STATUS` the consequence is a Findings row: with no route builder, every status request throws before it is sent.
- ChatArea's `fetchSessions`, `loadIntakePreview` and `handleViewIntake` only load data and open the modal; they are not modelled. `loadIntakePreview` runs on every change to a session (components/chat/ChatArea.tsx:47, 107-115) and sets only the intake preview's data and user choice, which no modelled member reads.
- ChatInterface's profile side panel is not modelled. It contains the key formatting with `replace`.
- `contextData.location` is taken as a string.
- `Date.now()` ids and dates are `stamp`/`now` parameters.
- React re-render identity is not modelled. The consequence that matters is the missing component remount, which appears under Findings.
- The flow tables (`form-data.json`, `OWNER_FLOW`, `BUILDER_FLOW`, `POTATO_CATEGORIES`) are not part of this model. They are constructor parameters.
- ChatApi.PollTaskResult: requires at least 100 outcomes. Every server behaviour is such a sequence, because at most 100 are ever read.
- IntakeDetailsModal.Capitalize: uppercases ASCII letters only. JavaScript's `toUpperCase` applies full Unicode case mapping.
- IntakeDetailsModal.FormatFieldName: looks up only the fifteen own keys of the label map. Inherited `Object.prototype` names such as 'constructor' would find a function in the source.
- ChatArea.TypeStep and ChatArea.TypingShowsPrefix: the typing effect grows the shown text by one Unicode scalar value per tick. `slice(0, displayedWelcome.length + 1)` counts UTF-16 code units, so a character outside the Basic Multilingual Plane takes two ticks, and is shown half-formed after the first.
- ChatInterface.SourceLabel: keeps the first 15 characters, counted as Unicode scalar values. `substring(0, 15)` counts UTF-16 code units, so it can keep half of a surrogate pair and show fewer visible characters.
- Js.FirstKeyValue: takes the first entry in stored order. `Object.keys` lists integer-like keys first, so LoginForm.ErrorMessage can show a different field's message when a field name looks like an integer.
- IntakeDetailsModal.FormatFieldValue: `Js.Num` holds integers only, so a fractional answer such as 12.5, which `String()` shows as '12.5', has no counterpart in the model.
- TokenStore.ReadUser: treats every text that `decode` rejects as a parse error that throws. The stored text 'null' parses without throwing, to `null`; Mount then restores nobody, which the model does not distinguish from `Corrupt`.
- IntakeDetailsModal.Entries: lists an object's entries in their stored order. JavaScript puts integer-like keys first.
- IntakeForm.TextStepValidIff: covers text answers only. A list stored under a text field makes `trim` throw in the source, and the model counts that step as invalid.
- The older `OTPVerification` screen is imported by no page. It calls a `sendOTP` that the auth context does not provide. The model keeps its documented behaviour, with the login and resend calls as inputs.
  - `OtpVerification.LoginCodeForm.HandleSubmit`: takes a rejecting login as a possible input. In the source, `login` catches its own errors, so the rejection branch is unreachable.
- Integers are unbounded. Every count in this client (timers, quotas, sequence numbers) stays far from any limit.

## Findings

| source | as written | input that shows it | evidently intended | confidence | as-written member | corrected member |
|---|---|---|---|---|---|---|
| components/chat/ChatArea.tsx:134-138 | the history load only ever sets `waitingForMCQ` and `currentMCQMessageId`, and the component is not remounted on a session switch (pages/Dashboard.tsx renders it without a key) | leave a session with an unanswered MCQ, then open one whose last message is a plain message | the flags are derived from the loaded session alone, so the new session's input is enabled | not executed | ChatArea.StaleMcqBlocksNewSession | ChatArea.HistoryMcqState |
| components/chat/ChatArea.tsx:48-54 | the no-session reset clears messages, quota and welcome text but keeps the MCQ flags; the session list it shows has no composer, so the flags show on the next session loaded | press New Chat while an MCQ is waiting, then create a new session from the list | a new chat starts with no MCQ pending and an enabled input | not executed | ChatArea.NewChatBlockedByStaleMcq | ChatArea.Chat.ChangeSession |
| api/chat.api.ts:137 | `CHAT_ENDPOINTS` (api/constants.ts:17-24) has no `TASK_STATUS` entry, so `CHAT_ENDPOINTS.TASK_STATUS(taskId)` throws a TypeError inside the try; the catch at lines 172-175 sleeps and retries | ask any question the backend accepts as a task | each attempt fetches the task's status record, so a SUCCESS or FAILURE record ends the poll with its result | not executed | ChatApi.MissingStatusRouteTimesOut | ChatApi.PollTaskResult |
