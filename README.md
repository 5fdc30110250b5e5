# persona-forge, modelled in Dafny

persona-forge turns a product description into user personas. A FastAPI server asks a language
model for JSON, validates it, and stores it per conversation. It also holds accounts, exports
and payments. A React client keeps the conversation, the generated personas and the session in
small stores and edits personas in place. This project models the rules of both sides and
proves what they promise.

Server side (Python), one module per file:

- `Generator`: the schema validator `parse_json`.
- `MainEndpoint`: the result mapping of `POST /generate-personas`.
- `ChatRouter`: conversations, ownership, and how `send_message` stores a generated persona as
  rows, each list element with `order_index` equal to its position.
- `ExportRouter`: the monthly eligibility rule, the status report, `get_ordered_text`,
  serialisation and `export_personas`.
- `AuthRouter`: sign-up with a one-time password (OTP), verification, login and Google login.
- `PaymentsRouter`: the plan-to-account-type mapping and expiry of `verify_payment`.
- `Tables`: the database as one snapshot of in-memory tables, and `Db`, the object the routes
  update.

Client side (TypeScript):

- `ChatStore`: the conversation store, with optimistic send and rollback.
- `ChatInterface`: the send guard and the error routing.
- `PersonaStore`: the persona working set and its persisted slice.
- `PersonaCard`: `sanitizeArray` and the card's update helpers.
- `InlineEditor`: the text field and the list editor.
- `App`: id assignment and duplication.
- `ExportDialog`: the status fetch, the export guard, id filtering and error text.
- `AuthStore`: the session store.
- `AuthDialog`: the login and sign-up step machine.
- `Api`: the request and response interceptors and the generation call.
- `BrowserStorage`: the token slot the client keeps in the browser.

Shared value modules:

- `JsValues`: JavaScript values, truthiness, `String()` and `parseInt`.
- `JsonValues`: Python's JSON values.
- `Strings`: trimming, numerals and lower-casing.
- `Wrappers`: `Option`, `Result` and `Settled`, the outcome of an awaited call.

Each stateful piece is a class whose fields are the store's or component's state. Its methods
state the new state as a pure step function of the old one and of the awaited call's outcome.
The outcome is a parameter, so either path can be chosen. The properties are proved about the
step functions. Timestamps are integers. Password hashing, JWT signing, Google token checks,
the payment signature check and the language model are parameters or left out.

Two results tie the layers together:

- `ChatRouter.SavedPersonasExport` and `ChatRouter.StoredPrefixExports` prove that a persona
  stored whole by `send_message` exports exactly as the generator returned it. When the
  database refuses a persona, the ones before it stay stored whole (`ChatRouter.SendKeepsSaved`). The export reads every list back in its original order,
  whatever order the database returns the rows in, because `get_ordered_text` undoes the
  numbering that stored the list.
- `ExportDialog.GeneratedPersonasAreNotExported` proves that the personas of a client search
  (ids `persona-<t>-<i>`) can never be exported. Their ids parse to NaN, so the dialog stops
  with "No valid persona IDs to export".

Notable behaviours of the code:

- `sanitizeArray` keeps the rows in the order they arrive and does not sort by `order_index`;
  only the server's export sorts.
- `selectConversation` keeps the messages shown before when the fetch fails.
- The client posts generation requests to `/conversations/generate-personas`
  (frontend/src/lib/api.ts:84), while the server serves `/generate-personas`
  (src/main.py:36). `App.SearchStep` takes the request's outcome as a parameter.
- The export dialog calls an account "admin" only when `account_type === 1`
  (frontend/src/components/persona/ExportDialog.tsx:110). The server treats every
  `account_type >= 1` as unlimited, and the "pro" plan gives 2
  (`ExportDialog.ProAccountIsNotShownAsAdmin`).
- A persona the database refuses (a list in a text column, a missing name) makes
  `send_message` answer 500, yet the two messages and the personas committed before it stay
  (`ChatRouter.RefusedPersonaKeepsCommits`).
- The inline editor opens a null value as `''` and, saved untouched, sends `''` because `''`
  is not strictly equal to null; a non-zero number opens as itself and throws on `trim()`.

## Model

| member | source | states |
|---|---|---|
| ChatStore.WithoutId | frontend/src/stores/chatStore.ts:107 | the result holds exactly the messages whose id differs from the given one, and is no longer than the input |
| ChatStore.WithoutIdDistributes | frontend/src/stores/chatStore.ts:107 | the filter works message by message: filtering a concatenation is the concatenation of the filtered parts, and one message is kept exactly when its id differs, so order and repeats are kept |
| ChatStore.SendEntered | frontend/src/stores/chatStore.ts:73-85 | exactly one user message with the given content is appended at the end, earlier messages unchanged; loading is set and the error cleared; conversations and current id kept |
| ChatStore.SendSettled | frontend/src/stores/chatStore.ts:87-111 | loading ends false and the conversations and selection are kept; a reply is appended after the messages; a rejection records the error's message and keeps exactly the messages whose id is not the temporary id |
| ChatStore.SendMessageStep | frontend/src/stores/chatStore.ts:69-112 | with no current conversation (null or 0) nothing changes; otherwise loading ends false, conversations and id are kept; success gives old ++ [temp message, reply] with no error; failure records the error's message and keeps exactly the messages whose id is not the temp id |
| ChatStore.FailedSendRollsBack | frontend/src/stores/chatStore.ts:104-108 | a failed send leaves the message list exactly as before the send when no earlier message has the temporary id |
| ChatStore.FailedSendDropsSameId | frontend/src/stores/chatStore.ts:107 | the rollback filters by id, so an earlier message sharing the temporary id is removed too |
| ChatStore.FetchConversationsStep | frontend/src/stores/chatStore.ts:27-37 | loading ends false; success replaces the list and clears the error; failure keeps the list and records the message; selection and messages untouched |
| ChatStore.CreateConversationStep | frontend/src/stores/chatStore.ts:39-55 | success prepends the conversation, selects it and empties the messages; failure records the error and leaves list, selection and messages; loading ends false |
| ChatStore.SelectConversationStep | frontend/src/stores/chatStore.ts:57-67 | the id is selected on both paths; success loads the messages; failure records the error and keeps the old messages; loading ends false |
| ChatStore.ClearStep | frontend/src/stores/chatStore.ts:114-116 | selection becomes null and messages empty; conversations, loading and error untouched |
| ChatStore.SendAfterClearIsIgnored | frontend/src/stores/chatStore.ts:70-71 | a send right after clearing the selection changes nothing |
| ChatStore.SendIntoNewConversation | frontend/src/stores/chatStore.ts:43-47 | after creating a conversation, a successful send shows exactly the user's message and the reply |
| ChatStore.Store.constructor | frontend/src/stores/chatStore.ts:21-25 | the store starts empty, unselected, not loading, without error |
| ChatStore.Store.FetchConversations | frontend/src/stores/chatStore.ts:27-37 | the new state is `FetchConversationsStep` of the old |
| ChatStore.Store.CreateConversation | frontend/src/stores/chatStore.ts:39-55 | the new state is `CreateConversationStep` of the old; the conversation is returned or the rejection passed on |
| ChatStore.Store.SelectConversation | frontend/src/stores/chatStore.ts:57-67 | the new state is `SelectConversationStep` of the old |
| ChatStore.Store.SendMessage | frontend/src/stores/chatStore.ts:69-112 | the new state is `SendMessageStep` of the old |
| ChatStore.Store.ClearCurrentConversation | frontend/src/stores/chatStore.ts:114-116 | the new state is `ClearStep` of the old |
| ChatInterface.SubmitBlocked | frontend/src/components/chat/ChatInterface.tsx:27 | a submit is rejected exactly when the input is all whitespace or a send is in progress (also the button's disabled state) |
| ChatInterface.ErrorViewOf | frontend/src/components/chat/ChatInterface.tsx:111-123 | no box for a null or empty error; the limit banner exactly when the lower-cased text contains "limit"; the plain box otherwise; both show the text |
| ChatInterface.UpperCaseLimitIsBanner | frontend/src/components/chat/ChatInterface.tsx:113 | "LIMIT" in any surrounding text routes to the banner |
| ChatInterface.Panel.constructor | frontend/src/components/chat/ChatInterface.tsx:13 | the draft starts empty |
| ChatInterface.Panel.HandleSubmit | frontend/src/components/chat/ChatInterface.tsx:25-38 | a blocked submit changes nothing; otherwise the draft is cleared and the store takes a send of the trimmed input |
| ChatInterface.Panel.HandleKeyDown | frontend/src/components/chat/ChatInterface.tsx:40-45 | Enter without Shift submits: the draft is cleared and the trimmed text sent; Enter while the submit is blocked (blank draft or a send in progress) and any other key, Shift+Enter included, leave the draft and the store unchanged |
| ChatInterface.SubmitStep | frontend/src/components/chat/ChatInterface.tsx:25-38 | a blocked submit keeps draft and store; an accepted one empties the draft |
| ChatInterface.SentContentIsTrimmed | frontend/src/components/chat/ChatInterface.tsx:29-37 | the user message appended carries the trimmed input, which is not empty |
| ChatInterface.SubmitWithoutConversationLosesDraft | frontend/src/components/chat/ChatInterface.tsx:27-37 | with nothing selected, a non-blank submit still empties the draft while the store ignores the send |
| PersonaStore.Merge | frontend/src/stores/personaStore.ts:53 | the spread merge: every property of the update wins, every other property of the persona is kept, nothing else appears |
| PersonaStore.UpdatePersonas | frontend/src/stores/personaStore.ts:50-55 | same length and order; every persona whose id is strictly the given string is merged, the others unchanged |
| PersonaStore.DeletePersonas | frontend/src/stores/personaStore.ts:57-60 | exactly the personas whose id is not strictly the given string remain |
| PersonaStore.DeleteDistributes | frontend/src/stores/personaStore.ts:59 | deletion works element by element, so the kept personas stay in their original order |
| PersonaStore.DeleteOfAbsent | frontend/src/stores/personaStore.ts:59 | deleting an id no persona has changes nothing |
| PersonaStore.DeleteAfterUpdate | frontend/src/stores/personaStore.ts:50-60 | an update that does not touch `id`, followed by deleting that id, equals the delete alone |
| PersonaStore.NumericIdIsNotMatched | frontend/src/stores/personaStore.ts:53-59 | strict equality: personas whose id is the number n are neither updated nor deleted by the string of n |
| PersonaStore.UpdateReplacesDemographics | frontend/src/stores/personaStore.ts:53 | the merge is shallow: an update carrying `demographics` replaces the whole object, dropping fields it lacks |
| PersonaStore.FilesWithout | frontend/src/stores/personaStore.ts:71-74 | exactly the files whose id differs from the given one remain, and never more files than before |
| PersonaStore.FilesWithoutDistributes | frontend/src/stores/personaStore.ts:71-74 | the filter works file by file: filtering a concatenation is the concatenation of the filtered parts, and one file is kept exactly when its id differs, so order and repeats are kept |
| PersonaStore.RemoveAddedFile | frontend/src/stores/personaStore.ts:66-74 | removing a just-added file by its id gives back the list when no earlier file shares that id |
| PersonaStore.ClearAllStep | frontend/src/stores/personaStore.ts:85-91 | personas, files and history emptied and the error nulled; mode and generating flag kept |
| PersonaStore.Persisted | frontend/src/stores/personaStore.ts:95-99 | the stored slice is exactly personas, mode and history |
| PersonaStore.Rehydrate | frontend/src/stores/personaStore.ts:93-100 | a reload restores the slice over the initial state: not generating, no error, no files |
| PersonaStore.ReloadForgetsTransientState | frontend/src/stores/personaStore.ts:95-99 | after a reload only the generating flag, the error and the files are reset |
| PersonaStore.ClearAllPersistsOnlyMode | frontend/src/stores/personaStore.ts:85-99 | after `clearAll`, a reload keeps the mode and nothing of the work |
| PersonaStore.Store.constructor | frontend/src/stores/personaStore.ts:37-42 | the initial state: no personas, quick mode, not generating, no error, no files, no history |
| PersonaStore.Store.AddPersona | frontend/src/stores/personaStore.ts:45-48 | the persona is appended at the end; nothing else changes |
| PersonaStore.Store.UpdatePersona | frontend/src/stores/personaStore.ts:50-55 | the list becomes `UpdatePersonas` of the old; nothing else changes |
| PersonaStore.Store.DeletePersona | frontend/src/stores/personaStore.ts:57-60 | the list becomes `DeletePersonas` of the old; nothing else changes |
| PersonaStore.Store.SetPersonas | frontend/src/stores/personaStore.ts:62 | the list is replaced wholesale |
| PersonaStore.Store.SetMode | frontend/src/stores/personaStore.ts:64 | only the mode changes |
| PersonaStore.Store.AddFile | frontend/src/stores/personaStore.ts:66-69 | the file is appended |
| PersonaStore.Store.RemoveFile | frontend/src/stores/personaStore.ts:71-74 | the files become `FilesWithout` of the old |
| PersonaStore.Store.SetGenerating | frontend/src/stores/personaStore.ts:76 | only the generating flag changes |
| PersonaStore.Store.SetError | frontend/src/stores/personaStore.ts:78 | only the error changes |
| PersonaStore.Store.AddConversationEntry | frontend/src/stores/personaStore.ts:80-83 | the entry is appended to the history |
| PersonaStore.Store.ClearAll | frontend/src/stores/personaStore.ts:85-91 | the new state is `ClearAllStep` of the old |
| PersonaCard.SanitizeItem | frontend/src/components/persona/PersonaCard.tsx:56-68 | a string passes through; an object (arrays included) gives `String` of its key's value, or '' when that is null or undefined; anything else, null included, gives `String(item)` |
| PersonaCard.SanitizeAll | frontend/src/components/persona/PersonaCard.tsx:56-69 | same length; element i is the sanitised element i |
| PersonaCard.SanitizeArray | frontend/src/components/persona/PersonaCard.tsx:54-70 | a non-array gives []; an array gives its elements sanitised one by one, same length and order |
| PersonaCard.SanitizeRowsKeepsArrivalOrder | frontend/src/components/persona/PersonaCard.tsx:54-70 | rows carrying an `order_index` come out in arrival order: the indexes are not used to sort |
| PersonaCard.SanitizeIsIdempotent | frontend/src/components/persona/PersonaCard.tsx:54-70 | sanitising an already sanitised list gives it back |
| PersonaCard.CardUpdate | frontend/src/components/persona/PersonaCard.tsx:72-74 | the store's list keeps its length after a card edit |
| PersonaCard.CardUpdateSetsOneField | frontend/src/components/persona/PersonaCard.tsx:72-74 | for a string id, every persona with that id gets exactly the field set and keeps the rest; others are unchanged |
| PersonaCard.CardCannotEditNumericId | frontend/src/components/persona/PersonaCard.tsx:73 | the card keys by `String(persona.id)`, so personas with a numeric id are neither updated nor deleted from their card |
| PersonaCard.DemographicsUpdate | frontend/src/components/persona/PersonaCard.tsx:76-83 | the update carries only `demographics`: the persona's object with the named field set to the value |
| PersonaCard.MergedDemographics | frontend/src/components/persona/PersonaCard.tsx:76-83 | merged into the persona, it changes the named demographic field and nothing else |
| PersonaCard.DemographicsEditChangesOneField | frontend/src/components/persona/PersonaCard.tsx:76-83 | through the store's shallow merge, a demographics edit sets exactly the named field of that persona's demographics and keeps everything else |
| InlineEditor.ViewOf | frontend/src/components/persona/InlineEditor.tsx:28-31 | an object or array value renders "Invalid value" and never an editor; otherwise the editor shows exactly while editing |
| InlineEditor.OpeningDraft | frontend/src/components/persona/InlineEditor.tsx:34 | `value \|\| ''`: a truthy value of any type is kept as the draft, any other becomes the empty text |
| InlineEditor.StartEdit | frontend/src/components/persona/InlineEditor.tsx:52-56 | disabled: no change; otherwise editing with the draft reset to `value \|\| ''` |
| InlineEditor.Save | frontend/src/components/persona/InlineEditor.tsx:58-64 | a draft that is not text throws and changes nothing; otherwise editing ends, and the trimmed draft is saved exactly when it is not strictly equal to the value |
| InlineEditor.Cancel | frontend/src/components/persona/InlineEditor.tsx:66-70 | leaves editing with the draft back at `value \|\| ''`, saving nothing |
| InlineEditor.KeyDown | frontend/src/components/persona/InlineEditor.tsx:72-80 | Enter without Shift on a single-line field saves; Escape cancels; other keys change nothing |
| InlineEditor.UntouchedSaveIsSilent | frontend/src/components/persona/InlineEditor.tsx:52-64 | opening and saving an already trimmed text value ends editing and saves nothing |
| InlineEditor.UntouchedSaveTrims | frontend/src/components/persona/InlineEditor.tsx:52-64 | opening and saving a text value with surrounding whitespace saves its trimmed form |
| InlineEditor.UntouchedSaveOfFalsyValueSavesEmpty | frontend/src/components/persona/InlineEditor.tsx:52-64 | opening and saving null, undefined, `0` or `false` saves the empty text |
| InlineEditor.UntouchedSaveOfTruthyNonTextThrows | frontend/src/components/persona/InlineEditor.tsx:52-64 | opening and saving a non-zero number or `true` throws, saves nothing and stays editing |
| InlineEditor.SaveSettles | frontend/src/components/persona/InlineEditor.tsx:58-64 | once saved, reopening and saving the new value saves nothing |
| InlineEditor.Editor.constructor | frontend/src/components/persona/InlineEditor.tsx:33-34 | not editing, draft `value \|\| ''` |
| InlineEditor.Editor.HandleStartEdit | frontend/src/components/persona/InlineEditor.tsx:52-56 | the new state is `StartEdit` of the old |
| InlineEditor.Editor.HandleChange | frontend/src/components/persona/InlineEditor.tsx:99 | the draft becomes the typed text; editing is unchanged |
| InlineEditor.Editor.HandleSave | frontend/src/components/persona/InlineEditor.tsx:58-64 | state, saved text and throw are `Save` of the old state |
| InlineEditor.Editor.HandleCancel | frontend/src/components/persona/InlineEditor.tsx:66-70 | the new state is `Cancel` of the old |
| InlineEditor.Editor.HandleKeyDown | frontend/src/components/persona/InlineEditor.tsx:72-80 | state, saved text and throw are `KeyDown` of the old state |
| InlineEditor.AddItem | frontend/src/components/persona/InlineEditor.tsx:180-187 | an update is made exactly when the item is not blank and the list is below the limit, and it appends the trimmed item |
| InlineEditor.UpdateItem | frontend/src/components/persona/InlineEditor.tsx:189-193 | position `index` is replaced; length and every other item unchanged |
| InlineEditor.RemoveItem | frontend/src/components/persona/InlineEditor.tsx:195-197 | position `index` is removed, the rest keep their order; an index out of range removes nothing |
| InlineEditor.RemoveUndoesAdd | frontend/src/components/persona/InlineEditor.tsx:180-197 | removing the item just added gives back the list |
| InlineEditor.RemoveLastItem | frontend/src/components/persona/InlineEditor.tsx:195-197 | removing the last position drops exactly the last item |
| InlineEditor.AddKeepsLimit | frontend/src/components/persona/InlineEditor.tsx:180-187 | adding keeps a list within its limit within it |
| InlineEditor.RemoveAfterUpdate | frontend/src/components/persona/InlineEditor.tsx:189-197 | editing an item and then removing it equals removing it |
| InlineEditor.AddStep | frontend/src/components/persona/InlineEditor.tsx:180-187 | when an item is added the draft is emptied and the add box closed; otherwise the draft stays |
| InlineEditor.ListKeyDown | frontend/src/components/persona/InlineEditor.tsx:199-207 | Enter adds; Escape clears the draft and closes the box without an update; other keys change nothing |
| InlineEditor.ListEditor.constructor | frontend/src/components/persona/InlineEditor.tsx:169-178 | empty draft, add box closed |
| InlineEditor.ListEditor.HandleAddItem | frontend/src/components/persona/InlineEditor.tsx:180-187 | draft and update are `AddStep` of the old draft |
| InlineEditor.ListEditor.HandleUpdateItem | frontend/src/components/persona/InlineEditor.tsx:189-193 | the update is `UpdateItem` of the props |
| InlineEditor.ListEditor.HandleRemoveItem | frontend/src/components/persona/InlineEditor.tsx:195-197 | the update is `RemoveItem` of the props |
| InlineEditor.ListEditor.HandleKeyDown | frontend/src/components/persona/InlineEditor.tsx:199-207 | draft and update are `ListKeyDown` of the old draft |
| App.BatchIdInjective | frontend/src/App.tsx:36 | equal ids mean equal positions, whatever clock readings the two ids carry |
| App.DigitsAfterLastDash | frontend/src/App.tsx:36 | the index of a batch id is the run of digits after its last '-': two such splittings of one text agree |
| App.DuplicateIdIsNoBatchId | frontend/src/App.tsx:36-51 | a duplicate's id never equals a batch id |
| App.WithIds | frontend/src/App.tsx:34-37 | same length; persona i gets id `persona-<clock(i)>-<i>`, with the clock read once per persona, and keeps every other property |
| App.WithIdsDistinct | frontend/src/App.tsx:34-37 | the personas of one batch carry pairwise distinct ids, even when the clock moves between them |
| App.SearchError | frontend/src/App.tsx:42 | the error's message, or "Failed to generate personas" |
| App.SearchEntered | frontend/src/App.tsx:23-24 | generating is set and the error cleared before the request; the personas are kept |
| App.SearchStep | frontend/src/App.tsx:22-46 | generating ends false on both paths; success replaces the personas by the response with batch ids and no error; failure keeps the personas and sets the error text |
| App.HandleSearch | frontend/src/App.tsx:22-46 | the store's new state is `SearchStep` of the old |
| App.Duplicate | frontend/src/App.tsx:48-53 | the copy differs only in id `persona-<t>-duplicate` and name "<name> (Copy)" |
| App.HandleDuplicatePersona | frontend/src/App.tsx:48-55 | the copy is appended; the original and all other state are unchanged |
| App.EditingCopyLeavesBatch | frontend/src/App.tsx:48-55 | editing the duplicate by its id leaves every persona of the batch untouched |
| ExportDialog.FetchStep | frontend/src/components/persona/ExportDialog.tsx:33-45 | loading ends false; success stores the status and clears the error; failure keeps the old status and shows "Failed to check export status" |
| ExportDialog.OpenStep | frontend/src/components/persona/ExportDialog.tsx:25-31 | opening clears success and ends loading; the error is set exactly when the status fetch fails; the status is the fetched one, or the old one on failure; `isExporting` and the format are kept |
| ExportDialog.ExportIdOf | frontend/src/components/persona/ExportDialog.tsx:56 | a numeric id is kept; any other id is `parseInt(String(id))`, absent when NaN |
| ExportDialog.OwnExportIds | frontend/src/components/persona/ExportDialog.tsx:55-57 | one persona contributes nothing exactly when its id is NaN, and otherwise its one number |
| ExportDialog.ExportIds | frontend/src/components/persona/ExportDialog.tsx:55-57 | never more ids than personas |
| ExportDialog.ExportIdsMembers | frontend/src/components/persona/ExportDialog.tsx:55-57 | the ids sent are exactly the numbers of the personas whose id is not NaN |
| ExportDialog.ExportIdsDistributes | frontend/src/components/persona/ExportDialog.tsx:55-57 | the ids are computed persona by persona: the ids of a concatenation are the concatenation of the parts' ids, so order and repeats are kept |
| ExportDialog.ExportIdsOne | frontend/src/components/persona/ExportDialog.tsx:55-57 | a single persona gives its own number, or nothing when it is NaN |
| ExportDialog.ExportIdsOfNaN | frontend/src/components/persona/ExportDialog.tsx:55-57 | personas whose ids are all NaN give no ids |
| ExportDialog.ExportIdsOfServerPersonas | frontend/src/components/persona/ExportDialog.tsx:55-57 | personas with numeric ids are all sent, in order |
| ExportDialog.NumeralIdIsSent | frontend/src/components/persona/ExportDialog.tsx:56 | a string id that is a decimal numeral is sent as its number |
| ExportDialog.BatchIdIsNaN | frontend/src/components/persona/ExportDialog.tsx:56 | a generated id `persona-...` parses to NaN |
| ExportDialog.GeneratedPersonasHaveNoExportIds | frontend/src/components/persona/ExportDialog.tsx:55-61 | the personas of a search yield no export id |
| ExportDialog.ErrorText | frontend/src/components/persona/ExportDialog.tsx:93 | `detail.message` of the response if truthy, then the error's message, then "Export failed" |
| ExportDialog.NoValidIdsError | frontend/src/components/persona/ExportDialog.tsx:59-61 | the error thrown when no id is left is shown as "No valid persona IDs to export" |
| ExportDialog.RateLimitShowsServerMessage | src/routers/export.py:286-292 | the server's 429 detail dict reaches the dialog as its "Export limit reached..." message |
| ExportDialog.BadRequestShowsDetail | src/routers/export.py:296 | a 400 with a string detail is shown as that detail, through the response interceptor |
| ExportDialog.ExportStep | frontend/src/components/persona/ExportDialog.tsx:47-98 | without `can_export` or with no personas nothing happens; ids are sent exactly when some remain; no ids gives the no-ids error; a failure shows `ErrorText`; a download sets success and refetches the status; exporting ends false |
| ExportDialog.GeneratedPersonasAreNotExported | frontend/src/components/persona/ExportDialog.tsx:47-61 | exporting the personas of a search sends nothing and shows the no-ids error |
| ExportDialog.ProAccountIsNotShownAsAdmin | frontend/src/components/persona/ExportDialog.tsx:110-111 | a pro user (account type 2) can export, with 999 remaining, but the dialog does not show them as admin |
| ExportDialog.Dialog.constructor | frontend/src/components/persona/ExportDialog.tsx:17-22 | no status, pdf format, nothing loading, no error, no success |
| ExportDialog.Dialog.FetchExportStatus | frontend/src/components/persona/ExportDialog.tsx:33-45 | the new state is `FetchStep` of the old |
| ExportDialog.Dialog.Open | frontend/src/components/persona/ExportDialog.tsx:25-31 | the new state is `OpenStep` of the old |
| ExportDialog.Dialog.HandleExport | frontend/src/components/persona/ExportDialog.tsx:47-98 | new state and ids sent are `ExportStep` of the old state |
| AuthStore.LoggedOut | frontend/src/stores/authStore.ts:36-39 | user and token null, not authenticated; loading and error kept |
| AuthStore.CheckAuthStep | frontend/src/stores/authStore.ts:41-55 | no token: nothing changes; success sets the user and authenticates; failure is the logged-out state; loading ends false |
| AuthStore.Rehydrate | frontend/src/stores/authStore.ts:59-62 | a reload restores only the token: no user, not authenticated |
| AuthStore.ReloadNeedsCheckAuth | frontend/src/stores/authStore.ts:59-62 | after a reload the session is not authenticated until `checkAuth` succeeds, then it is, with the same token |
| AuthStore.FailedCheckIsLogout | frontend/src/stores/authStore.ts:49-51 | a failed check leaves the same logged-out state whatever session it started from |
| AuthStore.Store.constructor | frontend/src/stores/authStore.ts:23-27 | no user, no token, not authenticated, not loading, no error |
| AuthStore.Store.SetToken | frontend/src/stores/authStore.ts:29-32 | the token is stored in the store and in browser storage and the session is authenticated |
| AuthStore.Store.SetUser | frontend/src/stores/authStore.ts:34 | only the user changes |
| AuthStore.Store.Logout | frontend/src/stores/authStore.ts:36-39 | the state is `LoggedOut` of the old and the stored token is removed |
| AuthStore.Store.CheckAuth | frontend/src/stores/authStore.ts:41-55 | the new state is `CheckAuthStep` of the old; the stored token is removed exactly when a held token fails the check |
| AuthStore.Store.SetError | frontend/src/stores/authStore.ts:57 | only the error changes |
| AuthDialog.ResetForm | frontend/src/components/auth/AuthDialog.tsx:32-39 | fields emptied, error nulled, step back to details; open state, mode and loading kept |
| AuthDialog.OpenChange | frontend/src/components/auth/AuthDialog.tsx:41-46 | closing resets the form but not the mode; opening changes only the open state |
| AuthDialog.ToggleMode | frontend/src/components/auth/AuthDialog.tsx:104-107 | the mode flips and the form is reset |
| AuthDialog.ToggleTwice | frontend/src/components/auth/AuthDialog.tsx:104-107 | toggling twice gives back the mode with the form reset |
| AuthDialog.ErrorText | frontend/src/components/auth/AuthDialog.tsx:73 | the error's message when not empty, else the fallback |
| AuthDialog.SignIn | frontend/src/components/auth/AuthDialog.tsx:55-59 | the token is set and the profile requested; with the profile the user is set and the dialog closes; without it the error is shown and the token stays |
| AuthDialog.SubmitStep | frontend/src/components/auth/AuthDialog.tsx:48-77 | login calls login first; sign-up details calls only signup and moves to the OTP step without a session; the OTP step calls verify first; when login or verify succeeds the token is stored and `/auth/me` called, and a user that loads closes the dialog with the form reset, while a failing `/auth/me` leaves no user and shows its error; any failure keeps mode and step and shows the error; loading ends false |
| AuthDialog.GoogleStep | frontend/src/components/auth/AuthDialog.tsx:79-97 | with neither credential nor access token no call is made; otherwise the Google call comes first; on success the token is stored and `/auth/me` called, a loaded user closes the dialog with the form reset and a failure shows "Google login failed" or its message; a failed Google call stores nothing and makes no other call |
| AuthDialog.GoogleWithoutTokenMakesNoCall | frontend/src/components/auth/AuthDialog.tsx:84-91 | an empty Google response makes no call |
| AuthDialog.SignupFlow | frontend/src/components/auth/AuthDialog.tsx:61-70 | sign-up details moves to the OTP step with no token; the OTP step then sets the token and user and closes |
| AuthDialog.ProfileFailureKeepsToken | frontend/src/components/auth/AuthDialog.tsx:55-59 | a login whose profile load fails leaves the token set while the dialog shows the error |
| AuthDialog.ApplySession | frontend/src/components/auth/AuthDialog.tsx:56-58 | `setToken` then `setUser` on the session: token and authentication when a token is given, the user when one is given |
| AuthDialog.Dialog.constructor | frontend/src/components/auth/AuthDialog.tsx:19-28 | login mode, details step, empty fields, not loading, no error |
| AuthDialog.Dialog.Apply | frontend/src/components/auth/AuthDialog.tsx:56-59 | the dialog takes the outcome's state and the session `ApplySession` of the old |
| AuthDialog.Dialog.HandleSubmit | frontend/src/components/auth/AuthDialog.tsx:48-77 | dialog, session and calls are those of `SubmitStep` |
| AuthDialog.Dialog.HandleGoogleSuccess | frontend/src/components/auth/AuthDialog.tsx:79-97 | dialog, session and calls are those of `GoogleStep` |
| AuthDialog.Dialog.HandleGoogleError | frontend/src/components/auth/AuthDialog.tsx:101 | only the error changes, to "Google Login Failed" |
| AuthDialog.Dialog.HandleOpenChange | frontend/src/components/auth/AuthDialog.tsx:41-46 | the new state is `OpenChange` of the old |
| AuthDialog.Dialog.HandleToggleMode | frontend/src/components/auth/AuthDialog.tsx:104-107 | the new state is `ToggleMode` of the old |
| Api.WithAuthorization | frontend/src/lib/api.ts:20-27 | a stored non-empty token sets `Authorization: Bearer <token>`; other headers are kept; without a token the headers are unchanged |
| Api.InterceptRequest | frontend/src/lib/api.ts:20-27 | the headers sent are `WithAuthorization` of the stored token |
| Api.AuthorizationIffToken | frontend/src/lib/api.ts:20-24 | a request carries an Authorization header exactly when a token is stored, and then it is that token |
| Api.ClassifiedMessage | frontend/src/lib/api.ts:40-48 | aborted gives the timeout text whatever the status; then 500 the server text; 400 the detail or "Invalid request"; no response the network text; any other status keeps the message |
| Api.ClassifiedMessageSources | frontend/src/lib/api.ts:40-48 | the message is a fixed text, a 400's detail or the original; a 401 keeps the original |
| Api.ClassifyIsIdempotent | frontend/src/lib/api.ts:40-48 | classifying an already classified error changes nothing |
| Api.InterceptError | frontend/src/lib/api.ts:32-51 | a 401 removes the stored token, other statuses keep it; the error is always rejected, with its classified message |
| Api.GenerateResult | frontend/src/lib/api.ts:88-92 | a success exactly when `success` is truthy, giving `data`; otherwise an error with the server's message or "Failed to generate personas" |
| Generator.ListFieldsAreRequired | src/generator.py:54-59 | every list field is among the required fields |
| Generator.FirstMissing | src/generator.py:68-70 | absent exactly when every key is present; otherwise a key that is missing |
| Generator.FirstNonList | src/generator.py:89-92 | absent exactly when every list field is a list; otherwise one that is not |
| Generator.CheckFields | src/generator.py:73-92 | no error exactly when demographics, status, tech_comfort and the six lists are valid |
| Generator.CheckPersona | src/generator.py:63-92 | no error exactly when the persona is valid by the reference definition |
| Generator.CheckPersonasFrom | src/generator.py:63-92 | no error exactly when every persona from the position on is valid |
| Generator.FirstError | src/generator.py:44-92 | the checks run in the code's order: a non-object document, then a missing "personas", then a non-list "personas", and only then the personas' own errors |
| Generator.FirstErrorIsNoneIffValid | src/generator.py:44-92 | the checks raise nothing exactly for the documents of the reference definition |
| Generator.ParseJson | src/generator.py:39-103 | a valid document comes back unchanged; malformed JSON, a non-object, a missing or non-list `personas` or any invalid persona gives {} |
| Generator.OneBadPersonaRejectsAll | src/generator.py:63-103 | one invalid persona anywhere gives {} |
| Generator.ListElementsUnchecked | src/generator.py:88-92 | the list fields' element types are not checked |
| MainEndpoint.Len | src/main.py:61 | Python's `len`: defined exactly on lists, strings and dicts |
| MainEndpoint.Endpoint | src/main.py:44-68 | every error is a 500 "Error generating personas: ...", blank text and generator exceptions included; success exactly when the result's `personas` has a `len`, and then the data is returned unchanged with the count; otherwise success false with {} |
| MainEndpoint.EndpointOverValidator | src/main.py:49-62 | over the validator, non-blank text always answers 200, with success exactly when the document is valid |
| MainEndpoint.BlankTextIs500 | src/main.py:44-68 | the 400 for blank text is re-raised as a 500 |
| ChatRouter.CreateConversationStep | src/routers/chat.py:17-28 | a new conversation of the user with a fresh id, titled "New Conversation" when the title is missing or empty, appended to the table |
| ChatRouter.ListConversations | src/routers/chat.py:30-35 | exactly the user's own conversations |
| ChatRouter.OwnedConversation | src/routers/chat.py:43-44 | found exactly when the conversation exists and the user owns it |
| ChatRouter.SendMessageStep | src/routers/chat.py:59-155 | 404 exactly when the conversation is missing or foreign, and then nothing changes; 500 exactly for an owned conversation whose generation raised or one of whose personas the database refuses; otherwise an assistant reply in that conversation; with an owned conversation the user's message is stored after the earlier ones; users, OTPs and payments never change |
| ChatRouter.RefusedMeansNotOwned | src/routers/chat.py:43-44 | with unique ids, a refusal means no conversation with that id belongs to the user |
| ChatRouter.GetConversation | src/routers/chat.py:37-46 | 404 exactly when not owned; otherwise the user's conversation with that id |
| ChatRouter.MessagesOf | src/routers/chat.py:57 | exactly the messages of the conversation |
| ChatRouter.GetMessages | src/routers/chat.py:48-57 | 404 exactly when not owned; otherwise the conversation's messages |
| ChatRouter.ValidPersonaHasShape | src/routers/chat.py:98-139 | a persona the validator accepts has every key the route reads, and its six lists are lists |
| ChatRouter.PersonaList | src/routers/chat.py:85-98 | the validated document's personas, or [] when validation failed |
| ChatRouter.SaveLists | src/routers/chat.py:123-139 | the six list loops only append rows, all for the persona |
| ChatRouter.SaveDemographics | src/routers/chat.py:113-121 | a demographics row, age as `str()`, exactly when `demographics` is a dict; otherwise nothing |
| ChatRouter.SavePersona | src/routers/chat.py:98-141 | one persona row with a fresh id, its demographics row and its list rows; no other table changes |
| ChatRouter.PersonaRowFor | src/routers/chat.py:99-107 | the row links the persona to the message and user, copies name, status, role and tech_comfort, and takes `scenario_context` or "" when it is missing |
| ChatRouter.AssistantContentInjective | src/routers/chat.py:85-86 | the reply "Generated N personas based on your request." determines N: different counts give different texts |
| ChatRouter.Touch | src/routers/chat.py:143-146 | only the conversation's `last_message_at` moves to now; every other field and every other conversation is kept |
| ChatRouter.SavePersonas | src/routers/chat.py:98-141 | one persona row per persona, in order, each linked to the message and user; row links kept |
| ChatRouter.SendRequiresOwnership | src/routers/chat.py:66-68 | sending to a missing or foreign conversation answers 404 and stores nothing |
| ChatRouter.FailedGenerationKeepsUserMessage | src/routers/chat.py:70-155 | a failed generation answers 500 and keeps the committed user message; nothing else is stored |
| ChatRouter.GenerationStoresReply | src/routers/chat.py:79-149 | when the database accepts every persona: the user message, then the assistant's "Generated N personas..." message, then one persona per persona linked to it; only then is `last_message_at` moved; users, OTPs and payments are unchanged |
| ChatRouter.SaveListsNumbers | src/routers/chat.py:123-139 | the rows the loops add for each list are that list's elements numbered 0, 1, ... |
| ChatRouter.SaveListNumbers | src/routers/chat.py:123-124 | one list loop numbers its elements from 0 |
| ChatRouter.SavePersonaKeepsLinked | src/routers/chat.py:98-141 | every demographics and list row still belongs to a stored persona |
| ChatRouter.FreshPersonaHasNoRows | src/routers/chat.py:108-110 | the id a new persona gets has no rows yet |
| ChatRouter.ExpectedExport | src/routers/chat.py:98-139 | the reference export of a generated persona: its values, each list as given, demographics with age as a string |
| ChatRouter.SavedListsExport | src/routers/chat.py:123-139 | the six lists of a saved persona export in their original order, whatever order the rows are read in |
| ChatRouter.SavedDemographicsExport | src/routers/chat.py:113-121 | the demographics of a saved persona export as the generator's dict |
| ChatRouter.SavedPersonaExports | src/routers/chat.py:98-141 | a saved persona exports exactly its reference export |
| ChatRouter.SavePersonaKeepsExports | src/routers/chat.py:98-141 | saving a persona leaves the export of every earlier persona unchanged |
| ChatRouter.SavedPersonasExport | src/routers/chat.py:98-141 | every persona the loop stores exports exactly as the generator returned it |
| ChatRouter.FirstRefused | src/routers/chat.py:98-141 | the position of the first persona the database refuses: every one before it is storable, and it is not |
| ChatRouter.StorePersona | src/routers/chat.py:98-141 | refused exactly when a value does not fit its column; accepted, it is `SavePersona`; refused at the first commit nothing is stored, at the second only the bare persona row |
| ChatRouter.StorePersonas | src/routers/chat.py:98-141 | the loop finishes exactly when every persona is storable; users, OTPs, conversations, messages and payments are untouched |
| ChatRouter.StorePersonasStores | src/routers/chat.py:98-155 | with no refusal the tables are `SavePersonas` of all; otherwise the personas before the first refused one are saved whole and the refused one is left as `StorePersona` leaves it |
| ChatRouter.FirstRefusedOfPrefix | src/routers/chat.py:98 | the first refusal within a prefix is the first refusal overall |
| ChatRouter.RefusedPersonaKeepsCommits | src/routers/chat.py:77-155 | a refused persona answers 500 with the database's error; the user and assistant messages, the earlier personas and possibly the refused persona's bare row stay; `last_message_at` does not move |
| ChatRouter.StoredPrefixExports | src/routers/chat.py:98-141 | tables holding the personas before the first refusal export each of them exactly as generated |
| ChatRouter.ExportsOfExtension | src/routers/export.py:74-97 | more persona rows over the same demographics and list rows leave the shared personas' exports unchanged |
| ChatRouter.SendKeepsSaved | src/routers/chat.py:77-155 | after `send_message` the personas before the first refusal are stored whole: their rows, demographics and lists |
| ChatRouter.SendReturned | src/routers/chat.py:79-155 | a returned generation runs the persona loop after the two messages and answers 200, moving `last_message_at`, only when nothing was refused |
| ChatRouter.StoreKeepsSaved | src/routers/chat.py:98-141 | the loop's tables hold the personas before the first refusal as `SavePersonas` stores them |
| ChatRouter.CreateConversation | src/routers/chat.py:17-28 | the database and the reply are `CreateConversationStep` of the old tables |
| ChatRouter.StageList | src/routers/chat.py:123-124 | the staged rows are one list's elements with `order_index` 0, 1, ... |
| ChatRouter.AddPersona | src/routers/chat.py:98-141 | the database and the refusal flag are `StorePersona` of the old tables |
| ChatRouter.StageLists | src/routers/chat.py:123-139 | the list rows are `SaveLists` of the old rows |
| ChatRouter.SendMessage | src/routers/chat.py:59-155 | the database and reply are `SendMessageStep` of the old tables |
| ChatRouter.AddPersonas | src/routers/chat.py:98-141 | the database and the refusal flag are `StorePersonas` of the old tables |
| ChatRouter.StorePersonasSnoc | src/routers/chat.py:98-141 | while nothing is refused, one more pass of the loop is `StorePersona` of the tables so far |
| ChatRouter.StorePersonasRefusedPrefix | src/routers/chat.py:98-155 | once a commit is refused, the remaining personas are never stored |
| ExportRouter.CheckEligibility | src/routers/export.py:31-55 | account type >= 1 gives (true, -1, none); a free user who never exported gives (true, 1, none); otherwise eligible exactly from 30 days after the last export, and then (true, 1, none), else (false, 0, that date) |
| ExportRouter.GetExportStatus | src/routers/export.py:58-71 | `can_export` and `next_export_available` are the eligibility rule's; the remaining count is 999 exactly for unlimited accounts, and for a free user the rule's count, 1 when it may export and 0 otherwise; the next date is absent exactly when it may export, else 30 days after the last export |
| ExportRouter.FreeExportWindow | src/routers/export.py:41-55 | a free user who exported at `at` is refused until 30 days later and admitted from then on |
| ExportRouter.SortByOrder | src/routers/export.py:77 | a stable sort by `order_index`: sorted and a permutation |
| ExportRouter.OrderedText | src/routers/export.py:76-77 | `get_ordered_text` returns one text per row, and exactly the rows' texts |
| ExportRouter.SortedPermutationIsUnique | src/routers/export.py:76-77 | a sorted arrangement of rows with distinct keys is unique |
| ExportRouter.EnumerateIsNumbered | src/routers/chat.py:123-139 | the stored rows carry element i at `order_index` i |
| ExportRouter.OrderedTextUndoesNumbering | src/routers/export.py:76-77 | `get_ordered_text` of the numbered rows of a list, in any order, is the list |
| ExportRouter.RowsOf | src/routers/export.py:91-96 | exactly the persona's rows of that list |
| ExportRouter.DemographicsOf | src/routers/export.py:85-90 | the persona's demographics row, absent exactly when it has none |
| ExportRouter.DemographicsJson | src/routers/export.py:85-90 | {} exactly when the persona has no demographics row |
| ExportRouter.Serialize | src/routers/export.py:74-97 | the persona's scalar columns, its demographics and each of its lists ordered by `order_index` |
| ExportRouter.Selected | src/routers/export.py:299-304 | exactly the user's personas among the requested ids |
| ExportRouter.SerializeAll | src/routers/export.py:311 | each selected persona serialised, in order |
| ExportRouter.ExportPersonas | src/routers/export.py:275-350 | an ineligible user gets 429 with the next date; then a bad format gets 400; then 404 exactly when fewer personas match than ids were sent; refusals change nothing; a success serialises the selection, at least one persona per id, and stamps `last_export_at` |
| ExportRouter.LimitCheckedBeforeFormat | src/routers/export.py:283-296 | an ineligible user gets 429 whatever format they ask for |
| ExportRouter.ExportedIdsAreOwnedAndDistinct | src/routers/export.py:299-308 | a successful export asked for distinct ids, each one a persona of the user |
| ExportRouter.SelectedCoversIds | src/routers/export.py:299-308 | a selection as long as the request means distinct requested ids, each owned |
| ExportRouter.RefusedWithinWindow | src/routers/export.py:283-292 | a free user within 30 days of an export is refused with the date the window reopens, and nothing changes |
| ExportRouter.ExportStartsTheWindow | src/routers/export.py:321-326 | after a free user's export, the next one is refused for 30 days |
| ExportRouter.ExportPersonasRoute | src/routers/export.py:275-350 | the database and the reply are `ExportPersonas` of the old tables |
| AuthRouter.SignupStep | src/routers/auth.py:18-49 | a registered email gives 400 and no change; otherwise the fixed message, and the new tables are the old ones with one user and one OTP appended and nothing else changed; the user has a fresh id, the email, name and password hash, provider "email", is unverified on a free account created now; the OTP has a fresh id, belongs to that user, carries the code and expires 10 minutes from now |
| AuthRouter.FindOtp | src/routers/auth.py:58-63 | finds an OTP of the user with the code that has not expired, absent exactly when none exists |
| AuthRouter.VerifyOtpStep | src/routers/auth.py:51-77 | unknown email gives 404 "User not found"; a known user without a matching unexpired OTP gives 400 "Invalid or expired OTP"; success exactly when a matching unexpired OTP exists, and then the new tables are the old ones with that user verified and that OTP deleted, nothing else changed; errors change nothing |
| AuthRouter.Login | src/routers/auth.py:79-89 | a token exactly when the user exists, has a password hash that verifies, and is verified; otherwise 401 with "Email not verified. Please verify OTP." exactly when the credentials match, else "Incorrect email or password" |
| AuthRouter.GoogleLoginStep | src/routers/auth.py:91-123 | an invalid token gives 400 and no change; otherwise a token for the email; an unknown email appends one user, with the next id, verified, provider "google", no password, a free account, created now, and nothing else changes; for an existing email only that user changes, verified if its provider is "email" |
| AuthRouter.SignupKeepsValid | src/routers/auth.py:18-49 | sign-up keeps ids and emails unique and every OTP linked to a user |
| AuthRouter.VerifyOtpKeepsValid | src/routers/auth.py:51-77 | verification keeps the database constraints |
| AuthRouter.GoogleLoginKeepsValid | src/routers/auth.py:91-123 | Google login keeps the database constraints |
| AuthRouter.SignupThenLoginIsRefused | src/routers/auth.py:85-86 | a new sign-up cannot log in before it is verified, whatever password it gives |
| AuthRouter.SignupThenVerify | src/routers/auth.py:38-66 | the code a sign-up sends verifies the account exactly while it is unexpired (10 minutes) |
| AuthRouter.VerifiedThenLoginOnce | src/routers/auth.py:68-89 | once verified the user logs in with the password, and the same code is refused |
| AuthRouter.VerifiedSignupTables | src/routers/auth.py:68-73 | after sign-up and verification the user is verified and the code is consumed |
| AuthRouter.SignupFacts | src/routers/auth.py:18-49 | after signing up a new address the user row is the last one and found by its email, the OTP is appended for it, and no earlier OTP belongs to its fresh id |
| AuthRouter.FindOnlyOtp | src/routers/auth.py:57-63 | the query finds a user's only OTP exactly while it is unexpired |
| AuthRouter.Signup | src/routers/auth.py:18-49 | the database and reply are `SignupStep` of the old tables |
| AuthRouter.VerifyOtp | src/routers/auth.py:51-77 | the database and reply are `VerifyOtpStep` of the old tables |
| AuthRouter.GoogleLogin | src/routers/auth.py:91-123 | the database and reply are `GoogleLoginStep` of the old tables |
| PaymentsRouter.PlanAccountType | src/routers/payments.py:108-114 | plus and lifetime give 1, pro gives 2, and anything else gives 0 |
| PaymentsRouter.SubscriptionExpiry | src/routers/payments.py:124-130 | lifetime expires 2125-01-01 UTC; every other plan 30 days from now |
| PaymentsRouter.FindPayment | src/routers/payments.py:97-99 | a payment row with that order id, absent exactly when there is none |
| PaymentsRouter.VerifyPaymentStep | src/routers/payments.py:86-138 | a bad signature gives 400 and no change; otherwise the user is upgraded and made active, the payment row marked paid if it exists and the payments left alone if not, and no other table changes |
| PaymentsRouter.PaidPlansExportWithoutLimit | src/routers/payments.py:108-114 | after any paid plan the user exports without limit |
| PaymentsRouter.UnknownPlanDowngrades | src/routers/payments.py:108-119 | an unknown plan verifies but sets the account to free, so a recent exporter is refused |
| PaymentsRouter.VerifyPayment | src/routers/payments.py:80-140 | the database and reply are `VerifyPaymentStep` of the old tables |
| Tables.FindUserByEmail | src/routers/auth.py:21 | the row with that email, absent exactly when there is none |
| Tables.FindConversation | src/routers/chat.py:43 | `session.get(Conversation, id)`: the row with that id, absent exactly when there is none |
| Tables.Enumerate | src/routers/chat.py:123-139 | one row per element, element i at `order_index` i, for the persona and list |
| JsValues.ParseIntOfDigits | frontend/src/components/persona/ExportDialog.tsx:56 | `parseInt` of a decimal numeral is its value |
| JsValues.ParseIntOfNonNumeric | frontend/src/components/persona/ExportDialog.tsx:56 | `parseInt` of text starting with a letter is NaN |
| JsValues.ParseInt | frontend/src/components/persona/ExportDialog.tsx:56 | `parseInt` gives NaN unless the text holds a digit, and a negative number only when it holds a '-' |
| Strings.Trim | frontend/src/components/chat/ChatInterface.tsx:29 | `.trim()`: drops leading and trailing whitespace, keeps the text between, empty exactly for all-whitespace text |
| Strings.TrimIdempotent | frontend/src/components/persona/InlineEditor.tsx:59 | trimming twice equals trimming once |

## Left out

- Rendering: JSX, layout, scrolling, textarea height and focus. The files that only compose views are not part of this model.
- Timers: the download cleanup, the export dialog's auto-close after 1500 ms, and the inline editor's blur-save after 150 ms. The blur races are not modelled either.
- The download itself: Blob URLs and the anchor click.
- Concurrency: the un-awaited `fetchConversations()` after a send can race `isLoading`. The model runs each action to completion.
- ChatStore.Store.SendMessage: the follow-up `fetchConversations()` (frontend/src/stores/chatStore.ts:102) is not modelled.
- Console logging and `print` calls.
- Two functions are opaque and left out: `generate_pdf` (reportlab) and `generate_personas` (the language-model call). `ChatRouter` takes the generator's decoded output, or its exception, as a parameter.
- Password hashing, JWT signing and Google token verification are parameters; `src/auth.py` and `src/dependencies.py` are not part of this model.
- The OTP e-mail and the database engine are left out; sessions are snapshots of in-memory tables.
- The database's type coercion is not modelled. Columns hold the JSON values as they came; only `str()` of the age is written out. Which values a commit refuses is modelled (`ChatRouter.Storable`): a dict or a list in a text column, and `None` in a NOT NULL one. The driver's error text is the parameter `dbError`.
- `PyStr` renders Python containers only approximately; only the age's `str()` depends on it.
- Checkout is left out: `create_order` and the pricing page float amounts. The payment signature check is a boolean parameter.
- `GET /auth/me` is left out. `AuthStore` takes its outcome as a parameter.
- Persona version derivation and selection are left out; no file implements them.
- `ConversationEntry.output` is left out.
- Dates are integers; ISO serialisation and time zones are left out.
- JavaScript arrays are read only through the operations used here. Numeric-index property access, spreading strings and arrays, and floating-point numbers are not modelled.
- JsValues.ParseInt: only non-negative decimal numerals and text starting with a non-digit are covered by lemmas. Signs and hexadecimal prefixes are modelled in the function without lemmas.
- InlineEditor.Editor: the `value` prop is fixed for the life of an editor. The effect that resets the draft when the prop changes (frontend/src/components/persona/InlineEditor.tsx:37-39) is not modelled.
- InlineEditor.UpdateItem: requires the index to be in range. The source's array assignment past the end, which grows the array with holes, is not modelled.
- AuthDialog.ErrorText: a null and an undefined message are the same absent value.
- Tables: the six list tables are one table of rows tagged with their list kind. Item ids are consecutive.
- Payments: src/models.py declares no `Payment` table and no `subscription_*` fields on `User`, although src/routers/payments.py:11 imports `Payment`. The model gives them the shape the route uses.
- The request body schemas (`ExportRequest` and others) are reduced to the fields the routes read.
- Export client types: frontend/src/components/persona/ExportDialog.tsx:5-6 imports `exportAPI` and `ExportStatus`, which frontend/src/lib/api.ts and frontend/src/types/persona.ts do not define. An error response whose body is a Blob is not modelled; the detail is read as JSON.
- Google login for a token without an email is not modelled. `GoogleIdentity` always carries an email.
- Api.GenerateResult: a `null` or `undefined` response body, on which reading `success` throws a TypeError (frontend/src/lib/api.ts:88), is read as a body without `success` and gives the "Failed to generate personas" failure.
- AuthRouter.Login: the password check is a parameter `verify`; the model states only when a token is issued, not how the hash is checked.
