# Tools: a verified model of the request handlers

The repository is a set of small Express applications. This project models
the in-memory data handling behind their HTTP and socket handlers, and
proves properties of that model. The JSON files the applications read and
write become maps and sequences held in state. Every library call becomes a
parameter of the operation that makes it: the model server, Docker,
nodemailer, bcrypt, uuid, the clock and `encodeURIComponent`.

| module | file | models |
|---|---|---|
| `Common` | common.dfy | `Option`, `x \|\| d`, `x ?? d`, `findIndex`, `filter`, `map` |
| `Strings` | strings.dfy | `trim`, `split`, `join`, `startsWith`, ASCII `toLowerCase`, `String(n)`, and the comma-list chain `split(',').map(trim).filter(...)` |
| `ChatStream` | ai_stream.dfy | AI/app.js: the relay of the model server's newline-delimited JSON stream in `send_message` |
| `ChatServer` | ai_server.dfy | AI/app.js: the token quota, the system prompt, the chat store, the daily reset, the admin routes and `/api/userinfo` |
| `NotesStore` | notes_js.dfy | Notes-JS/app.js: registration, settings, and the notes API with tags, images, pinning and the ordered listing |
| `NodeNotes` | node_js.dfy | Node-JS/app.js: registration and the notes routes |
| `NoteFormat` | node_format.dfy | Node-JS/app.js: the content formatter of `getNotesHTML` |
| `NoteUpdates` | note_updates.dfy | how the update routes of the two note apps differ |
| `VmProvisioning` | vm_js.dfy | VM-JS/app.js: the derivations of `/create-vm` and the `configs`/`logs` dictionaries |
| `HtmlGenerator` | html_generator.dfy | Html_Generator-JS/app.js: the element editor, the preview HTML and the saved designs |
| `MailSend` | html_mail.dfy | HTML_Mail-JS/app.js: the recipient list and the mail options of `/send` |

A few modelling choices hold throughout:

- Code that mutates state becomes a class with `modifies` clauses:
  - the AI server, the note apps, the VM registry, the page editor and the
    design store.
- Code that accumulates a value in a loop becomes a method with a loop
  proved against a specification function:
  - the stream relay, the port bindings, the preview and the daily reset.
- The install script is built by straight-line appends, as in the source.
  It becomes a method without a loop, proved against the specification
  function `Script`.
- Pure expression chains become functions:
  - tag and recipient parsing, the sort comparator, the formatter, the
    container name and the resource arithmetic.

## Model

| member | source | states |
|---|---|---|
| Common.FindIndex | Notes-JS/app.js:458 | the first index satisfying the predicate, or -1 exactly when none does |
| Common.Filter | Notes-JS/app.js:495 | keeps exactly the elements satisfying the predicate, as a sub-multiset |
| Common.FilterAppend | Node-JS/app.js:465 | filtering distributes over concatenation, so order is kept |
| Strings.TrimStart | Notes-JS/app.js:438 | a suffix of the input: only whitespace is dropped, and the result does not start with whitespace |
| Strings.TrimEnd | Notes-JS/app.js:438 | a prefix of the input: only whitespace is dropped, and the result does not end with whitespace |
| Strings.Trim | Notes-JS/app.js:438 | the result is a slice of the input with only whitespace before and after it; it has no whitespace at either end, is empty exactly when the input is blank, and an already trimmed string is unchanged |
| Strings.Split | HTML_Mail-JS/app.js:83 | one more piece than separators, and no piece holds the separator |
| Strings.Join | HTML_Mail-JS/app.js:87 | `parts.join(sep)`; its properties are `JoinSplit`, `SplitJoin` and `CommaListJoin` |
| Strings.JoinSplit | HTML_Mail-JS/app.js:83 | joining the pieces with the separator gives the string back |
| Strings.SplitJoin | HTML_Mail-JS/app.js:87 | splitting separator-free pieces joined by the separator gives the pieces back |
| Strings.CommaList | Notes-JS/app.js:438 | `split(',').map(trim).filter(...)`; its properties are the four lemmas below |
| Strings.CommaListEntries | Notes-JS/app.js:438 | every entry of a comma list is non-empty, has no surrounding whitespace and holds no comma |
| Strings.CommaListMembership | Node-JS/app.js:416 | a string is an entry exactly when it is non-empty and the trim of one comma-separated piece |
| Strings.CommaListAppend | HTML_Mail-JS/app.js:83 | the list of `a,b` is the list of `a` followed by the list of `b` (input order is kept) |
| Strings.CommaListJoin | HTML_Mail-JS/app.js:87 | listing well-formed entries joined by `", "` gives the entries back |
| Strings.ToLower | Notes-JS/app.js:388 | same length, lower-cased character by character |
| Strings.NatToStringInjective | Html_Generator-JS/app.js:225 | different indices render as different decimal strings |
| ChatStream.ChunkLines | AI/app.js:383 | a line is kept exactly when it is a non-blank piece of the chunk; kept lines hold no line feed |
| ChatStream.ChunkLinesAppend | AI/app.js:383 | the lines of two pieces joined by a line feed are those of the first then those of the second |
| ChatStream.Decode | AI/app.js:383-386 | every decoded line of the stream, chunk after chunk; related to the relay loop by `RelayStream` |
| ChatStream.Step | AI/app.js:386-423 | the text and the event list only grow, by at most one token, and a token is counted exactly when the text grows |
| ChatStream.Run | AI/app.js:379-423 | the relay from `fullResponse = ''` and `tokenCount = 0`; its results are stated by `RunText`, `StreamedAreCumulative` and `CompletionsPerDone` |

| ChatStream.RunText | AI/app.js:389-391 | `fullResponse` is the concatenation of the non-empty fragments and `tokenCount` their number |
| ChatStream.StreamedAreCumulative | AI/app.js:393-396 | the k-th `message_streaming` carries the first k+1 fragments joined, not the fragment |
| ChatStream.CompletionsPerDone | AI/app.js:399-422 | one `message_completed` per `done` line; when the last line is a `done`, the last completion carries the whole text and token count |
| ChatStream.RunEventsPrefix | AI/app.js:386-423 | relaying more lines only appends events |
| ChatStream.CompletionsPrefix | AI/app.js:399-422 | the completions after some of the lines are the first ones after all of them |
| ChatStream.CompletionAt | AI/app.js:399-421 | the completion of the `done` at position `i` is numbered by the `done` lines up to `i` and carries the text and token count up to and including that line |
| ChatStream.CompletionsCarryTheirDone | AI/app.js:399-421 | every `message_completed` carries the text and token count up to and including its own `done` |
| ChatStream.NoDoneNoCompletion | AI/app.js:399 | without a `done` line nothing completes |
| ChatStream.ObjectSplitAcrossChunksIsLost | AI/app.js:383-426 | an object cut by a chunk boundary is two unparseable lines and is lost; in one chunk it is relayed |
| ChatStream.RelayLine | AI/app.js:389-423 | one line's effect equals the step function of the relay |
| ChatStream.RelayChunk | AI/app.js:385-427 | the chunk loop equals running the relay over the chunk's decoded lines |
| ChatStream.RelayStream | AI/app.js:382-428 | the whole relay equals running over all decoded lines; the text is the joined fragments and the tokens their count |
| ChatServer.TokensUsed | AI/app.js:344 | a missing `tokens_used_today` counts as 0 |
| ChatServer.QuotaExceeded | AI/app.js:344-345 | the refusal test, used at least the limit; `TokensRemaining` and `ResetLiftsQuota` state what it means |
| ChatServer.TokensRemaining | AI/app.js:286 | remaining plus used is the limit; nothing remains exactly when a message would be refused |
| ChatServer.Charged | AI/app.js:413 | usage becomes the value read before the request plus the reply's tokens; no other field changes |
| ChatServer.SystemPrompt | AI/app.js:355-358 | the configured prompt (or `''`), followed by the personal header and prompt exactly when the personal prompt is non-empty |
| ChatServer.ChatKey | AI/app.js:362 | `${user}_${chatId}`: the user and `_` in front, then the chat id |
| ChatServer.StoredOrEmpty | AI/app.js:445 | the stored record, or one with no messages when the key is unknown |
| ChatServer.Committed | AI/app.js:404-409 | the old messages, the user turn, then one assistant turn per completion; nothing else changes |
| ChatServer.SingleDoneCommit | AI/app.js:362-411 | with one final `done`, the saved history gains exactly the user turn and one assistant turn with the whole text and its stats |
| ChatServer.SummaryOf | AI/app.js:453-457 | the listed name is the stored name or `Chat <id>`, and `updatedAt` falls back to the clock |
| ChatServer.ListedIdAsWritten | AI/app.js:451 | the listed id is the second `_`-separated piece of the key |
| ChatServer.ChatListAsWritten | AI/app.js:448-449 | lists exactly the keys that start with `${user}_` |
| ChatServer.ListedIdWithoutUnderscores | AI/app.js:451 | without `_` in user name and chat id, the listed id is the chat id |
| ChatServer.ListedIdMisparsed | AI/app.js:451 | the chat `ab12cd34` of the user `max_m` is listed with the id `m` |
| ChatServer.ListLeaksOtherUser | AI/app.js:449 | the list of `max` holds a chat of `max_m` |
| ChatServer.ChatList | AI/app.js:448-458 | lists exactly the stored keys the user owns, each with the id that follows `${user}_` |
| ChatServer.ChatListExact | AI/app.js:448-458 | a chat of the user is listed exactly when stored, under its own id |
| ChatServer.OwnsKeyUnique | AI/app.js:449 | no key is listed for two users |
| ChatServer.ListKeepsOtherUserOut | AI/app.js:449 | the list of `max` does not hold the chat of `max_m` |
| ChatServer.ChatListsAgree | AI/app.js:448-458 | when neither the user name nor a listed chat id holds `_`, the list as written and the corrected list are the same |
| ChatServer.ResetAll | AI/app.js:152-154 | every user's usage becomes 0, no other field and no user changes |
| ChatServer.ResetIdempotent | AI/app.js:152-154 | resetting twice is resetting once |
| ChatServer.ResetLiftsQuota | AI/app.js:152-154 | after the reset a user is refused only when the limit itself is not positive |
| ChatServer.Server.SendMessage | AI/app.js:327-438 | refusals without a model request (a missing or empty session user, an unknown user, the quota reached); the request sent; the relayed events; commit and charge only when some `done` arrived |
| ChatServer.Server.RelayAndCommit | AI/app.js:379-432 | the stream callbacks: the relayed events, then an error event after a stream error; with some `done`, the record gains the user turn and one assistant turn per `done`, and usage is charged the token count of the last `done` |
| ChatServer.Server.LoadChat | AI/app.js:440-465 | nothing for a missing or empty session user; otherwise the stored or empty record and the user's chat list |
| ChatServer.Server.CreateChat | AI/app.js:467-483 | nothing and no change for a missing or empty session user; otherwise a new empty record named "Neuer Chat" under the first 8 characters of the uuid |
| ChatServer.Server.DeleteChat | AI/app.js:485-496 | nothing and no change for a missing or empty session user; otherwise only a stored key is removed, and only then is `chat_deleted` emitted |
| ChatServer.Server.ResetChat | AI/app.js:498-511 | nothing and no change for a missing or empty session user; otherwise a stored chat keeps its key with no messages and `chat_reset` is emitted |
| ChatServer.Server.ResetDailyTokens | AI/app.js:151-155 | the users map becomes `ResetAll` of the old one; the chats are untouched |
| ChatServer.Server.CreateUser | AI/app.js:220-238 | an existing name gives 400 and no change; otherwise one account with usage 0 and an empty personal prompt is added |
| ChatServer.Server.DeleteUser | AI/app.js:240-251 | an unknown name gives 404 and no change; otherwise exactly that user goes |
| ChatServer.Server.UserInfo | AI/app.js:277-290 | 401 exactly without a session, 500 exactly for an unknown user; remaining plus used tokens is the limit, and nothing remains exactly when messages are refused; the personal prompt or `''` |
| ChatServer.ResetThenLoad | AI/app.js:498-511 | after `reset_chat`, loading gives no messages and keeps the name |
| ChatServer.DeleteThenLoad | AI/app.js:485-496 | after `delete_chat`, loading gives the empty record and the chat is not listed |
| NotesStore.Precedes | Notes-JS/app.js:411 | the comparator's strict order: pinned before unpinned, then newer first; its properties are the lemmas below |
| NotesStore.TagsOr | Notes-JS/app.js:438 | a non-empty tag string gives its comma list of well-formed tags, otherwise the fallback |
| NotesStore.NotPrecedesTransitive | Notes-JS/app.js:411 | the comparator's order is consistent |
| NotesStore.Insert | Notes-JS/app.js:411 | inserting adds exactly one note |
| NotesStore.InsertOrdered | Notes-JS/app.js:411 | inserting into an ordered list keeps it ordered |
| NotesStore.SortNotes | Notes-JS/app.js:411 | the sort is ordered and a permutation |
| NotesStore.Listing | Notes-JS/app.js:409-411 | exactly the caller's notes, ordered, as a permutation of the filtered store |
| NotesStore.ListingPinnedFirst | Notes-JS/app.js:411 | every pinned note is listed before every unpinned one |
| NotesStore.ListingNewestFirst | Notes-JS/app.js:411 | within one pin state, newer notes come first |
| NotesStore.NoteIndex | Notes-JS/app.js:458 | the position of the first of the caller's notes with that id, or -1 exactly when there is none |
| NotesStore.UpdatedNote | Notes-JS/app.js:462-468 | `??` for content and colour, tags re-parsed only from a non-empty string, new images appended, every other field kept |
| NotesStore.RemoveFirst | Notes-JS/app.js:510-512 | removes the first occurrence of the file and keeps the order of the rest |
| NotesStore.PinToggled | Notes-JS/app.js:529 | that note with `isPinned` flipped and every other field kept; no other note changes |
| NotesStore.TogglePinTwice | Notes-JS/app.js:527-529 | toggling the same note twice restores the store |
| NotesStore.WithoutId | Notes-JS/app.js:495 | keeps exactly the notes with another id |
| NotesStore.WithoutIdShrinks | Notes-JS/app.js:480-495 | deleting an existing note shrinks the store |
| NotesStore.WithoutIdSplits | Notes-JS/app.js:495 | deletion keeps the order of the remaining notes |
| NotesStore.HeldByOther | Notes-JS/app.js:388 | true exactly when another user holds the name up to ASCII case |
| NotesStore.OwnNameNeverHeld | Notes-JS/app.js:388 | when no two users share a name up to case, renaming to another case of one's own name is never refused |
| NotesStore.RegistrationValid | Notes-JS/app.js:349 | the first test of `/register`: a name and a password of at least 4 characters; `Register` states what follows from it |
| NotesStore.NameTaken | Notes-JS/app.js:353 | some user holds exactly that name; `Register` refuses exactly then |
| NotesStore.NotesApp.Register | Notes-JS/app.js:347-362 | refuses a missing name or password, a password shorter than 4 and an exact duplicate; otherwise appends one user |
| NotesStore.NotesApp.UpdateSettings | Notes-JS/app.js:375-403 | 404, 403, 409 (case-insensitive name clash) and 400 (short password) refusals change nothing; success writes only the caller's record |
| NotesStore.NotesApp.GetNote | Notes-JS/app.js:418-426 | the first of the caller's notes with that id, as `find` answers, or 404 exactly when there is none |
| NotesStore.NotesApp.CreateNote | Notes-JS/app.js:428-451 | 400 without content; otherwise one unpinned note of the caller, colour defaulting to `#ffffff` |
| NotesStore.NotesApp.UpdateNote | Notes-JS/app.js:453-474 | 404 and no change for a note the caller does not own; otherwise that note becomes `UpdatedNote` |
| NotesStore.NotesApp.DeleteNote | Notes-JS/app.js:476-501 | 404 without an owned note; otherwise every note with that id goes |
| NotesStore.NotesApp.DeleteImage | Notes-JS/app.js:503-523 | 404 for a missing note or file, 500 when unlinking fails; otherwise only that note loses the first occurrence of the file |
| NotesStore.NotesApp.TogglePin | Notes-JS/app.js:525-535 | 404 for a missing note; otherwise the store becomes `PinToggled` and the new state is answered |
| NodeNotes.ParseTags | Node-JS/app.js:416 | well-formed comma-list tags from a non-empty string, `[]` otherwise |
| NodeNotes.UserNotes | Node-JS/app.js:398 | exactly the notes whose owner is the session user |
| NodeNotes.UserNotesAppend | Node-JS/app.js:388 | the listing keeps store order |
| NodeNotes.NoteIndex | Node-JS/app.js:436 | the position of the first of the caller's notes with that id, or -1 exactly when there is none |
| NodeNotes.UpdatedNote | Node-JS/app.js:442-443 | `\|\|` for content, tags replaced by the parsed list (`[]` when none are sent), images kept |
| NodeNotes.WithoutOwned | Node-JS/app.js:465 | keeps exactly the notes that are not the caller's note with that id |
| NodeNotes.WithoutOwnedShrinks | Node-JS/app.js:465-469 | deleting an owned note shrinks the store, so the second 404 never fires |
| NodeNotes.KeepsOthers | Node-JS/app.js:465 | other users' notes are never deleted |
| NodeNotes.NodeApp.Register | Node-JS/app.js:357-372 | an exact duplicate name is refused; otherwise exactly one user is appended |
| NodeNotes.NodeApp.CreateNote | Node-JS/app.js:405-429 | 400 without content; otherwise exactly one note of the caller is appended |
| NodeNotes.NodeApp.UpdateNote | Node-JS/app.js:431-452 | 404 and no change for a note the caller does not own; otherwise that note becomes `UpdatedNote` |
| NodeNotes.NodeApp.DeleteNote | Node-JS/app.js:454-489 | 404 without an owned note; otherwise the store becomes `WithoutOwned` |
| NoteUpdates.UpdateContrast | Node-JS/app.js:442-443 | against Notes-JS/app.js:462-467: same content unless an empty string is sent, same tags unless none are sent, same images unless files were uploaded |
| NoteUpdates.EmptyContentContrast | Notes-JS/app.js:462 | an empty content empties a Notes-JS note and is ignored by Node-JS |
| NoteFormat.FindClose | Node-JS/app.js:495-498 | a found closing delimiter fits in the text; `FindCloseFirst` states which one is found |
| NoteFormat.FindCloseFirst | Node-JS/app.js:495-498 | the lazy group ends at the nearest closing delimiter with no line terminator before it |
| NoteFormat.BreakLines | Node-JS/app.js:499 | no line feed survives |
| NoteFormat.ReplaceDelim | Node-JS/app.js:495-498 | one `replace(/D(.*?)D/g, ...)`; its properties are the lemmas below |
| NoteFormat.ReplaceDelimAbsent | Node-JS/app.js:495-498 | a replacement whose delimiter does not occur changes nothing |
| NoteFormat.ReplaceDelimNoOpen | Node-JS/app.js:495-498 | a replacement whose delimiter starts nowhere changes nothing |
| NoteFormat.ReplacePair | Node-JS/app.js:495-498 | `D x D` on plain `x` becomes `open x close` |
| NoteFormat.Format | Node-JS/app.js:494-499 | the whole chain, which leaves no line feed |
| NoteFormat.FormatTripleStar | Node-JS/app.js:495 | `***x***` gives `<strong>x</strong>` |
| NoteFormat.FormatDoubleStar | Node-JS/app.js:496 | `**x**` gives `<strong>x</strong>` |
| NoteFormat.FormatStar | Node-JS/app.js:497 | `*x*` gives `<em>x</em>` |
| NoteFormat.FormatStrike | Node-JS/app.js:498 | `\|\|x\|\|` gives `<del>x</del>` |
| NoteFormat.FormatIdentity | Node-JS/app.js:494-499 | content without `*`, `\|` and line feeds is shown unchanged |
| NoteFormat.FormatHasNoLineFeed | Node-JS/app.js:499 | the formatted content holds no line feed |
| NoteFormat.FindCloseLocal | Node-JS/app.js:495-498 | the search for a closing delimiter never looks past a line terminator |
| NoteFormat.ReplaceDelimPerLine | Node-JS/app.js:495-498 | each replacement acts on every line on its own |
| NoteFormat.FormatPerLine | Node-JS/app.js:494-499 | formatting two lines is formatting each and joining them with `<br>` |
| VmProvisioning.KeepNameChars | VM-JS/app.js:852 | only `[a-z0-9-]` remains, and a clean string is unchanged |
| VmProvisioning.KeepNameCharsIsFilter | VM-JS/app.js:852 | the clean-up deletes every character outside `[a-z0-9-]` and keeps the rest in order, as `filter` does |
| VmProvisioning.ContainerNameIsFilter | VM-JS/app.js:852 | the container name is the lower-cased template with every character outside `[a-z0-9-]` deleted |
| VmProvisioning.ContainerName | VM-JS/app.js:852 | only `[a-z0-9-]`, always the `vm-` prefix, and the cleaned name and id around a `-` |
| VmProvisioning.ContainerNameOfCleanParts | VM-JS/app.js:852 | a clean name and id pass through unchanged |
| VmProvisioning.Text | VM-JS/app.js:856-878 | the line each step appends; `ScriptText` states the script built from them |
| VmProvisioning.ScriptSteps | VM-JS/app.js:855-879 | the steps in the builder's order; `ScriptFrame` and `PackageBlocks` state its shape |
| VmProvisioning.Script | VM-JS/app.js:855-879 | the rendering of the steps; `InstallScript` ties the builder's loop to it |
| VmProvisioning.BuildScript | VM-JS/app.js:855-879 | the successive appends produce the rendering of the script's steps |
| VmProvisioning.InstallScript | VM-JS/app.js:855-879 | the built script is `Script` of the request |
| VmProvisioning.ScriptText | VM-JS/app.js:855-879 | the script is the texts of its blocks in the fixed order |
| VmProvisioning.ScriptFrame | VM-JS/app.js:855-879 | every script starts with the shebang and the base update, and ends by starting a shell and making `/start.sh` executable |
| VmProvisioning.PackageBlocks | VM-JS/app.js:858-873 | each package block is present exactly when its switch is on |
| VmProvisioning.GitAndCurlIgnored | VM-JS/app.js:834-849 | the `installGit` and `installCurl` switches do not change the script |
| VmProvisioning.EntryBinding | VM-JS/app.js:884-885 | a binding exists only with a non-empty host port and container port, neither containing `:` |
| VmProvisioning.PairBinding | VM-JS/app.js:884-886 | `h:c` binds `c/tcp` to `h` |
| VmProvisioning.MissingPartSkipped | VM-JS/app.js:884-885 | `h:c` with an empty host or container port binds nothing |
| VmProvisioning.NoColonSkipped | VM-JS/app.js:884-885 | an entry without `:` binds nothing |
| VmProvisioning.Bindings | VM-JS/app.js:881-889 | the dictionary after the entries in order; `BindingsDomain` and `BindingsLastWins` state its contents |
| VmProvisioning.PortBindings | VM-JS/app.js:881-889 | the loop's dictionary is `Bindings` of the entries, and empty when `port` is falsy |
| VmProvisioning.BindingsDomain | VM-JS/app.js:882-888 | a key is bound exactly when some entry names it |
| VmProvisioning.BindingsLastWins | VM-JS/app.js:886 | a bound key holds the host port of the last entry naming it |
| VmProvisioning.CalculatedSwap | VM-JS/app.js:892 | the larger of the swap (or 0) and RAM + 1 |
| VmProvisioning.MakeHostConfig | VM-JS/app.js:892-911 | memory in bytes, swap the calculated swap in bytes (so at least 1 MiB above memory), 1024 shares per core, the given port bindings, `bridge` by default |
| VmProvisioning.BuildSpec | VM-JS/app.js:894-912 | the container name, hostname defaulting to it, the script command and the host configuration |
| VmProvisioning.VmRegistry.CreateVm | VM-JS/app.js:914-932 | after a Docker failure nothing changes; after a start, `configs[id]` and an empty `logs[id]` are set and nothing else |
| VmProvisioning.VmRegistry.DeleteVm | VM-JS/app.js:955-977 | a failed remove gives 500 and changes nothing; otherwise `{ success: true }`, both entries of the id go and nothing else changes |
| VmProvisioning.VmRegistry.AppendLog | VM-JS/app.js:1012-1015 | the message is appended to that container's log, created when absent |
| HtmlGenerator.Saved | Html_Generator-JS/app.js:154-158 | with an edit index the element there is replaced and the length kept; otherwise it is appended |
| HtmlGenerator.SpliceStart | Html_Generator-JS/app.js:180 | the start position `splice` uses, for every index including negative and too large ones |
| HtmlGenerator.Spliced | Html_Generator-JS/app.js:180 | removes exactly the element at that position; earlier ones stay and later ones shift down |
| HtmlGenerator.SplicedRemovesOne | Html_Generator-JS/app.js:180 | the removal takes exactly one element out of the multiset |
| HtmlGenerator.Adjusted | Html_Generator-JS/app.js:179-183 | the corrected edit index after a delete stays in range |
| HtmlGenerator.EditedElementTracked | Html_Generator-JS/app.js:179-183 | the adjusted index still names the element being edited, or -1 when that element was deleted |
| HtmlGenerator.EditDeleteSave | Html_Generator-JS/app.js:154-158 | edit, delete another element, then save equals saving first and deleting after; deleting the edited one makes the save an append |
| HtmlGenerator.Editor.constructor | Html_Generator-JS/app.js:119-120 | no elements and no edit in progress |
| HtmlGenerator.Editor.AddElement | Html_Generator-JS/app.js:141 | the edit index becomes -1 and the elements stay |
| HtmlGenerator.Editor.EditElement | Html_Generator-JS/app.js:165-177 | an index in range becomes the edit index; an out-of-range index changes nothing |
| HtmlGenerator.Editor.SaveElement | Html_Generator-JS/app.js:144-163 | the elements become `Saved` of the old list |
| HtmlGenerator.Editor.DeleteElement | Html_Generator-JS/app.js:179-183 | the elements become `Spliced` of the old list, and the edit index is adjusted |
| HtmlGenerator.Editor.UpdatePreview | Html_Generator-JS/app.js:214-244 | the HTML is the preview of the current elements |
| HtmlGenerator.SaveAsWritten | Html_Generator-JS/app.js:154-158 | the JS assignment: replace in range, write past the end leaving holes, append for a negative index |
| HtmlGenerator.StaleEditAfterDelete | Html_Generator-JS/app.js:179-180 | edit C, delete A, save X: `[B, C, X]` results instead of `[B, X]` |
| HtmlGenerator.StaleEditLeavesHole | Html_Generator-JS/app.js:155 | edit C, delete twice, save X: `[C, hole, X]` results |
| HtmlGenerator.ShortContent | Html_Generator-JS/app.js:198-200 | at most 20 characters unchanged; longer content is its first 20 characters and `...` |
| HtmlGenerator.ShortContentIdempotent | Html_Generator-JS/app.js:198-200 | shortening twice is shortening once |
| HtmlGenerator.ElementId | Html_Generator-JS/app.js:225 | every id starts with `element-` |
| HtmlGenerator.ElementIdInjective | Html_Generator-JS/app.js:225 | different positions get different ids |
| HtmlGenerator.TagOf | Html_Generator-JS/app.js:226-242 | the tag of each `case`, `""` for a type with none; `Fragment` states what each tag renders |
| HtmlGenerator.Fragment | Html_Generator-JS/app.js:227-243 | empty exactly for an unknown type; otherwise it opens the type's tag with the element's id; a wrapping tag has the colour style, a link its `href`, and it ends with the content and its closing tag; an image has `src`, `alt` and the sized background style |
| HtmlGenerator.ImageTag | Html_Generator-JS/app.js:236-237 | starts with `<img id=...`, holds `src` and `alt`, and the style ends with the background colour |
| HtmlGenerator.WrappedTag | Html_Generator-JS/app.js:227-240 | starts with the tag and id, holds the colour style (and `href` for a link), ends with the content and the closing tag |

| HtmlGenerator.Fragments | Html_Generator-JS/app.js:224-244 | one fragment per element, each with its own position |
| HtmlGenerator.FragmentAt | Html_Generator-JS/app.js:224-244 | the preview is the earlier fragments, this element's fragment, then the later ones |
| HtmlGenerator.UnknownTypeInvisible | Html_Generator-JS/app.js:227-243 | an element of unknown type contributes nothing |
| HtmlGenerator.Preview | Html_Generator-JS/app.js:224-244 | the fragments in list order; `FragmentAt` and `PreviewSnoc` state its shape |
| HtmlGenerator.PreviewSnoc | Html_Generator-JS/app.js:224-244 | appending an element appends its fragment |
| HtmlGenerator.BuildPreview | Html_Generator-JS/app.js:220-244 | the `+=` loop produces the preview |
| HtmlGenerator.LoadFrom | Html_Generator-JS/app.js:307-314 | the saved design exactly when the name is stored, otherwise 404 "Design nicht gefunden" |
| HtmlGenerator.LoadAfterSave | Html_Generator-JS/app.js:301-314 | loading a name after saving it gives that design; other names are unaffected |
| HtmlGenerator.SaveOverwrites | Html_Generator-JS/app.js:303 | a later save of the same name overwrites the earlier one |
| HtmlGenerator.DesignServer.Save | Html_Generator-JS/app.js:301-305 | stores the design under the name and answers the confirmation message |
| HtmlGenerator.DesignServer.Load | Html_Generator-JS/app.js:307-314 | answers `LoadFrom` of the store |
| MailSend.Recipients | HTML_Mail-JS/app.js:83 | every address is well-formed, and exactly the non-empty trims of the comma pieces appear |
| MailSend.To | HTML_Mail-JS/app.js:83-87 | `toEmails.join(', ')`, which lists the same addresses as the field |
| MailSend.RecipientsInOrder | HTML_Mail-JS/app.js:83 | addresses keep the order of the field |
| MailSend.ToIdempotent | HTML_Mail-JS/app.js:83-87 | normalising the `to` field again gives the same list, and the same `to` |
| MailSend.OptionsFor | HTML_Mail-JS/app.js:85-90 | the body goes under `html` exactly when the content type is `html`, else under `text`; `to` is the addresses joined by `", "`, so it lists the same addresses |
| MailSend.Send | HTML_Mail-JS/app.js:78-98 | a missing recipient and a failed delivery redirect with the encoded error; otherwise with success |
| MailSend.SameRecipientsSameMail | HTML_Mail-JS/app.js:83-90 | fields that list the same addresses send the same mail |

## Left out

- File I/O: the JSON files, the ENOENT fallbacks and (de)serialisation are in-memory maps and sequences; a failed read or write (the 500 answers of the `catch` blocks) is not modelled.
- The external services are parameters:
  - the model server (axios) and its chunked stream;
  - Docker's create, start and remove;
  - nodemailer's `sendMail`;
  - bcrypt hashing and comparison (the settings route receives the comparison's outcome);
  - uuid, the clock, uploaded file names and the unlinking of files;
  - `JSON.parse` of a stream line and `encodeURIComponent`.
- The Socket.IO, express-ws and Express transports, sessions, the admin password middleware and the node-cron schedule are not modelled. Each handler receives the session user as an `Option`.
- Concurrency: callbacks and requests run one at a time; the interleavings of the event loop are not modelled.
- Floating point and parsing: the reply `duration` is a parameter, and `updateSystemStats` is not modelled. RAM, swap and cores are already-parsed integers, so `parseInt` and NaN are not modelled.
- Unicode: `toLowerCase` is ASCII only; `trim` uses the ECMAScript whitespace set; strings are sequences of code points, not UTF-16 units, so `substring(0, 20)` counts code points.
- HTML, CSS and DOM code: the page templates, the form fields, `updateElementsList` apart from its `shortContent`, the CSS and script editors and the client-side `loadDesign` are not modelled. All of VM-JS/public/js/script.js and VM-dockers/app.js are not part of this model.
- Cancellation: the AI server has no stop handler and sends only `prompt` to the model server, so neither is modelled.
- ChatServer.Server.RelayAndCommit: every `done` line saves again in the source; the model states the final store, which is the save of the last `done`.
- ChatServer.Server.LoadChat: the chat list it answers is the corrected `ChatList`; the source's list, with the two faults under "## Findings", is `ChatListAsWritten`, and `ChatListsAgree` shows the two agree when no name or chat id holds `_`.
- ChatServer.Server.CreateUser: `maxTokens` is the already-parsed integer. A `max_tokens` that `parseInt` cannot read is NaN in the source, and then no message is ever refused.
- ChatServer.ChatList: the list is a map keyed by chat key, so the order of `Object.keys` is not modelled.
- NotesStore.Listing: the note's `created` timestamp is the number `new Date(...)` yields; an invalid date (NaN) is not modelled. An insertion sort stands for `Array.prototype.sort`. Notes the comparator ranks equal stay in store order, as they do under a stable sort, but this stability is not proved.
- NodeNotes.NodeApp.Register: a missing username or password (which makes bcrypt throw) is not modelled; the name and password are strings.
- VmProvisioning.VmRegistry.CreateVm: `config` stores the request fields the derivations read; `disk` and any other field of `req.body` are not modelled.
- HtmlGenerator.Editor: the editor uses the corrected `deleteElement`, which also adjusts the edit index. The source's behaviour, including JavaScript array holes, is modelled on values by `SaveAsWritten`.
- HtmlGenerator.Editor.EditElement: an out-of-range index throws in the source before the index is set; the model leaves the state unchanged.
- HtmlGenerator.DesignServer: `savedDesigns` is a plain object in the source, so names such as `__proto__` or `toString` behave differently there; the model uses a map.
- NoteFormat.Format: only the ASCII line terminators and U+2028/U+2029 end a line for `.`; other regular-expression features are not used by the formatter.

## Findings

| source | as written | input that shows it | evidently intended | confidence | as-written member | corrected member |
|---|---|---|---|---|---|---|
| AI/app.js:451 | the listed chat id is `key.split('_')[1]` | user `max_m`, chat `ab12cd34`: listed as id `m` | the id is everything after `${user}_` | not executed | ChatServer.ListedIdMisparsed | ChatServer.ChatListExact |
| AI/app.js:449 | the list keeps every key starting with `${user}_` | user `max` and a stored chat of user `max_m`: listed for `max` | only the user's own keys are listed | not executed | ChatServer.ListLeaksOtherUser | ChatServer.ListKeepsOtherUserOut |
| Html_Generator-JS/app.js:180 | `deleteElement` leaves `editingIndex` as it was | `[A, B, C]`, edit C, delete A, save X: `[B, C, X]` | the save replaces C: `[B, X]` | not executed | HtmlGenerator.StaleEditAfterDelete | HtmlGenerator.EditDeleteSave |
