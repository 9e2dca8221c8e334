# Messenger data rules in Dafny

A model of the pure data rules underneath the Messenger iOS chat client. The
app itself is UIKit screens over Firebase; this project keeps only what those
screens and calls compute:

- the identity normaliser, which turns an e-mail address into a storage key (`safeEmail`);
- the message-kind codec, made of the storage tag of each kind and the text a kind contributes to storage;
- the user directory, conversation summaries and message logs as they are written to and read from the realtime database;
- message-id construction and the send button's guard;
- the fetch-once user search;
- the registration form's field check.

The database is a `map<string, Node>`. A `Node` is a string, a boolean, an
array or a dictionary. Each Firebase read is a map lookup followed by the
source's cast (`as? [String: Any]` and the like, in `Tree`). Each `setValue`
is a map update. Whether the server accepts a write is a boolean parameter,
so every failure path of the source can be reached. Every operation is a pure
function from the old store to a new store and the value it hands its
completion handler.

Modules, one per file:

- `Wrappers` (`wrappers.dfy`): Swift's `Optional` and `Result`.
- `Seqs` (`seqs.dfy`): `filter`, `compactMap` and the subsequence relation.
- `Strings` (`strings.dfy`): the blank-input test, ASCII lower-casing and `hasPrefix`.
- `Identity` (`identity.dfy`): `safeEmail` and the `ChatAppUser` record.
- `Tree` (`tree.dfy`): store nodes and snapshot casts.
- `MessageKinds` (`message_kinds.dfy`): messages, kind tags and text extraction.
- `Database` (`database.dfy`): the `DatabaseManager` operations.
- `Chat` (`chat.dfy`): `ChatViewController`.
- `NewConversation` (`new_conversation.dfy`): `NewConversationViewController`.
- `Register` (`register.dfy`): `RegisterViewController`.

Some things outside the program become parameters:

- The session e-mail, which the app keeps in user defaults, is an `Option<string>`.
- Each reading of the clock is a `Timestamp`. Pressing send reads it twice: once for the id and once for the message date.
- The date formatter is a function parameter `fmt`.

Some behaviour of the code is easy to miss; the model keeps it as written:

- The first message's log is written under the raw message id. The summary's id is `"conversations_" + messageId`, and the log is not stored under that id (`Database.CreateWritesLogUnderMessageId`).
- The log write replaces the node; it does not append to an existing log (`Database.FinishConversationReplaces`).
- The user node stores the address under the key `"emailAddress:"`, colon included (`Database.UserNode`).
- `createNewConversation` with no session e-mail returns without calling its completion handler. The model gives `completion == None` for this case.
- A stored conversations or users value that fails its cast is overwritten by a one-element array. It is not an error.

## Model

| member | source | states |
|---|---|---|
| Identity.ReplaceChar | Messenger/Resources/DatabaseManager.swift:16-17 | replacing a character keeps the length and changes exactly the positions holding that character |
| Identity.SafeEmail | Messenger/Resources/DatabaseManager.swift:15-19 | the key has the input's length, contains no `.` or `@`, and differs from the input only where `.` or `@` became `-` |
| Identity.SafeEmailIdempotent | Messenger/Resources/DatabaseManager.swift:15-19 | normalising twice gives the same key as normalising once |
| Identity.SafeEmailFixesSafe | Messenger/Resources/DatabaseManager.swift:15-19 | a string with no `.` or `@` is its own key |
| Identity.SafeEmailCollides | Messenger/Resources/DatabaseManager.swift:15-19 | the normaliser is not injective: `a.b`, `a@b` and `a-b` share the key `a-b` |
| Identity.UserExistsKey | Messenger/Resources/DatabaseManager.swift:29-30 | the key `userExists` looks up is a safe key |
| Identity.SafeEmailCopiesAgree | Messenger/Resources/DatabaseManager.swift:316-320 | the static function, the user's computed `safeEmail` and the inline rule in `userExists` compute the same key |
| Identity.ChatAppUser.SafeEmail | Messenger/Resources/DatabaseManager.swift:316-320 | the user's computed key has the address's length, is safe, and replaces exactly each `.` and `@` of the address by `-` |
| Identity.ChatAppUser.ProfilePictureFileName | Messenger/Resources/DatabaseManager.swift:322-324 | the picture name is the user's safe key followed by `_Profile_Picture_png` |
| Identity.PictureNameDeterminedByKey | Messenger/Resources/DatabaseManager.swift:322-324 | two users share a profile-picture name exactly when their addresses share a key |
| MessageKinds.KindString | Messenger/Controllers/ChatViewController.swift:26-49 | every kind maps to the tag at its variant's position in the ten-entry tag table |
| MessageKinds.KindStringInjective | Messenger/Controllers/ChatViewController.swift:26-49 | two kinds get the same tag exactly when they are the same variant |
| MessageKinds.TagRoundTrip | Messenger/Controllers/ChatViewController.swift:26-49 | reading a kind's tag back recovers its variant |
| MessageKinds.ExtractText | Messenger/Resources/DatabaseManager.swift:131-154 | the extracted text is the payload of a text message and empty for the nine other kinds; the same function serves the second switch at lines 205-228 (see `Database.SummaryAndLogAgreeOnText`) |
| Database.SummaryAndLogAgreeOnText | Messenger/Resources/DatabaseManager.swift:205-228 | the logged record's content and the summary's latest-message text are the same extracted text, so the two switches over the kind agree |
| MessageKinds.DecodeKind | Messenger/Resources/DatabaseManager.swift:205-228 | a record reads back as a kind exactly when its tag is "text", and then as text with the stored content |
| MessageKinds.KindRoundTrip | Messenger/Resources/DatabaseManager.swift:205-228 | encoding a kind as tag and content and decoding gives back exactly the text messages; every other kind loses its payload |
| Tree.AsDictList | Messenger/Resources/DatabaseManager.swift:266 | the array cast succeeds exactly when every element is a dictionary, and then keeps every element in order |
| Tree.AsStringDictList | Messenger/Resources/DatabaseManager.swift:52 | the string-dictionary array cast succeeds exactly when every element is a dictionary of strings, and then keeps them in order |
| Tree.StringDictListRoundTrip | Messenger/Resources/DatabaseManager.swift:52-59 | an array of string dictionaries written to the store is read back unchanged |
| Database.FetchUsers | Messenger/Resources/DatabaseManager.swift:87-96 | the fetch succeeds exactly when `users` holds an array of string dictionaries; then entry i is the i-th stored dictionary, one entry per element |
| Database.InsertUser | Messenger/Resources/DatabaseManager.swift:42-84 | success needs both writes; a rejected user write changes nothing; the user node lands under the safe e-mail; a rejected directory write leaves `users` as it was; no key other than the safe e-mail and `users` changes |
| Database.InsertUserAppendsEntry | Messenger/Resources/DatabaseManager.swift:51-81 | after a successful insert the directory is the old one, or an empty one if it was unreadable, plus `{name: first + " " + last, email: safeEmail}` at the end |
| Database.InsertUserThenExists | Messenger/Resources/DatabaseManager.swift:43 | after the user write the key that `userExists` looks up holds the new user node |
| Database.DecodeConversation | Messenger/Resources/DatabaseManager.swift:271-285 | a record decodes exactly when it has every required field with the right type, and the decoded fields are the stored ones |
| Database.ConversationRoundTrip | Messenger/Resources/DatabaseManager.swift:156-165 | a summary in the stored shape decodes to the conversation it encodes |
| Database.GetAllConversation | Messenger/Resources/DatabaseManager.swift:264-288 | fails exactly when the stored value is not an array of dictionaries; otherwise it returns no more records than stored, each one a decoded stored record, and it includes every well-formed stored record |
| Database.GetAllConversationKeepsWellFormed | Messenger/Resources/DatabaseManager.swift:271-285 | decoding keeps stored order: a record contributes its conversation in place when well formed and nothing otherwise |
| Database.GetAllConversationInOrder | Messenger/Resources/DatabaseManager.swift:264-288 | `getAllConversation` returns, in stored order, exactly the well-formed summaries: a summary anywhere in the array gives its conversation at that place, or nothing |
| Database.AppendSummaryReadsBack | Messenger/Resources/DatabaseManager.swift:167-180 | the written conversations array reads back as the readable old summaries followed by the new one |
| Database.LogRoundTrip | Messenger/Resources/DatabaseManager.swift:247-253 | a message log written under a key reads back as the records written |
| Database.MessageRecordRoundTrip | Messenger/Resources/DatabaseManager.swift:237-245 | a stored message record reads back as itself |
| Database.FinishConversation | Messenger/Resources/DatabaseManager.swift:193-262 | success exactly when a session e-mail exists and the write is accepted; failure changes nothing; on success the key holds a log of exactly the first message's record and nothing else (the log reader accepts only a node with the single `messages` field whose records have exactly the seven message fields); no other key changes |
| Database.FinishConversationReplaces | Messenger/Resources/DatabaseManager.swift:237-253 | the log node does not depend on what was stored before; the record carries the kind's tag, is unread, has the raw message id, and its type and content decode back to a text message |
| Database.CreateNewConversation | Messenger/Resources/DatabaseManager.swift:116-191 | no session: nothing written and completion never called; with a session the completion is always called; no owner node or a rejected summary write: nothing written, false, log never attempted; true exactly when session, owner node and both writes succeed; only the owner key and the message-id key can change, and a rejected log write leaves the message-id key as it was |
| Database.CreateAppendsSummary | Messenger/Resources/DatabaseManager.swift:155-189 | the owner's conversations read back as the old ones plus the new summary (id `"conversations_" + messageId`, unread, extracted text); the stored summaries before it and the node's other fields are unchanged, and no field other than `conversations` is added |
| Database.CreateWritesLogUnderMessageId | Messenger/Resources/DatabaseManager.swift:155-187 | with both writes accepted the completion is true and the log under the raw message id holds the first message, a key different from the summary's id |
| Chat.SelfSender | Messenger/Controllers/ChatViewController.swift:67-72 | a sender exists exactly when a session e-mail does, with that e-mail as sender id |
| Chat.CreateMessageId | Messenger/Controllers/ChatViewController.swift:129-138 | no id without a session; otherwise the id starts with the raw peer address and `_`, continues with the session e-mail with each `.` and `@` replaced by `-`, and ends with `_` and the formatted clock |
| Chat.MessageIdCollision | Messenger/Controllers/ChatViewController.swift:133-135 | for a fixed peer and session two clock readings give the same id exactly when they format to the same string |
| Chat.MessageIdSharesSafeKey | Messenger/Controllers/ChatViewController.swift:133-135 | two session addresses with the same key produce the same id |
| Chat.PeerAddressNotNormalised | Messenger/Controllers/ChatViewController.swift:133-135 | the peer's address enters the id as given: for a fixed session and clock, two peers get the same id exactly when their addresses are equal, even when they share a safe key |
| Strings.RemoveSpaces | Messenger/Controllers/ChatViewController.swift:109 | removing spaces leaves no space, never lengthens the text, and keeps every other character as often as it occurs |
| Strings.BlankIffAllSpaces | Messenger/Controllers/ChatViewController.swift:109 | text counts as empty exactly when every character is a plain space |
| Chat.SendPressed | Messenger/Controllers/ChatViewController.swift:108-127 | refused exactly for blank text or no session; an existing conversation does nothing; a new one sends `.text(text)` with the created id, the second clock reading and the title or "Default name" to `createNewConversation` |
| Chat.SendStartsConversation | Messenger/Controllers/ChatViewController.swift:114-123 | a first message sent with the owner present and both writes accepted completes true, ends the owner's conversations with an unread summary of the text, and stores its one text record under the message id |
| Seqs.Filter | Messenger/Controllers/NewConversationViewController.swift:107-112 | the filter returns no more elements than given, every one satisfying the predicate, and each satisfying element exactly as often as it occurs in the input |
| Seqs.FilterIsSubsequence | Messenger/Controllers/NewConversationViewController.swift:107-112 | the filtered list keeps the original order |
| Seqs.CompactMap | Messenger/Resources/DatabaseManager.swift:271-285 | the result is no longer than the input; each element is the image of an input element; every non-nil image appears |
| Seqs.CompactMapAppend | Messenger/Resources/DatabaseManager.swift:271-285 | decoding a concatenation is the concatenation of the decodings |
| NewConversation.FilterUsers | Messenger/Controllers/NewConversationViewController.swift:102-115 | before the fetch nothing changes; after it the rows are exactly the cached entries whose lower-cased name starts with the lower-cased term, each as often as it is cached, in cache order |
| NewConversation.NamelessNeverShown | Messenger/Controllers/NewConversationViewController.swift:108-110 | an entry without a name is never a result |
| NewConversation.SearchIgnoresTermCase | Messenger/Controllers/NewConversationViewController.swift:111 | searching for the term or its lower-cased form shows the same rows |
| NewConversation.SearchUsers | Messenger/Controllers/NewConversationViewController.swift:85-115 | `hasFetched` becomes true only by a successful fetch and never reverts; a fetched cache is kept; a failed fetch changes nothing; once fetched the rows are the cache's matches, in cache order and each as often as it is cached |
| NewConversation.SearchIgnoresStoreOnceFetched | Messenger/Controllers/NewConversationViewController.swift:86-87 | once fetched, a search does not read the store |
| NewConversation.CacheIsStale | Messenger/Controllers/NewConversationViewController.swift:90-94 | after a first successful search every later search uses the directory from that first fetch, whatever the store holds by then |
| NewConversation.SearchButtonClicked | Messenger/Controllers/NewConversationViewController.swift:75-83 | a missing or blank query changes nothing; otherwise the search runs: rows are cleared, the directory is fetched if it was not yet (and kept on success), and the rows stay empty if no directory is available or become the query's matches in cache order, each as often as it is cached |
| Register.RegisterTapped | Messenger/Controllers/Login-register/RegisterViewController.swift:142-152 | proceeds exactly when all four fields are present and non-empty and the password has more than six characters, with the user built from the fields; otherwise shows the default alert |
| Register.PasswordBoundary | Messenger/Controllers/Login-register/RegisterViewController.swift:149 | a six-character password is rejected and a seven-character one accepted; an empty or missing e-mail is rejected |
| Register.AlertUserLoginError | Messenger/Controllers/Login-register/RegisterViewController.swift:180-181 | the alert shows the default text whatever message it is given |
| Register.ExistsMessageIsDropped | Messenger/Controllers/Login-register/RegisterViewController.swift:159-161 | the "already exists" message passed to the alert is not what it shows |
| Register.AlertShowsGivenMessage | Messenger/Controllers/Login-register/RegisterViewController.swift:180-181 | the corrected alert shows the message it is given, and the default alert is unchanged |

## Left out

- Firebase I/O (`observeSingleEvent`, `setValue`, authentication, storage uploads and downloads): the database is an abstract map, and each write's acceptance is a parameter.
- Asynchrony and races: each operation is one sequential step. Two concurrent read-modify-write updates of `users` or of a conversations list, and `userExists` not gating `createUser`, are concurrency and are not modelled.
- `userExists`'s `snapshot.value as? String` test: its truth depends on how the SDK represents snapshot values. Only the key it looks up is modelled (`Identity.UserExistsKey`).
- Firebase's path rules are not modelled: keys are opaque strings. A key containing `/` is not split into a path, keys with forbidden characters are not rejected, and empty arrays are not deleted.
- Numeric snapshot values and Swift's bridging of `NSNumber` to `Bool`: `Node` has no number case.
- The date formatter (locale and time zone dependent) is the parameter `fmt`. The clock is given as parameters.
- Unicode: `lowercased()` is modelled for ASCII letters only. `password.count` counts characters of `seq<char>`, not grapheme clusters. `replacingOccurrences` works character by character. `hasPrefix` (`Strings.HasPrefix`) compares single `char`s, where Swift compares whole characters under canonical equivalence.
- Payloads of non-text kinds (photo, video, location, audio, contact, link, custom) are opaque references, since the source never stores them.
- The empty stubs `getAllMessagesForConversation`, `sendMessage` and `listenForMessages` have no behaviour. The branch for an existing conversation in the send handler does nothing and is modelled as doing nothing.
- Screens, layout, alerts' presentation, navigation, the progress spinner, table rendering and `updateUI` are not modelled.
- Registration after the field check (`createUser`, then `insertUser`) is asynchronous SDK work. `Register.RegisterTapped` ends at the user it would create.
- Database.InsertUser: when the user's safe e-mail is exactly `users`, the user node and the directory share a key. The contract about the user node is only stated for other keys.
- MessageKinds.DecodeKind reads a stored kind back. The source only encodes kinds (DatabaseManager.swift:205-228); the decoder exists to state what the encoding keeps and loses.
- Database.ReadLog and Database.DecodeMessageRecord read stored messages back. The source never does this, since `getAllMessagesForConversation` is empty; they exist only to state what the writes store.

## Findings

| source | as written | input that shows it | evidently intended | confidence | as-written member | corrected member |
|---|---|---|---|---|---|---|
| Messenger/Controllers/Login-register/RegisterViewController.swift:180-181 | the alert is created with the fixed default text and ignores its `message` parameter | `alertUserLoginError(message: "Account for this email is alredy exists.")` at line 160 shows "Please enter all information to create a new account." | the alert shows the `message` it is given, whose default is the current text | high; not executed | Register.ExistsMessageIsDropped | Register.AlertShowsGivenMessage |
