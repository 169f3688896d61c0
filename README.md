# ZiziBot gateway, stores and commands in Dafny

This project models the core of ZiziBot, a Telegram group-management bot.

- **Context derivation.** `TelegramService` collapses one incoming update into a derived context. The context holds the sender, the chat, the message the update is about, the command tokens and the chat-kind flags.
- **Sending.** The service sends, edits, appends and deletes messages, with a single retry on warning-class errors. It records sent messages for scheduled deletion.
- **Members.** It mutes, kicks and unbans members.
- **Verification steps.** It runs the username and profile-photo checks, warns the member and schedules a kick.
- **Callbacks.** It dispatches the modes of a callback answer.
- **Message extension.** On top of the service sit these operations:
  - sending a response that records itself for deletion;
  - editing a response;
  - sending an album;
  - the word-filter scan;
  - the first-message spam alert;
  - deleting all of a member's messages.
- **Stores.** There are two:
  - the chat-settings table with its cache and its toggle buttons;
  - the force-subscription store.
- **Commands.** There are three:
  - `/tag`, which saves a reply as a named tag;
  - `/welcome`, which shows the welcome configuration;
  - the GitHub release lookup that the RSS module uses (`OctokitApiService`).

The Bot API is modelled as an oracle. `Env.respond(n)` is the answer to the n-th request: a message id, or a failure flagged as a warning or not. Every request the service makes is logged in `calls`, so a contract can say exactly which requests an operation makes.

The service is modelled in two layers:

- **Values.** `GatewaySpec` is a state machine on the value `State`. Each operation is a function returning the new state and how the operation left: a result, or an exception (`Exit.Raised`).
- **Class.** `Gateway.TelegramService` is the class whose methods update the fields the C# class updates. Each method is proved to leave exactly the state and result of its `GatewaySpec` function.

The stores are classes too: `SettingsService`, `ForceSubsService`, `TagsService` and `OctokitApiService`. Each has its table or cache as fields. The handlers (`TagCommand.HandleAsync`, `WelcomeCommand.HandleAsync`) are methods over the service, proved against a specification function. The promised properties are proved as lemmas about those functions.

Files:

- `wrappers.dfy` and `text.dfy`: `Option`, and the .NET string operations the code uses (`Split`, `Replace`, `Trim`, `TrimStart(chars)`, integer printing).
- `telegram_types.dfy`: updates, messages, markups and requests.
- `update_context.dfy`: the derivation of `AddUpdateContext`, `GetCommand` and the chat-kind checks.
- `gateway_spec.dfy`, `gateway_facts.dfy` and `telegram_service.dfy`: `TelegramService`.
- `message_extension.dfy`: `TelegramServiceMessageExtension`.
- `settings_service.dfy`, `force_subs.dfy`, `tag_command.dfy`, `welcome_command.dfy` and `octokit.dfy`: the stores and commands.

## Model

| member | source | states |
|---|---|---|
| UpdateContext.CheckFromAnonymous | src/WinTenDev.Zizi.Services/Telegram/TelegramService.cs:435-447 | It throws exactly when the sender is the anonymous-admin account and there is no sender chat. It is true exactly when that account posts for this very chat. |
| UpdateContext.UsernameFlags | src/WinTenDev.Zizi.Services/Telegram/TelegramService.cs:204-205 | `IsNoUsername` holds exactly when the sender is known, is not Telegram's service account 777000, and has no username. `HasUsername` is always its negation. |
| UpdateContext.ServiceIdText | src/WinTenDev.Zizi.Services/Telegram/TelegramService.cs:1387-1401 | The service account's id prints as "777000", the text the username check compares against. |
| UpdateContext.IdsOfAbsentParts | src/WinTenDev.Zizi.Services/Telegram/TelegramService.cs:189-199 | The sender id is the sender's, or 0 when there is no sender. The reply-sender id is 0 without a replied message. The chat id is the chat's. |
| UpdateContext.DeriveFailsWithoutChat | src/WinTenDev.Zizi.Services/Telegram/TelegramService.cs:192-207 | The derivation throws exactly when no part of the update carries a chat, because the private-chat check dereferences `Chat`. |
| UpdateContext.ChatKindsExclusive | src/WinTenDev.Zizi.Services/Telegram/TelegramService.cs:462-484 | A chat is never both private and a group. |
| UpdateContext.AnyMessageIgnoresPosts | src/WinTenDev.Zizi.Services/Telegram/TelegramService.cs:187 | `AnyMessage` and its text never depend on channel posts. |
| UpdateContext.CallbackMessageWins | src/WinTenDev.Zizi.Services/Telegram/TelegramService.cs:187-192 | The callback's message is `AnyMessage`. Its chat is the chat unless a post or a membership change names one. |
| UpdateContext.MessageDateSources | src/WinTenDev.Zizi.Services/Telegram/TelegramService.cs:194 | A membership change fixes the date. With no dated part at all, the date is the clock's. |
| UpdateContext.PostSenderFallsThrough | src/WinTenDev.Zizi.Services/Telegram/TelegramService.cs:191 | A channel post without a sender leaves the sender to the later sources of the chain. |
| UpdateContext.TokensFacts | src/WinTenDev.Zizi.Services/Telegram/TelegramService.cs:214-216 | No token is empty or contains a space. Concatenated, the tokens are the text with its spaces removed. |
| UpdateContext.CommandToken | src/WinTenDev.Zizi.Services/Telegram/TelegramService.cs:380-395 | A text starting with `/` has a first token. That token starts the text and starts with `/`. |
| UpdateContext.CommandHead | src/WinTenDev.Zizi.Services/Telegram/TelegramService.cs:380-395 | The first token of `word@bot rest` is the word with its mention, and removing `@bot` leaves the word. |
| UpdateContext.CommandWord | src/WinTenDev.Zizi.Services/Telegram/TelegramService.cs:380-400 | For a message `word@bot rest` or `word rest`, `IsCommand(word)` holds. |
| UpdateContext.TooOldOfDerived | src/WinTenDev.Zizi.Services/Telegram/TelegramService.cs:726-743 | For a derived update: one answering a callback is never too old; any other is too old at a later time exactly when its own date (membership change, else message, else receiving time) is more than the offset before it; an undated update is never too old when received; a larger offset flags fewer updates. |
| GatewaySpec.EventLogTargets | src/WinTenDev.Zizi.Services/Telegram/TelegramService.cs:634-654 | The targets are exactly the negative ones among the global and the chat log ids, one entry per negative id (so both copies when the two ids are equal), the global one first. |
| GatewaySpec.FindStep | src/WinTenDev.Zizi.Services/Telegram/TelegramService.cs:1497-1536 | The step found is a stored step of this chat, member and name. None means no such step is stored. |
| GatewayFacts.AddUpdateContextUsesArgument | src/WinTenDev.Zizi.Services/Telegram/TelegramService.cs:167-225 | Through `AddUpdateContext` the context is the one derived from the argument. It succeeds exactly when the update names a chat. |
| GatewayFacts.AddUpdateReadsStoredUpdate | src/WinTenDev.Zizi.Services/Telegram/TelegramService.cs:227-236 | As written, `AddUpdate(u)` derives from the stored update: updates from two chats give the earlier chat's id. The corrected version gives the argument's. |
| GatewayFacts.SendExtends | src/WinTenDev.Zizi.Services/Telegram/TelegramService.cs:766-862 | A send keeps the update, the context, the steps and the jobs. It only appends to the request log and the history. |
| GatewayFacts.SaveExtends | src/WinTenDev.Zizi.Services/Telegram/TelegramService.cs:1666-1691 | Saving history keeps everything else and only appends rows. |
| GatewayFacts.TimingOnlyOutsideCallbacks | src/WinTenDev.Zizi.Services/Telegram/TelegramService.cs:776-783 | The timing annotation changes exactly the non-empty texts outside a callback, and the body is empty exactly when the text is. |
| GatewayFacts.EmptyTextSendsNothing | src/WinTenDev.Zizi.Services/Telegram/TelegramService.cs:790-794 | An empty text makes no request and returns null. |
| GatewayFacts.SendRetriesOnlyWarnings | src/WinTenDev.Zizi.Services/Telegram/TelegramService.cs:796-854 | The requests are the message, plus the same message without reply target and preview setting exactly when the first try failed with a warning. |
| GatewayFacts.SendCarriesText | src/WinTenDev.Zizi.Services/Telegram/TelegramService.cs:778-807 | A non-empty send only extends the state and makes one or two requests. Each one sends the annotated text with the markup to the target chat. |
| GatewayFacts.SendErrorEndsEarly | src/WinTenDev.Zizi.Services/Telegram/TelegramService.cs:811-822 | A first failure that is not a warning returns the previous sent message and records no history. |
| GatewayFacts.SendRecordsDelivered | src/WinTenDev.Zizi.Services/Telegram/TelegramService.cs:800-861 | A delivered message is returned and becomes the sent message. With a deletion time, its row is appended to the history, followed by the sender's message row when asked. |
| GatewayFacts.SendRetryFailureKeepsStale | src/WinTenDev.Zizi.Services/Telegram/TelegramService.cs:830-861 | When both tries fail, the send returns the previously sent message. Without one it throws. |
| GatewayFacts.EditSkipsHistoryOnSuccess | src/WinTenDev.Zizi.Services/Telegram/TelegramService.cs:1000-1031 | As written, a successful edit with a deletion time records no history. The corrected edit records one row. |
| GatewayFacts.EditAgreesOtherwise | src/WinTenDev.Zizi.Services/Telegram/TelegramService.cs:1013-1032 | Without a deletion time, or after a failure, the two edits agree. |
| GatewayFacts.EditTargetsSentMessage | src/WinTenDev.Zizi.Services/Telegram/TelegramService.cs:980-1011 | An edit makes exactly one request, an edit of the sent message's id. Success makes the edited message the sent message; a failure keeps the old one. |
| GatewayFacts.AppendTwice | src/WinTenDev.Zizi.Services/Telegram/TelegramService.cs:1060-1077 | The first append sends its piece. The second edits that message to both pieces, joined by a newline. The buffer holds both. |
| GatewayFacts.DeleteFacts | src/WinTenDev.Zizi.Services/Telegram/TelegramService.cs:1091-1130 | A delete changes only the request log, by at most one request. That request deletes the given id, or the sent message when the id is -1. |
| GatewayFacts.RestrictFacts | src/WinTenDev.Zizi.Services/Telegram/TelegramService.cs:1322-1376 | A restriction is one request for the member. It grants every permission exactly when it unmutes. An unmute lasts from now; a mute without a time lasts 366 days. The result succeeds exactly when the request does. |
| GatewayFacts.KickFacts | src/WinTenDev.Zizi.Services/Telegram/TelegramService.cs:1184-1215 | A kick first bans the member until now. A failed ban ends it unsuccessfully. A ban without unban succeeds. A failed unban that cannot be reported (no chat) fails. |
| GatewayFacts.FromAdminWithoutUser | src/WinTenDev.Zizi.Services/Telegram/TelegramService.cs:422-433 | Without a user id, `CheckFromAdmin` leaves the state unchanged and answers whether the context's sender is an admin. |
| GatewayFacts.ScheduledStepNamesItsJob | src/WinTenDev.Zizi.Services/Telegram/TelegramService.cs:1567-1594 | A scheduled kick adds exactly one job and one step. The step has the given name and status `NeedVerify`, and its job id points at the kick job for the step's chat and member. |
| GatewayFacts.UsernameCheckOutcome | src/WinTenDev.Zizi.Services/Telegram/TelegramService.cs:1407-1460 | The check passes without any effect exactly when an exemption holds: a channel post, a username, the permission check, or username warnings off. Otherwise it does not pass, and its first request mutes the member for the kick offset. |
| GatewayFacts.PhotoCheckOutcome | src/WinTenDev.Zizi.Services/Telegram/TelegramService.cs:1462-1495 | The check passes without any effect exactly when an exemption holds: a callback, a channel post, the permission check, or a profile photo. Otherwise it does not pass, and its first request mutes the member. |
| GatewayFacts.WarningMutesFirst | src/WinTenDev.Zizi.Services/Telegram/TelegramService.cs:1497-1510 | A warning step only extends the request log, and its first new request mutes the sender for the kick offset. |
| GatewayFacts.WarningStepUnfolds | src/WinTenDev.Zizi.Services/Telegram/TelegramService.cs:1497-1536 | A warning step is the mute, then the warning with the verify button, then the replacement of the earlier warning. |
| GatewayFacts.MuteThenSend | src/WinTenDev.Zizi.Services/Telegram/TelegramService.cs:1497-1520 | After the mute, the warning and the replacement, the log extends the old one, and the mute is its first new request. |
| GatewayFacts.ReplacementExtends | src/WinTenDev.Zizi.Services/Telegram/TelegramService.cs:1520-1536 | Replacing the earlier warning only extends the request log. |
| GatewayFacts.WarningDeletesEarlierWarning | src/WinTenDev.Zizi.Services/Telegram/TelegramService.cs:1520-1536 | When a step of that name was stored before, exactly one request is added. It deletes the earlier warning's id, or the new warning when that id is -1. |
| GatewayFacts.IdleModes | src/WinTenDev.Zizi.Services/Telegram/TelegramService.cs:589-623 | The ban and kick modes, and unknown modes, do nothing. |
| GatewayFacts.ModeKeepsContext | src/WinTenDev.Zizi.Services/Telegram/TelegramService.cs:589-623 | Every mode keeps the context and only extends the request log. |
| GatewayFacts.ModesKeepContext | src/WinTenDev.Zizi.Services/Telegram/TelegramService.cs:572-628 | Running the modes one after another keeps the context and only extends the request log. |
| GatewayFacts.ModesStopAtRaise | src/WinTenDev.Zizi.Services/Telegram/TelegramService.cs:572-628 | Once a mode throws, the later modes do not run. |
| Gateway.TelegramService.constructor | src/WinTenDev.Zizi.Services/Telegram/TelegramService.cs:111-153 | A new service has no update, no context and no sent message, and has made no requests. |
| Gateway.TelegramService.Request | src/WinTenDev.Zizi.Services/Telegram/TelegramService.cs:800-807 | A request is appended to the log and answered by the oracle for its position. |
| Gateway.TelegramService.AddUpdateContext | src/WinTenDev.Zizi.Services/Telegram/TelegramService.cs:167-225 | The new state is the update stored and its context derived, as in `GatewaySpec.AddUpdateContext`. |
| Gateway.TelegramService.AddUpdate | src/WinTenDev.Zizi.Services/Telegram/TelegramService.cs:227-281 | The context is derived from the argument (the corrected `AddUpdate`). |
| Gateway.TelegramService.SaveMessageToHistory | src/WinTenDev.Zizi.Services/Telegram/TelegramService.cs:1721-1750 | Exactly one row is appended for the chat, the sender and the message, deleted at the given time or, for 0, after the default period. |
| Gateway.TelegramService.SaveToMessageHistory | src/WinTenDev.Zizi.Services/Telegram/TelegramService.cs:1666-1691 | A row for the sent message, then one for the sender's message when asked. It throws without a sent message, and after the first row when the sender's message is missing. |
| Gateway.TelegramService.SaveSenderMessageToHistory | src/WinTenDev.Zizi.Services/Telegram/TelegramService.cs:1693-1705 | A row for the sender's message; without one, it throws and changes nothing. |
| Gateway.TelegramService.SaveSentMessageToHistory | src/WinTenDev.Zizi.Services/Telegram/TelegramService.cs:1707-1719 | A row for the sent message; without one, it throws and changes nothing. |
| Gateway.TelegramService.SendTextMessage | src/WinTenDev.Zizi.Services/Telegram/TelegramService.cs:766-862 | State and result are those of `GatewaySpec.Send`, whose properties are the `Send…` lemmas above. |
| Gateway.TelegramService.TrySend | src/WinTenDev.Zizi.Services/Telegram/TelegramService.cs:796-854 | The first try and the single retry on a warning, as `GatewaySpec.SendAttempts`. |
| Gateway.TelegramService.EditMessageText | src/WinTenDev.Zizi.Services/Telegram/TelegramService.cs:980-1033 | State and result are those of the corrected `GatewaySpec.Edit`. |
| Gateway.TelegramService.AppendText | src/WinTenDev.Zizi.Services/Telegram/TelegramService.cs:1060-1077 | Send on an empty buffer, otherwise an edit to the accumulated text, as `GatewaySpec.AppendText`. |
| Gateway.TelegramService.Delete | src/WinTenDev.Zizi.Services/Telegram/TelegramService.cs:1091-1130 | The delete request, exceptions swallowed, as `GatewaySpec.Delete`. |
| Gateway.TelegramService.AnswerCallbackQuery | src/WinTenDev.Zizi.Services/Telegram/TelegramService.cs:1149-1167 | One answer request for the callback when there is one; otherwise nothing changes. |
| Gateway.TelegramService.SendMediaGroup | src/WinTenDev.Zizi.Services/Telegram/TelegramService.cs:946-978 | One album request. The sent messages come on success, and the exception on failure. |
| Gateway.TelegramService.SendMedia | src/WinTenDev.Zizi.Services/Telegram/TelegramService.cs:864-944 | Without a message it throws. Otherwise it makes one request of the media's type, with the caption annotated when non-empty. Success makes that message the sent message; a failure throws. An unknown media type sends nothing. |
| Gateway.TelegramService.RestrictMember | src/WinTenDev.Zizi.Services/Telegram/TelegramService.cs:1312-1380 | The restrict request with `AllPermissions(unMute)` and `RestrictUntil`. |
| Gateway.TelegramService.UnmuteChatMember | src/WinTenDev.Zizi.Services/Telegram/TelegramService.cs:1382-1385 | A restrict with unmute. |
| Gateway.TelegramService.UnBanMember | src/WinTenDev.Zizi.Services/Telegram/TelegramService.cs:1237-1254 | One unban request. A failure sends its error text to the chat. |
| Gateway.TelegramService.KickMember | src/WinTenDev.Zizi.Services/Telegram/TelegramService.cs:1184-1215 | The ban until now, and the unban when asked, as `GatewaySpec.Kick`. |
| Gateway.TelegramService.CheckFromAdmin | src/WinTenDev.Zizi.Services/Telegram/TelegramService.cs:422-433 | False in a private chat. Otherwise a positive user id overwrites `FromId`, and the result is whether that member is an admin. |
| Gateway.TelegramService.SendWarningStep | src/WinTenDev.Zizi.Services/Telegram/TelegramService.cs:1497-1536 | The mute, the warning and the replacement of the earlier warning, as `GatewaySpec.SendWarningStep`. |
| Gateway.TelegramService.ReplaceEarlierWarning | src/WinTenDev.Zizi.Services/Telegram/TelegramService.cs:1520-1536 | After a warning send that did not throw, a stored step of this chat, member and name has its warning message deleted, and nothing else changes. Without such a step the state is unchanged; a throwing send throws. |
| Gateway.TelegramService.ScheduleKickJob | src/WinTenDev.Zizi.Services/Telegram/TelegramService.cs:1567-1594 | One job and one `NeedVerify` step that names it. |
| Gateway.TelegramService.RunCheckUserUsername | src/WinTenDev.Zizi.Services/Telegram/TelegramService.cs:1418-1460 | The decision chain of the username check, as `GatewaySpec.RunCheckUserUsername`. |
| Gateway.TelegramService.RunCheckUserProfilePhoto | src/WinTenDev.Zizi.Services/Telegram/TelegramService.cs:1462-1495 | The decision chain of the profile-photo check. |
| Gateway.TelegramService.RunMode | src/WinTenDev.Zizi.Services/Telegram/TelegramService.cs:589-623 | The effect of one callback mode, as `GatewaySpec.RunMode`. |
| Gateway.TelegramService.CallbackAnswer | src/WinTenDev.Zizi.Services/Telegram/TelegramService.cs:572-628 | The modes run in order, stopping at the first exception. The result is the last updated message. |
| MessageExtension.DropMessageRows | src/WinTenDev.Zizi.Services/Extensions/TelegramServiceMessageExtension.cs:57-62 | A row is kept exactly when it is an old row not about the given message of the given chat. |
| MessageExtension.AlbumRows | src/WinTenDev.Zizi.Services/Extensions/TelegramServiceMessageExtension.cs:92-111 | One row per album message, in order, each with the flag and the deletion time. |
| MessageExtension.AlbumRowsTwice | src/WinTenDev.Zizi.Services/Extensions/TelegramServiceMessageExtension.cs:92-111 | As written, row by row: with the sender included, each album message's row twice in a row (ids a, a, b, b); otherwise one row per album message, in order. |
| MessageExtension.AlbumIds | src/WinTenDev.Zizi.Services/Extensions/TelegramServiceMessageExtension.cs:96-98 | The ids of the sent album messages, in order. |
| MessageExtension.AlbumRowsTwiceIds | src/WinTenDev.Zizi.Services/Extensions/TelegramServiceMessageExtension.cs:92-111 | As written, every recorded id is the id of an album message; none is the sender's unless it is part of the album. |
| MessageExtension.AlbumSenderRows | src/WinTenDev.Zizi.Services/Extensions/TelegramServiceMessageExtension.cs:78-114 | With the sender included, the as-written version adds twice as many rows as album messages, all for album ids. The corrected one adds one row more than the album, and the first is the sender's message. |
| MessageExtension.ResponseRows | src/WinTenDev.Zizi.Services/Extensions/TelegramServiceMessageExtension.cs:21-44 | A response without a deletion time records nothing. With one, the sender's row comes first (when asked), then the sent message's row, flagged with the command. |
| MessageExtension.EditResponseReplacesRows | src/WinTenDev.Zizi.Services/Extensions/TelegramServiceMessageExtension.cs:46-76 | An edited response drops the edited message's rows before recording the new ones. |
| MessageExtension.ScanDecision | src/WinTenDev.Zizi.Services/Extensions/TelegramServiceMessageExtension.cs:116-209 | When a deletion is decided, it is for the scanned message's own id. |
| MessageExtension.ScanDeletesExactly | src/WinTenDev.Zizi.Services/Extensions/TelegramServiceMessageExtension.cs:122-175 | The scan deletes exactly when none of its exemptions applies: ignored chat, no message, filter off, admin or anonymous sender, sudoer word-list command, empty text, negative verdict. |
| MessageExtension.ScanSparesPrivileged | src/WinTenDev.Zizi.Services/Extensions/TelegramServiceMessageExtension.cs:140-161 | Admins, the chat's anonymous admin and sudoers editing the word list are never deleted. |
| MessageExtension.ScanMessage | src/WinTenDev.Zizi.Services/Extensions/TelegramServiceMessageExtension.cs:116-209 | The result is true exactly when `ScanDecision` decides a deletion. The state is then that one delete, and otherwise unchanged. |
| MessageExtension.SpamAlertOf | src/WinTenDev.Zizi.Services/Extensions/TelegramServiceMessageExtension.cs:216-283 | An alert is about the sender. It carries the ban and clear buttons for that sender, is flagged as spam detection, and is deleted a day later. |
| MessageExtension.NoAlertNoRequest | src/WinTenDev.Zizi.Services/Extensions/TelegramServiceMessageExtension.cs:216-253 | The check answers false exactly when no alert is raised, and then makes no request and changes nothing. |
| MessageExtension.SpamCheckSends | src/WinTenDev.Zizi.Services/Extensions/TelegramServiceMessageExtension.cs:255-284 | With an alert and a chat, one or two new requests (the send and its retry), each a text message with the alert's text and the two buttons for the sender; earlier requests kept. A delivered alert answers true and adds exactly one history row: the alert's message id, flagged as spam detection, deleted a day later. |
| MessageExtension.CheckUpdateHistory | src/WinTenDev.Zizi.Services/Extensions/TelegramServiceMessageExtension.cs:211-285 | The service ends as `SpamCheck` says: no alert answers false; otherwise the alert is sent and, when delivered, recorded under its flag and deletion time; a throwing send throws. |
| MessageExtension.CountLinksPositive | src/WinTenDev.Zizi.Services/Extensions/TelegramServiceMessageExtension.cs:236-245 | The link count is positive exactly when a mention or URL entity is there. |
| MessageExtension.SpamAlertExactly | src/WinTenDev.Zizi.Services/Extensions/TelegramServiceMessageExtension.cs:216-253 | The alert is raised exactly when every condition holds: not a private group, not a channel, not ignored, privacy mode off, a mention or link, no recent updates. |
| MessageExtension.DeleteAllRequests | src/WinTenDev.Zizi.Services/Extensions/TelegramServiceMessageExtension.cs:305-314 | For ids other than -1, only the request log changes: one delete per listed id, in order, appended to it. |
| MessageExtension.DeleteMessageMany | src/WinTenDev.Zizi.Services/Extensions/TelegramServiceMessageExtension.cs:287-315 | Without a message it throws and changes nothing. Otherwise the member's listed messages are deleted one by one, in order. The member is the sender for -1, else the given user. |
| MessageExtension.SendMessageText | src/WinTenDev.Zizi.Services/Extensions/TelegramServiceMessageExtension.cs:21-44 | The send, then (with a deletion time, after a send that did not throw) the sender's and the sent message's rows, as `SendResponse` and `ResponseRows` state. |
| MessageExtension.SaveRows | src/WinTenDev.Zizi.Services/Extensions/TelegramServiceMessageExtension.cs:33-41 | The sender's row when asked, then the sent message's row. It stops at the first row that cannot be made. |
| MessageExtension.EditMessageText | src/WinTenDev.Zizi.Services/Extensions/TelegramServiceMessageExtension.cs:46-76 | The edit; then, with a deletion time, the edited message's old rows are dropped and the new rows recorded, as `EditResponse`. |
| MessageExtension.SendMediaGroup | src/WinTenDev.Zizi.Services/Extensions/TelegramServiceMessageExtension.cs:78-114 | The album request, then (with a deletion time) the sender's row when asked and one row per sent album message, as the corrected `SendAlbumResponse`. |
| Settings.FirstIndex | src/WinTenDev.Zizi.Services/Internals/SettingsService.cs:53-65 | The index of the first row of the chat. None means no row of the chat. |
| Settings.FirstIndexIs | src/WinTenDev.Zizi.Services/Internals/SettingsService.cs:53-65 | With one row per chat, the only row of a chat is its first. |
| Settings.FirstRow | src/WinTenDev.Zizi.Services/Internals/SettingsService.cs:53-65 | The first row of the chat, if any, belongs to that chat. |
| Settings.AppendRow | src/WinTenDev.Zizi.Services/Internals/SettingsService.cs:238-252 | An inserted row becomes the chat's row, leaves the other chats' rows alone, and keeps one row per chat. |
| Settings.MergeRow | src/WinTenDev.Zizi.Services/Internals/SettingsService.cs:238-252 | A merge into the chat's row changes only that chat's row and keeps one row per chat. |
| Settings.ReplaceUnderscoreKeepsHead | src/WinTenDev.Zizi.Services/Internals/SettingsService.cs:196-198 | Replacing underscores keeps a first character that is not an underscore. |
| Settings.SettingButtonShowsState | src/WinTenDev.Zizi.Services/Internals/SettingsService.cs:184-211 | The caption starts with ✅ when on and 🚫 when off. The data starts with `setting enable_` exactly when on, and with `setting disable` when off. |
| Settings.ToggleColumnsAreToggles | src/WinTenDev.Zizi.Services/Internals/SettingsService.cs:138-152 | Every menu column starts with `enable_`. |
| Settings.CacheKeyInjective | src/WinTenDev.Zizi.Services/Internals/SettingsService.cs:48-51 | Two reduced ids give the same cache key exactly when they are equal. |
| Settings.RowsWithout | src/WinTenDev.Zizi.Services/Internals/SettingsService.cs:111-121 | A row is kept exactly when it is a row of another chat, and no remaining row belongs to the chat. |
| Settings.DeleteKeepsOthers | src/WinTenDev.Zizi.Services/Internals/SettingsService.cs:111-121 | Dropping a chat's rows keeps one row per chat. |
| Settings.SettingsService.constructor | src/WinTenDev.Zizi.Services/Internals/SettingsService.cs:21-28 | An empty table and cache. |
| Settings.SettingsService.CacheKeyShared | src/WinTenDev.Zizi.Services/Internals/SettingsService.cs:48-51 | Two chats share a cache entry exactly when their reduced ids agree. |
| Settings.SettingsService.Stored | src/WinTenDev.Zizi.Services/Internals/SettingsService.cs:53-65 | The stored row, if any, belongs to the chat, and it is absent exactly when the chat has no row. |
| Settings.SettingsService.IsSettingExist | src/WinTenDev.Zizi.Services/Internals/SettingsService.cs:39-46 | True exactly when the chat has a row. |
| Settings.SettingsService.GetSettingsByGroup | src/WinTenDev.Zizi.Services/Internals/SettingsService.cs:67-82 | A cached setting is returned unchanged. On a miss, the typed row (or the default setting) is cached and returned. The table is never touched. |
| Settings.SettingsService.UpdateCache | src/WinTenDev.Zizi.Services/Internals/SettingsService.cs:95-109 | A chat with a row gets its cache entry refreshed from the row. A chat without one leaves the cache as it is. |
| Settings.SettingsService.SaveSettings | src/WinTenDev.Zizi.Services/Internals/SettingsService.cs:230-260 | A payload without a chat id throws and changes nothing. Otherwise the payload becomes the chat's row when it had none, or is merged into its existing row. The cache entry is refreshed from that row, every other chat's row is kept, there is still one row per chat, and the result is 1. |
| Settings.SettingsService.UpdateCell | src/WinTenDev.Zizi.Services/Internals/SettingsService.cs:262-276 | Only that column of the chat's rows changes, then the cache is refreshed. The result is the number of rows changed. |
| Settings.SettingsService.ToggleButtons | src/WinTenDev.Zizi.Services/Internals/SettingsService.cs:176-212 | One button per column, in order, each the `SettingButton` of the column's stored value. |
| Settings.SettingsService.GetSettingButtonByGroup | src/WinTenDev.Zizi.Services/Internals/SettingsService.cs:134-228 | One button per menu column, read from the chat's first row. A chat without a row throws. |
| Settings.SettingsService.DeleteSettings | src/WinTenDev.Zizi.Services/Internals/SettingsService.cs:111-121 | The chat's rows go and the others stay. The cache is untouched. The result is the number of rows removed. |
| ForceSubs.DropPair | src/WinTenDev.Zizi.Services/Internals/ForceSubsService.cs:62-66 | An entry is kept exactly when it is an old entry of another pair. |
| ForceSubs.Matching | src/WinTenDev.Zizi.Services/Internals/ForceSubsService.cs:24-28 | Exactly the entries of the pair. |
| ForceSubs.OfChat | src/WinTenDev.Zizi.Services/Internals/ForceSubsService.cs:42-46 | Exactly the subscriptions of the group. |
| ForceSubs.DropPairRemovesAtMostOne | src/WinTenDev.Zizi.Services/Internals/ForceSubsService.cs:57-71 | Without duplicate pairs, a delete removes at most one entry, and exactly one when the pair is stored. |
| ForceSubs.NothingToDrop | src/WinTenDev.Zizi.Services/Internals/ForceSubsService.cs:57-71 | Deleting an absent pair changes nothing. |
| ForceSubs.DropKeepsNoDuplicates | src/WinTenDev.Zizi.Services/Internals/ForceSubsService.cs:57-71 | A delete never creates a duplicate pair. |
| ForceSubs.ForceSubsService.constructor | src/WinTenDev.Zizi.Services/Internals/ForceSubsService.cs:13-16 | An empty store. |
| ForceSubs.ForceSubsService.SaveSubs | src/WinTenDev.Zizi.Services/Internals/ForceSubsService.cs:18-38 | The subscription is appended and 1 returned exactly when its pair is new. Otherwise 0 is returned and the store is unchanged. No pair is ever stored twice. |
| ForceSubs.ForceSubsService.GetSubs | src/WinTenDev.Zizi.Services/Internals/ForceSubsService.cs:40-55 | Exactly the group's subscriptions. |
| ForceSubs.ForceSubsService.DeleteSubs | src/WinTenDev.Zizi.Services/Internals/ForceSubsService.cs:57-71 | The pair's entries go and the others stay, and no entry of the pair is left. The result is how many went: at most one while no pair is stored twice. |
| TagCommand.DropTag | src/WinTenDev.ZiziBot.AppHost/Handlers/Commands/Tags/TagCommand.cs:88-92 | A tag is kept exactly when it is an old tag other than the chat's tag of that name. |
| TagCommand.DropTagKeepsUnique | src/WinTenDev.ZiziBot.AppHost/Handlers/Commands/Tags/TagCommand.cs:88-92 | Deleting a tag keeps every chat's tag names unique. |
| TagCommand.TagsService.constructor | src/WinTenDev.ZiziBot.AppHost/Handlers/Commands/Tags/TagCommand.cs:19-26 | An empty tag store with no cache refreshes. |
| TagCommand.TagsService.DeleteTag | src/WinTenDev.ZiziBot.AppHost/Handlers/Commands/Tags/TagCommand.cs:91 | The tags become `DropTag` of the old tags. |
| TagCommand.TagsService.SaveTag | src/WinTenDev.ZiziBot.AppHost/Handlers/Commands/Tags/TagCommand.cs:125 | The record is appended. |
| TagCommand.TagsService.UpdateCache | src/WinTenDev.ZiziBot.AppHost/Handlers/Commands/Tags/TagCommand.cs:131 | A cache refresh of the chat is recorded. |
| TagCommand.Record | src/WinTenDev.ZiziBot.AppHost/Handlers/Commands/Tags/TagCommand.cs:94-122 | The saved record has the trimmed slug as its tag, the chat and the sender. Its content is the reply's text, else its caption, else "". With a file id on the reply it has that id and its type; otherwise the file id is "" and there is no type. |
| TagCommand.HandleAsync | src/WinTenDev.ZiziBot.AppHost/Handlers/Commands/Tags/TagCommand.cs:28-132 | Service, tags and refreshes end as `HandleTag` says: the context, then `Checked` on the corrected verdict. |
| TagCommand.RunChecks | src/WinTenDev.ZiziBot.AppHost/Handlers/Commands/Tags/TagCommand.cs:32-62 | The admin and reply checks, then the rest of the handler, as `Checked` on `CheckTag`. |
| TagCommand.CheckSlug | src/WinTenDev.ZiziBot.AppHost/Handlers/Commands/Tags/TagCommand.cs:66-84 | The slug checks, then the save, as `Checked` on `CheckTag`. |
| TagCommand.Finish | src/WinTenDev.ZiziBot.AppHost/Handlers/Commands/Tags/TagCommand.cs:86-92 | The announcement and the `/retag` deletion, then the save, as `Prepare`. |
| TagCommand.Save | src/WinTenDev.ZiziBot.AppHost/Handlers/Commands/Tags/TagCommand.cs:94-122 | The existence check on the trimmed slug, then the record of `Record`, as `Saved`. |
| TagCommand.SaveRecord | src/WinTenDev.ZiziBot.AppHost/Handlers/Commands/Tags/TagCommand.cs:124-131 | The two progress edits around the save, then the cache refresh, as `Saved`. |
| TagCommandFacts.StoredOnlyAfterEveryCheck | src/WinTenDev.ZiziBot.AppHost/Handlers/Commands/Tags/TagCommand.cs:42-104 | The verdict is to store exactly when every check holds: sudoer or admin, a message with a reply, a first word of three characters or more, and no tag of that trimmed name in the chat after the `/retag` deletion. The record stored is `Record` of that word. |
| TagCommandFacts.ButtonDataSkipsSlugCharacters | src/WinTenDev.ZiziBot.AppHost/Handlers/Commands/Tags/TagCommand.cs:77 | The button data is the text after its longest prefix of characters that occur in the slug, trimmed. |
| TagCommandFacts.NonAdminOnlyRefused | src/WinTenDev.ZiziBot.AppHost/Handlers/Commands/Tags/TagCommand.cs:42-48 | A sender who is neither sudoer nor admin causes at least one request, and every request sends the refusal text. The tags and refreshes are unchanged. |
| TagCommandFacts.NoReplyOnlyHelped | src/WinTenDev.ZiziBot.AppHost/Handlers/Commands/Tags/TagCommand.cs:50-62 | Without a reply, at least one request is made and every request sends the help text. The tags and refreshes are unchanged. |
| TagCommandFacts.StoresOnlyItsRecord | src/WinTenDev.ZiziBot.AppHost/Handlers/Commands/Tags/TagCommand.cs:79-131 | Unless the verdict is to store, every remaining tag was there before and no cache is refreshed. A store that runs to its end leaves the tags before the check plus its record, and refreshes the chat's cache. |
| TagCommandFacts.PreparedTags | src/WinTenDev.ZiziBot.AppHost/Handlers/Commands/Tags/TagCommand.cs:86-131 | The tags after the handler are the old ones, the old ones without the forced tag, or those plus the record. Only a save refreshes the cache. |
| TagCommandFacts.SavedTags | src/WinTenDev.ZiziBot.AppHost/Handlers/Commands/Tags/TagCommand.cs:97-131 | A duplicate changes nothing. A completed save appends the record and refreshes the chat. |
| TagCommandFacts.KeepsTagsUnique | src/WinTenDev.ZiziBot.AppHost/Handlers/Commands/Tags/TagCommand.cs:88-125 | With the existence check on the trimmed name, the command never gives a chat two tags of one name. |
| TagCommandFacts.AddKeepsUnique | src/WinTenDev.ZiziBot.AppHost/Handlers/Commands/Tags/TagCommand.cs:97-125 | Appending a record whose name its chat lacks keeps the names unique. |
| TagCommandFacts.AsWrittenDuplicatesTrimmedSlug | src/WinTenDev.ZiziBot.AppHost/Handlers/Commands/Tags/TagCommand.cs:75-110 | As written, a slug whose trimmed name exists but whose untrimmed name does not passes the check, and the chat gets two tags of that name. The corrected check reports the duplicate. |
| TagCommandFacts.TabEndedSlugIsFirstWord | src/WinTenDev.ZiziBot.AppHost/Handlers/Commands/Tags/TagCommand.cs:71-75 | The slug of `abc\t link` is `abc\t`. |
| TagCommandFacts.TabEndedSlugTrimmed | src/WinTenDev.ZiziBot.AppHost/Handlers/Commands/Tags/TagCommand.cs:79-110 | `abc\t` passes the length check and is stored as `abc`. |
| WelcomeCommand.HandleAsync | src/WinTenDev.ZiziBot.AppHost/Handlers/Commands/Welcome/WelcomeCommand.cs:27-84 | The service ends as `HandleWelcome` says: the context, the admin check, then `Shown`. |
| WelcomeCommand.ShowConfig | src/WinTenDev.ZiziBot.AppHost/Handlers/Commands/Welcome/WelcomeCommand.cs:42-83 | The settings are read, the text composed and sent, as `Shown`. |
| WelcomeCommand.Compose | src/WinTenDev.ZiziBot.AppHost/Handlers/Commands/Welcome/WelcomeCommand.cs:48-74 | The text built by successive appends is `WelcomeText`, and the keyboard is `WelcomeKeyboard`. |
| WelcomeCommandFacts.TextOpensWithHeader | src/WinTenDev.ZiziBot.AppHost/Handlers/Commands/Welcome/WelcomeCommand.cs:48-64 | The text opens with the header naming the chat. After the header comes the default-template explanation when no message is stored, otherwise the stored message in `<code>`. |
| WelcomeCommandFacts.ButtonShownWhenStored | src/WinTenDev.ZiziBot.AppHost/Handlers/Commands/Welcome/WelcomeCommand.cs:66-74 | The keyboard is the parsed buttons exactly when a button text is stored, and empty otherwise. A stored button text ends the text with the raw-button block. |
| WelcomeCommandFacts.TextShowsStoredMessage | src/WinTenDev.ZiziBot.AppHost/Handlers/Commands/Welcome/WelcomeCommand.cs:63 | With the same button text, different stored messages give different texts. |
| WelcomeCommandFacts.OthersGetNothing | src/WinTenDev.ZiziBot.AppHost/Handlers/Commands/Welcome/WelcomeCommand.cs:40 | For a sender who is neither admin nor anonymous admin, the command is the context derivation alone and makes no request. |
| WelcomeCommandFacts.OneSend | src/WinTenDev.ZiziBot.AppHost/Handlers/Commands/Welcome/WelcomeCommand.cs:76-83 | For an admin the requests only extend the log. With stored media there is at most one new request, no text message, of the media's file and type, whose caption starts with the text. Without media there is at least one, and each sends the text with the keyboard. |
| WelcomeCommandFacts.ShownWithMedia | src/WinTenDev.ZiziBot.AppHost/Handlers/Commands/Welcome/WelcomeCommand.cs:76-79 | The media branch alone: one request at most, of the media's type, captioned with the text. |
| WelcomeCommandFacts.ShownAsText | src/WinTenDev.ZiziBot.AppHost/Handlers/Commands/Welcome/WelcomeCommand.cs:80-83 | The text branch alone: every request carries the text and the keyboard, and there is one whenever there is a chat. |
| Octokit.RepoOf | src/WinTenDev.Zizi.Services/Externals/OctokitApiService.cs:41-43 | The owner is present exactly when the URL has a fourth `/`-part, and the repository exactly when it has a fifth. |
| Octokit.RepoOfRepositoryUrl | src/WinTenDev.Zizi.Services/Externals/OctokitApiService.cs:41-43 | For `scheme//host/owner/repo…` the pair is (owner, repo). |
| Octokit.CachedOnce | src/WinTenDev.Zizi.Services/Externals/OctokitApiService.cs:45-53 | A second lookup of a URL asks GitHub nothing and gives the same answer, raised or not. A cached URL answers its entry without a request. At most one request is made. |
| Octokit.KeyIsTheUrl | src/WinTenDev.Zizi.Services/Externals/OctokitApiService.cs:45-53 | Two different uncached URLs naming valid repositories are two entries and two requests, even for one repository. |
| Octokit.CachedReleasesCases | src/WinTenDev.Zizi.Services/Externals/OctokitApiService.cs:39-56 | A cached URL answers its entry and changes nothing. An uncached one throws exactly when its owner or name is missing or empty, and then nothing is cached or asked. Otherwise GitHub is asked once for the repository and the answer cached under the URL. |
| Octokit.ShortUrlRaises | src/WinTenDev.Zizi.Services/Externals/OctokitApiService.cs:41-53 | An uncached URL with fewer than five `/`-parts throws, caching and asking nothing. |
| Octokit.KeptAssets | src/WinTenDev.Zizi.Services/Externals/OctokitApiService.cs:75-76 | An asset is kept exactly when its size is within the limit. |
| Octokit.KeptAssetsAppend | src/WinTenDev.Zizi.Services/Externals/OctokitApiService.cs:75-76 | The filter keeps the order: filtering a concatenation filters each half. |
| Octokit.Documents | src/WinTenDev.Zizi.Services/Externals/OctokitApiService.cs:78-103 | One document per asset, at the same position, named and captioned with the asset's name. |
| Octokit.DocumentsAppend | src/WinTenDev.Zizi.Services/Externals/OctokitApiService.cs:78-103 | Documents of a concatenation are the concatenated documents. |
| Octokit.AlbumOfFirstRelease | src/WinTenDev.Zizi.Services/Externals/OctokitApiService.cs:66-103 | The album is null exactly for no releases. Otherwise it holds, in order, one document for each asset of the first release within the limit, and for no other asset. |
| Octokit.SizeLimitAsWrittenValue | src/WinTenDev.Zizi.Services/Externals/OctokitApiService.cs:76 | The limit as written, `100 * 1024 ^ 2`, is 102402. |
| Octokit.XorLimitDropsLargeAssets | src/WinTenDev.Zizi.Services/Externals/OctokitApiService.cs:75-76 | As written, an asset between 102402 bytes and 100 MB is left out of the album. With the 100 MB limit it is in. |
| Octokit.OctokitApiService.constructor | src/WinTenDev.Zizi.Services/Externals/OctokitApiService.cs:20-27 | An empty cache and no requests. |
| Octokit.OctokitApiService.GetGithubReleaseAssets | src/WinTenDev.Zizi.Services/Externals/OctokitApiService.cs:39-56 | Cache, requests and answer are those of `CachedReleases`: a refused owner or name throws with cache and requests unchanged. |
| Octokit.OctokitApiService.GetLatestReleaseAssets | src/WinTenDev.Zizi.Services/Externals/OctokitApiService.cs:58-104 | When the lookup throws, it throws. Otherwise the loop over the kept assets builds `LatestAlbum` of the cached releases with the 100 MB limit (null for no releases). Cache and requests are those of `CachedReleases`. |
| Text.Split | src/WinTenDev.Zizi.Services/Telegram/TelegramService.cs:214 | There is always at least one part, and no part contains the separator. |
| Text.JoinSplit | src/WinTenDev.Zizi.Services/Telegram/TelegramService.cs:214 | Splitting loses nothing: joining the parts with the separator gives the text back. |
| Text.TrimStartChars | src/WinTenDev.ZiziBot.AppHost/Handlers/Commands/Tags/TagCommand.cs:77 | The result is a suffix of the text that does not start with one of the characters. |

## Left out

- **Platform:**
  - The Bot API, the SQL and MongoDB stores, Hangfire, the cache service, logging and the clock are parameters of `Env` (`respond`, `groupIds`, `now`, `delay`, `settingOf`, `chatAdmins`, `sudoers`), not implementations.
  - `GetDelay` timing strings are `delay`, an opaque function.
  - Time is whole seconds.
  - `Thread.Sleep` and `.InBackground()` are left out; background saves are modelled as done at once, in order.
- **Concurrency:** the parallel loops of `CallbackAnswerAsync` and `DeleteMessageManyAsync` are modelled one mode or one id after another. Interleavings are not modelled.
- **Stand-ins for external helpers:**
  - These external services are parameters of the operation that uses them:
    - `IsErrorAsWarning` (the outcome's `isWarning` flag);
    - `IsAdminOrPrivateChat` (`isAdmin`);
    - `GetTextWithoutCmd` (`withoutCmd`);
    - the word filter (`mustDelete`);
    - `IsGlobalIgnored`, `IsPrivateGroup` and `IsChannel`;
    - the message lookup of `DeleteMessageManyAsync` (`messagesOf`).
  - `ReduceChatId` and `ToBool` are constant functions of `SettingsService`.
  - `ToReplyMarkup` is `ParsedButtons`, an opaque value.
  - `SplitText` is taken to drop empty parts; the tag command reads its first part.
  - `GetFullName` and `GetNameLink` are opaque.
- **`SendTextMessageAsync` overload:** `CheckUpdateHistoryAsync` calls the overload that takes a deletion time, a message flag and `preventDuplicateSend`. That overload is not part of this model. It is modelled as the plain send followed by one history row of the delivered message, under the flag and deletion time given. Duplicate prevention is not modelled.
- **Alert text:** the HTML builder of the spam alert is written out as plain tags; `GetMentionAdminsStr` is the parameter `mentionAdmins`.
- **Downloads and uploads:**
  - `DownloadFileAsync` is left out.
  - The `LocalDocument` upload of `SendMediaAsync` is modelled as a document request naming the path.
  - `OctokitApiService` downloads the assets to a temporary directory named after the chat; that download and the chat id are left out, and the album names each document by its asset name.
- **Text formatting:** HTML rendering and entity parsing are not part of this model. Texts are sequences of characters, with no Unicode normalisation or case rules beyond ASCII title case.
- **Events and formatting helpers:**
  - `SendEventLogAsync` and its `Core`/`Raw` variants only format and send a text, so only the `GetEventLogTargets` filter is modelled.
  - `FireAnalyzer` and the floating-point mute arithmetic are left out.
  - `EnsureChatSettingsAsync`, `GetFeatureConfig`, `NotifyPendingCount`, `EditMessageCallback`, `ForwardMessageAsync`, `PromoteChatMemberAsync` and `DemoteChatMemberAsync` lie outside the modelled operations.
  - The other `Get*` queries of the service are reads of the Bot API that no modelled operation needs.
- **Kick job:** the kick job's body (`MemberKickJob`) is not part of this model. Only what `ScheduleKickJob` records is.
- **`TagsService`:** only an in-memory list of records with the operations the command calls. `ValueOfIndex(0)` of an empty split is taken to be null, so the next line throws (verdict `NoSlug`).
- **`CacheService.GetOrSetAsync`:** modelled as a map that never expires.
- **`Settings.SettingsService.DeleteSettings`:** it does not refresh the cache, as written. A cached setting outlives the deleted row, and the model keeps this.
- Gateway.TelegramService.AddUpdate: it is the corrected derivation from the argument. The as-written `GatewaySpec.AddUpdateAsWritten` is kept beside it.
- Gateway.TelegramService.EditMessageText: it is the corrected edit, which records history after a successful edit too. `GatewaySpec.EditAsWritten` is the code as written.
- MessageExtension.SendMediaGroup: it records the corrected rows (the sender's message once, then each album message once). The code as written, which saves each album message twice and the sender never, is `MessageExtension.SendAlbumResponseAsWritten`.
- TagCommand.HandleAsync: it runs the corrected existence check on the trimmed slug. The code as written checks the untrimmed slug; that is `TagCommand.VerdictAsWritten`.
- TagCommand.RunChecks: it leads into the corrected existence check, as `TagCommand.HandleAsync` does.
- TagCommand.CheckSlug: it leads into the corrected existence check, as `TagCommand.HandleAsync` does.
- TagCommand.Finish: it leads into the corrected existence check, as `TagCommand.HandleAsync` does.
- TagCommand.Save: it checks the trimmed slug, the name that is stored. The code as written checks the untrimmed one; that is `TagCommand.VerdictAsWritten`.
- Octokit.OctokitApiService.GetLatestReleaseAssets: it filters with the 100 MB limit the comment states. The code as written, with the XOR limit of 102402 bytes, is `Octokit.LatestAlbumAsWritten`.
- **Octokit client:** `GitHubClient` is not part of this model. Its argument check, which throws for a null or empty owner or name before any request, is `ValidRepo`. GitHub's own errors are not modelled: `fetch` always answers.
- **Partial `AddUpdate`:** a context partly assigned before a null dereference is not modelled. A throwing derivation leaves the context as it was.

## Findings

| source | as written | input that shows it | evidently intended | confidence | as-written member | corrected member |
|---|---|---|---|---|---|---|
| src/WinTenDev.Zizi.Services/Telegram/TelegramService.cs:227-236 | `AddUpdate(update)` reads every part from the `Update` field and never from its argument | `AddUpdate(u)` with the field holding an update of chat 1 and `u` from chat 2 gives chat id 1 | derive the context from the argument | medium, not executed (its only caller in these files stores the update first) | GatewaySpec.AddUpdateAsWritten, GatewayFacts.AddUpdateReadsStoredUpdate | GatewaySpec.AddUpdate, Gateway.TelegramService.AddUpdate, GatewayFacts.AddUpdateContextUsesArgument |
| src/WinTenDev.Zizi.Services/Telegram/TelegramService.cs:1002-1011, 1029-1030 | a successful edit returns before the scheduled-deletion save, so only failed edits are recorded | an edit with `scheduleDeleteAt` set whose request succeeds records no history row | record the edited message for deletion after a success, as the send does | medium, not executed | GatewaySpec.EditAsWritten, GatewayFacts.EditSkipsHistoryOnSuccess | GatewaySpec.Edit, Gateway.TelegramService.EditMessageText, GatewayFacts.EditAgreesOtherwise |
| src/WinTenDev.Zizi.Services/Extensions/TelegramServiceMessageExtension.cs:96-109 | with `IncludeSenderForDelete`, each album message id is saved twice and the sender's message never | an album of two messages with the sender included records ids a, a, b, b | save the sender's message once, then each album message once | high, not executed | MessageExtension.SendAlbumResponseAsWritten, MessageExtension.AlbumRowsTwiceIds, MessageExtension.AlbumSenderRows | MessageExtension.SendAlbumResponse, MessageExtension.SendMediaGroup, MessageExtension.AlbumSenderRows |
| src/WinTenDev.Zizi.Services/Externals/OctokitApiService.cs:75-76 | `100 * 1024 ^ 2` is `(100 * 1024) XOR 2` = 102402 bytes | a release whose only asset is 1048576 bytes gives an empty album | 100 MB, as the comment beside it says | high, not executed | Octokit.LatestAlbumAsWritten, Octokit.XorLimitDropsLargeAssets | Octokit.LatestAlbum, Octokit.OctokitApiService.GetLatestReleaseAssets, Octokit.AlbumOfFirstRelease |
| src/WinTenDev.ZiziBot.AppHost/Handlers/Commands/Tags/TagCommand.cs:75, 97, 110 | the existence check looks up the untrimmed slug while the record stores the trimmed one | `/tag abc\t link` as a reply, in a chat that has tag `abc`, stores a second `abc` | check the name that is stored, `slugTag.Trim()` | low, not executed (depends on what `GetTextWithoutCmd` and `SplitText` leave in the slug) | TagCommand.VerdictAsWritten, TagCommandFacts.AsWrittenDuplicatesTrimmedSlug, TagCommandFacts.TabEndedSlugIsFirstWord, TagCommandFacts.TabEndedSlugTrimmed | TagCommand.CheckTag, TagCommand.Save, TagCommandFacts.KeepsTagsUnique |
