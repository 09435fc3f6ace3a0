# whatsAppClone chat core in Dafny

This project models the core of the whatsAppClone messenger. It covers:

- **Main service.** The `ChatService` over the chat and chat-member
  collections, the `ChatController` that validates HTTP requests and shapes
  responses, the `MessageService`, the socket.io `send-message` /
  `join-room` / `leave-room` handler, the Mongoose schemas as validity
  predicates, and the `ApiError` class with its factories.
- **Auth service.** The `TokenService` over the refresh-token collection,
  the `authMiddleware`, the `UserDto` and the `isValidPaiload` payload check.
  Its own `ApiError` class is included too.
- **Client.** The MobX `ChatStore`, the `AuthService` error translation, the
  `parseHtmlError` utility and the `RegisterForm` submit logic.

## How the model is built

- **Collections.** Each MongoDB collection is a value held by a class whose
  methods update it in place:
  - `ChatService.Service` holds `chats: map<Id, Chat>` and
    `members: seq<ChatMember>`.
  - `MessageService.MessageTable` holds its rows.
  - `TokenService.TokenTable` holds its records.

  A `findOne` is the first match in insertion order.
- **Schemas.** A stored chat has only the paths the Chat schema declares,
  because Mongoose's strict mode drops the others (`admins`, `avatar`,
  `description`, `unreadCounts`). `Chat.create` and `insertMany` check
  their documents against the schema. One consequence is that createChat
  never returns a chat. The records it inserts give the first participant
  the role 'creator', which the ChatMember schema's role enum refuses, so
  `insertMany` writes none of them and the call ends in its 500. A chat that
  passed `Chat.create` stays stored without members. No method adds a
  first member record to a table without one: addMembers,
  updateChatMembers, deleteChat and deleteMembers all need the caller to
  have one already.
- **Errors.** The service's `try`/`catch` discipline is a `Thrown` value
  that one `Catch` function per method turns into the `ApiError` that
  escapes. Because of that, the 403/404/400 errors a method throws inside
  its own `try` reach the caller as that method's fixed 500.
- **Controllers.** The controller handlers are functions from the request
  body, params or query (a `Json` value) to a `Response`. Three things are
  parameters:
  - `Types.ObjectId.isValid` (`valid`);
  - the ObjectId constructor, which may throw (`oid`);
  - the service call (`svc`).
- **Client store and form.** `ChatStore.Store` and `RegisterForm.Form` are
  classes whose methods assign their fields.
- **Middleware.** `AuthMiddleware.Exchange` records every call of `next`.
- **Outside inputs.** Clocks, freshly generated ids and JWT verification
  are parameters. Database failures are parameters of
  `MessageService.MessageTable` (`saveError`, `dbError`) and of
  `SocketHandler.SocketServer.SendMessage` (`saveOk`) only; the chat
  service and the token table assume the database always answers.
- **JavaScript values.** `Json` stands for any JavaScript value, with
  JavaScript truthiness (`Json.Falsy`). `Text` gives JavaScript's
  whitespace set, `trim`, `indexOf`/`includes` and number-to-string
  conversion.

## Model

| member | source | states |
|---|---|---|
| ApiErrors.NewApiError | services/main-service/errors/ApiError.ts:13-23 | the error carries the given status, message, operational flag (default true) and details |
| ApiErrors.BadRequest | services/main-service/errors/ApiError.ts:35-37 | a 400, operational, with the given message and details |
| ApiErrors.Unauthorized | services/main-service/errors/ApiError.ts:39-41 | a 401, operational, no details |
| ApiErrors.Forbidden | services/main-service/errors/ApiError.ts:43-45 | a 403, operational, no details |
| ApiErrors.NotFound | services/main-service/errors/ApiError.ts:47-49 | a 404, operational, no details |
| ApiErrors.Internal | services/main-service/errors/ApiError.ts:51-53 | a 500 that is not operational |
| ApiErrors.FactoryDefaults | services/main-service/errors/ApiError.ts:39-53 | the default messages "Unauthorized", "Forbidden", "Not Found", "Internal Server Error" |
| ApiErrors.FactoriesOperationalIffClientError | services/main-service/errors/ApiError.ts:35-53 | an error from a factory is operational exactly when its status is a 4xx |
| AuthErrors.NewAuthApiError | services/auth-service/exceptions/ApiError.ts:5-9 | the error keeps status, message and error list |
| AuthErrors.UnauthorizedError | services/auth-service/exceptions/ApiError.ts:11-13 | 401, "User doesnt authorized", errors [401, "Not authorized"] |
| AuthErrors.BadRequest | services/auth-service/exceptions/ApiError.ts:15-17 | a 400 with the given message and errors |
| AuthErrors.BadRequestDefaults | services/auth-service/exceptions/ApiError.ts:15-17 | the error list defaults to empty, and a bad request is never the unauthorized error |
| Schemas.FourFieldMessageInvalid | services/main-service/models/Message.ts:6-12 | a message with only chat, sender, content and type fails the schema (id, timestamp, isRead are required) |
| Schemas.TrimName | services/main-service/models/Chat.ts:6 | the stored name is the trimmed name, and absent stays absent |
| Schemas.NewChat | services/main-service/models/Chat.ts:4-15 | a new chat holds only the declared paths: the trimmed name, the type and participants, no last message, unread count 0 and both timestamps at creation time |
| Schemas.UnnamedChatInvalid | services/main-service/models/Chat.ts:6 | a private chat created without a name fails the schema, which requires one |
| Schemas.BlankNameInvalid | services/main-service/models/Chat.ts:6 | a name of only whitespace trims to empty and fails the required check |
| Schemas.NewMember | services/main-service/models/ChatMember.ts:5-9 | role defaults to "member", joinedAt to now, lastReadMessageId to null; with the default role the record is valid |
| Schemas.CreatorRoleInvalid | services/main-service/models/ChatMember.ts:7 | a record with role "creator" is outside the role enum |
| ChatService.Catch | services/main-service/services/chat.service.ts:182-187 | an ApiError thrown inside the try becomes a 500 with the method's fixed message; only a cast or validation error the method singles out gives 400 |
| ChatService.CreateChatFailsOnlyWith500 | services/main-service/services/chat.service.ts:110-112 | createChat fails only with 500 "Failed to create chat", whatever was thrown, its own 400 checks included |
| ChatService.NotFoundBecomes500 | services/main-service/services/chat.service.ts:327-332 | a 404, 403 or 400 thrown inside the try leaves the catch as a 500 |
| ChatService.AddToSet | services/main-service/services/chat.service.ts:162-172 | `$addToSet` with `$each`: the old array is a prefix, the result holds exactly the old and new values, and no duplicates are introduced |
| ChatService.Pull | services/main-service/services/chat.service.ts:401-414 | `$pull` with `$in`: exactly the values not pulled remain, none added |
| ChatService.PullDisjoint | services/main-service/services/chat.service.ts:401-414 | pulling values that are not present leaves the array unchanged |
| ChatService.FindMember | services/main-service/services/chat.service.ts:129-136 | `ChatMember.findOne({chatId, userId})`: a record for that pair when one exists, none exactly when there is none |
| ChatService.NewUserIds | services/main-service/services/chat.service.ts:139-149 | the requested users that have no record in the chat yet, and only those |
| ChatService.RoleRecords | services/main-service/services/chat.service.ts:152-159 | one record per added user, in order, with the given role and join time |
| ChatService.CreatorRecords | services/main-service/services/chat.service.ts:90-97 | one record per participant; the first is "creator", every other is "member" |
| ChatService.RemoveRecords | services/main-service/services/chat.service.ts:424-427 | `deleteMany({chatId, userId: {$in}})`: exactly the records of the chat for those users go |
| ChatService.SetRole | services/main-service/services/chat.service.ts:312-324 | `updateMany` of role: records of the chat for those users get the role, all others unchanged |
| ChatService.InsertMany | services/main-service/models/ChatMember.ts:7 | `insertMany` writes the records after the table exactly when every one has a role in the enum, and otherwise writes none |
| ChatService.CreatorRecordsRejected | services/main-service/services/chat.service.ts:90-97 | the records createChat builds are always refused as a whole, because the first has role 'creator' |
| ChatService.RoleRecordsInserted | services/main-service/services/chat.service.ts:152-159 | addMembers' records go in exactly when the requested role is 'admin' or 'member' |
| ChatService.FindMemberFilter | services/main-service/services/chat.service.ts:354-362 | removing records never found for a pair does not change what findOne returns for it |
| ChatService.RemoveRecordsKeepsOthers | services/main-service/services/chat.service.ts:396-427 | after deleteMembers the caller, who cannot remove themselves, keeps their record |
| ChatService.CreateChatCheck | services/main-service/services/chat.service.ts:66-80 | the checks pass exactly for an acceptable request; every refusal is a 400, the name check first and the two-participant rule for private chats |
| ChatService.CreationRules | services/main-service/services/chat.service.ts:66-80 | an accepted private chat has exactly two participants; an accepted non-private chat is a named group |
| ChatService.CreatedChat | services/main-service/services/chat.service.ts:83-87 | the stored document has the new id, the request's participants and type, the trimmed name, no last message and unread count 0 |
| ChatService.UndeclaredFieldsDropped | services/main-service/services/chat.service.ts:83-87 | the request's admins, avatar and description do not change the stored chat, since the schema does not declare them |
| ChatService.CreatedChatValid | services/main-service/services/chat.service.ts:83-87 | `Chat.create` accepts a request that passed the checks exactly when its name does not trim to nothing, so an unnamed private chat is always refused |
| ChatService.SafeUpdates | services/main-service/services/chat.service.ts:193 | `_id`, `createdAt` and `updatedAt` are removed from the patch |
| ChatService.ApplyPatch | services/main-service/services/chat.service.ts:195-201 | `$set`: each given field (id, name, type, participants, last message, unread count, creation time) replaces the stored one, the name trimmed; absent fields stay; updatedAt becomes now |
| ChatService.UpdateKeepsIdentity | services/main-service/services/chat.service.ts:193-201 | a chat updated through safeUpdates keeps its id and creation time |
| ChatService.PatchKeepsValid | services/main-service/services/chat.service.ts:191-216 | a schema-valid chat patched with a validator-passing patch stays schema-valid |
| ChatService.TrimIdempotent | services/main-service/models/Chat.ts:6 | trimming a stored name again changes nothing |
| ChatService.PulledPaths | services/main-service/services/chat.service.ts:262-275 | the array paths each `$pull` touches, in order |
| ChatService.ConflictCases | services/main-service/services/chat.service.ts:256-275 | the update fails on a path conflict exactly when addMembers and removeMembers are both given and newAdmins and removeAdmins are both empty |
| ChatService.NewAdminsStillRemoveMembers | services/main-service/services/chat.service.ts:256-275 | with newAdmins and no removeAdmins there is no conflict and exactly the members to remove leave participants |
| ChatService.PullEachShrinks | services/main-service/services/chat.service.ts:262-275 | pulls never add an element |
| ChatService.NewAdminsDropAddMembers | services/main-service/services/chat.service.ts:256-271 | with newAdmins present, the later `$addToSet` assignment overwrites the one for addMembers, so no participant is added |
| ChatService.RemoveAdminsDropRemoveMembers | services/main-service/services/chat.service.ts:261-275 | with removeAdmins present, the later `$pull` assignment overwrites the one for removeMembers, so no participant is removed |
| ChatService.MemberWritesEffect | services/main-service/services/chat.service.ts:295-324 | removed members lose their record, removed admins become members, new admins become admins, and records of other chats are untouched |
| ChatService.MemberWritesInChats | services/main-service/services/chat.service.ts:295-324 | member writes never create a record for a chat that does not exist |
| ChatService.UsersChats | services/main-service/services/chat.service.ts:9-27 | exactly the chats whose participants include the user |
| ChatService.GetChat | services/main-service/services/chat.service.ts:29-46 | the stored chat, or, when missing, the 404 rewritten to 500 "Failed to fetch chat" |
| ChatService.GetMembers | services/main-service/services/chat.service.ts:48-60 | exactly the member records of the chat |
| ChatService.CreatedChatIsListed | services/main-service/services/chat.service.ts:9-27 | a chat just created is listed for each of its participants |
| ChatService.Service.CreateChat | services/main-service/services/chat.service.ts:63-113 | always fails with 500 "Failed to create chat" and adds no member record; the chat is stored exactly when it passes the four checks and the Chat schema, and then stays without members |
| ChatService.Service.AddMembers | services/main-service/services/chat.service.ts:115-188 | succeeds exactly when the chat exists, the caller is admin or creator, some requested user is new and the role is in the enum; appends their records and adds them to participants; an empty member table always fails |
| ChatService.Service.UpdateChatDate | services/main-service/services/chat.service.ts:191-226 | a patch failing validation gives 400 "Validation error: …", a missing chat 500; otherwise the chat becomes the patched chat and members are untouched |
| ChatService.Service.UpdateChatMembers | services/main-service/services/chat.service.ts:228-333 | succeeds exactly when the chat exists, the caller may change it and the operators do not collide on participants; the chat's participants and the member records then take their new values |
| ChatService.Service.DeleteChat | services/main-service/services/chat.service.ts:336-371 | succeeds exactly when the chat exists and the caller may change it; the chat and every one of its member records are gone; an empty member table always fails |
| ChatService.Service.DeleteMembers | services/main-service/services/chat.service.ts:373-436 | succeeds exactly when the chat exists, the caller may change it and is not among the removed; they leave participants and the member records; an empty member table always fails |
| ChatController.Then | services/main-service/controllers/chat.controller.ts:181-188 | a request error stops before the service; a service error passes through as the thrown ApiError |
| ChatController.Answer | services/main-service/controllers/chat.controller.ts:318-330 | success gives the handler's status and body; an ApiError gives its own status and message; anything else a 500 with the fixed message |
| ChatController.StrArg | services/main-service/controllers/chat.controller.ts:117 | a request field counts only when it is a string |
| ChatController.ConvertIds | services/main-service/controllers/chat.controller.ts:174-179 | ids convert exactly when each is valid and convertible; the first invalid one is reported with its text |
| ChatController.UsersChatsCall | services/main-service/controllers/chat.controller.ts:14-28 | a missing or non-string userId is "User ID is required…", an invalid one "Invalid user ID format" |
| ChatController.GetUsersChats | services/main-service/controllers/chat.controller.ts:14-37 | 200 exactly when the query and the service succeed, with the service's chats; every failure body is `{error}` |
| ChatController.ChatIdCall | services/main-service/controllers/chat.controller.ts:47-58 | an invalid chatId param is refused with "Invalid chat ID format" |
| ChatController.GetChat | services/main-service/controllers/chat.controller.ts:47-75 | 200 exactly when the id and the service succeed with a truthy chat; an invalid id is a 400 |
| ChatController.GetMembers | services/main-service/controllers/chat.controller.ts:78-105 | 200 exactly when the id and the service succeed; a valid id that fails conversion is a 500 |
| ChatController.CreateChatCall | services/main-service/controllers/chat.controller.ts:115-128 | the body converts exactly when participants is an array of convertible ids; name and type pass through, admins are never sent |
| ChatController.CreateChat | services/main-service/controllers/chat.controller.ts:115-148 | 201 exactly when conversion and the service succeed; a conversion failure is a 500 "Failed to create chat" |
| ChatController.AddMembersCall | services/main-service/controllers/chat.controller.ts:159-186 | the chatId param is checked first, then that userIds is an array, then each id |
| ChatController.AddMembersCallerUnchecked | services/main-service/controllers/chat.controller.ts:166-186 | the caller's userId is never validated: any convertible value goes through |
| ChatController.AddMembers | services/main-service/controllers/chat.controller.ts:159-204 | 200 exactly when the request and the service succeed; an invalid chatId is a 400 |
| ChatController.UpdateChatDateCall | services/main-service/controllers/chat.controller.ts:214-235 | a missing chatId, then a missing or non-object updates, then an invalid chatId are refused in that order |
| ChatController.UpdateChatDate | services/main-service/controllers/chat.controller.ts:214-253 | 200 exactly when the request and the service succeed; a missing chatId is a 400 |
| ChatController.OptionalIds | services/main-service/controllers/chat.controller.ts:285-291 | an absent list is empty, a non-array throws, an array converts id by id |
| ChatController.UpdateMembersCall | services/main-service/controllers/chat.controller.ts:269-312 | chatId is required and valid; an accepted request carries at least one non-empty operation |
| ChatController.UpdateMembersNeedsAnOperation | services/main-service/controllers/chat.controller.ts:300-306 | a request with no operation lists is refused with "At least one update operation is required" |
| ChatController.UpdateChatMembers | services/main-service/controllers/chat.controller.ts:269-330 | 200 exactly when the request and the service succeed; a non-array list is a 500 |
| ChatController.DeleteChatCall | services/main-service/controllers/chat.controller.ts:340-358 | chatId is required and must be valid; the caller id must convert |
| ChatController.DeleteChat | services/main-service/controllers/chat.controller.ts:340-376 | 200 exactly when the request and the service succeed; a missing chatId is a 400 |
| ChatController.InvalidIds | services/main-service/controllers/chat.controller.ts:408 | empty exactly when every id is valid; otherwise only invalid ids of the request |
| ChatController.DeleteMembersCall | services/main-service/controllers/chat.controller.ts:386-418 | chatId, an array, a non-empty array, a valid chatId and valid user ids are checked in that order |
| ChatController.OneInvalidIdMessage | services/main-service/controllers/chat.controller.ts:408-411 | one invalid id is reported as "Invalid user ID format: " and its text |
| ChatController.DeleteMembers | services/main-service/controllers/chat.controller.ts:386-436 | 200 exactly when the request and the service succeed; a missing chatId is a 400 |
| ChatController.ServiceErrorPassesThrough | services/main-service/controllers/chat.controller.ts:362-376 | a service error reaches deleteChat's client with its own status and message |
| Seqs.FirstIndex | services/main-service/services/message.service.ts:43-50 | the first row that matches, or none exactly when no row does; also the first token record (TokenService.ts:33) and the first separator (authMiddleware.ts:13) |
| MessageService.MarkRead | services/main-service/services/message.service.ts:43-51 | the table keeps its length and keys |
| MessageService.MarkReadEffect | services/main-service/services/message.service.ts:41-61 | with unique keys, exactly the message in that chat with that id gets isRead true; every other row is unchanged |
| MessageService.MarkReadIdempotent | services/main-service/services/message.service.ts:41-61 | reading a message twice is reading it once |
| Seqs.FirstIndexSame | services/main-service/services/message.service.ts:43-50 | tables matched on the same rows find the same first row |
| MessageService.Edit | services/main-service/services/message.service.ts:65-80 | null exactly when no message of that chat has the id, and then nothing changes; else the edited message has the new content and editedAt |
| MessageService.EditTouchesOnlyTarget | services/main-service/services/message.service.ts:65-80 | every row is unchanged except the edited one |
| MessageService.Delete | services/main-service/services/message.service.ts:82-95 | by id alone: null exactly when no row has the id; else that row is returned and one row fewer remains |
| MessageService.DeleteRemovesExactlyOne | services/main-service/services/message.service.ts:82-95 | with unique keys the deleted message is gone, every other stays, and keys stay unique |
| MessageService.MessageTable.CreateMessage | services/main-service/services/message.service.ts:7-25 | missing chat, sender or content throws "Can't create message." and stores nothing; otherwise the save's outcome decides, and a saved message is appended |
| MessageService.MessageTable.ReadMessages | services/main-service/services/message.service.ts:41-61 | a database error is rethrown with its message; otherwise the table becomes MarkRead of the old one |
| MessageService.MessageTable.EditMessage | services/main-service/services/message.service.ts:65-80 | a database error is rethrown; otherwise the table and the result are Edit's |
| MessageService.MessageTable.DeleteMessage | services/main-service/services/message.service.ts:82-95 | a database error is rethrown; otherwise the table and the result are Delete's |
| SocketHandler.RoomMembers | services/main-service/socket/socket.handler.ts:39 | `io.to(chatId)` reaches exactly the sockets that joined the room |
| SocketHandler.BuildMessage | services/main-service/socket/socket.handler.ts:30-35 | the message has the payload's chat, sender and text, type defaulting to "text", and no id, timestamp or read flag |
| SocketHandler.SendOutcome | services/main-service/socket/socket.handler.ts:22-45 | a null or undefined payload saves and emits nothing; otherwise a message is saved exactly when the fields are present and the save works, and is then broadcast to the room; otherwise the sender gets the matching error |
| SocketHandler.SendExactlyOneOutcome | services/main-service/socket/socket.handler.ts:22-45 | a send emits nothing exactly when it has no payload; every send with a payload ends in exactly one of missing-fields, send-failed or broadcast |
| SocketHandler.SendRecipients | services/main-service/socket/socket.handler.ts:25-42 | errors go to the sender alone; the sender receives its own broadcast only if it joined the room |
| SocketHandler.SavedMessageLacksRequiredFields | services/main-service/socket/socket.handler.ts:30-35 | the message the handler saves never satisfies the Message schema |
| SocketHandler.JoinLeaveIdempotent | services/main-service/socket/socket.handler.ts:8-16 | joining twice is joining once; leaving a room never joined changes nothing |
| SocketHandler.SocketServer.Connect | services/main-service/socket/socket.handler.ts:5 | a new socket is in its own room only |
| SocketHandler.SocketServer.JoinRoom | services/main-service/socket/socket.handler.ts:8-11 | the socket gains the room and is then a member of it; nothing else changes |
| SocketHandler.SocketServer.LeaveRoom | services/main-service/socket/socket.handler.ts:13-16 | the socket loses the room and is no longer a member; nothing else changes |
| SocketHandler.SocketServer.Disconnect | services/main-service/socket/socket.handler.ts:18-20 | the socket leaves every room, so no broadcast reaches it; other sockets' rooms, the store and the log are unchanged |
| SocketHandler.SocketServer.SendMessage | services/main-service/socket/socket.handler.ts:22-45 | the event log and the message store grow by SendOutcome's event and saved message, if any (neither grows for a missing payload); rooms are unchanged |
| ChatStore.Put | client/src/store/chatStore.ts:60 | `Map.set` keeps the table well formed and keeps insertion order |
| ChatStore.Merge | client/src/store/chatStore.ts:53-62 | the table stays well formed |
| ChatStore.LastWith | client/src/store/chatStore.ts:53-62 | a chat of the input with the id, or none when no chat has it |
| ChatStore.LastWithIsLast | client/src/store/chatStore.ts:53-62 | the chat found is the last input chat with the id: one no later chat shares it with |
| ChatStore.MergeContents | client/src/store/chatStore.ts:53-62 | a key is present after the merge exactly when it was before or a chat with that non-empty id came in; the last such chat wins; others keep their value |
| ChatStore.MergeKeepsOrder | client/src/store/chatStore.ts:53-62 | keys already present keep their place; new keys go after them |
| ChatStore.MergeIdless | client/src/store/chatStore.ts:55-59 | chats without an `_id` are skipped, leaving the table unchanged |
| ChatStore.ChatList | client/src/store/chatStore.ts:77-79 | the chats in insertion order, one per key |
| ChatStore.OrderCoversKeys | client/src/store/chatStore.ts:8 | a well-formed table has as many keys as order entries |
| ChatStore.SelectedChat | client/src/store/chatStore.ts:72-74 | nothing when no chat is selected; the stored chat exactly when the selected id is a key, nothing otherwise |
| ChatStore.Store.SetChats | client/src/store/chatStore.ts:53-62 | the table becomes Merge of the old table and the input; nothing else changes |
| ChatStore.Store.SelectChat | client/src/store/chatStore.ts:65-69 | the selected id becomes the given one |
| ChatStore.Store.AddMessage | client/src/store/chatStore.ts:107-111 | the message is appended |
| ChatStore.Store.ResetMessages | client/src/store/chatStore.ts:114-118 | the message list becomes empty |
| ChatStore.Store.UpdateLastMessage | client/src/store/chatStore.ts:126-132 | a stored chat gets the message as lastMessage; an unknown id changes nothing |
| ChatStore.Store.IncreaseUnreadMessage | client/src/store/chatStore.ts:135-141 | a stored chat's unread count (missing counts as 0) goes up by one; an unknown id changes nothing |
| ChatStore.Store.ResetUnreadMessage | client/src/store/chatStore.ts:144-150 | a stored chat's unread count becomes 0; an unknown id changes nothing |
| ErrorUtils.FindGt | client/src/utils/error.utils.ts:2 | the first `>` at or after the position |
| ErrorUtils.FindPre | client/src/utils/error.utils.ts:2 | the leftmost `<pre` (any case), the first `>` after it, the first `</pre>` after that |
| ErrorUtils.SearchMatchesPattern | client/src/utils/error.utils.ts:2 | the search fails exactly when the pattern has no match at all |
| ErrorUtils.SkipSpace | client/src/utils/error.utils.ts:5 | `\s*`: the whitespace run at the front, ending at the first other character |
| ErrorUtils.TagAt | client/src/utils/error.utils.ts:5 | a tag found at the front starts with `<br` in any case and ends with `>`; without `<br` there is none |
| ErrorUtils.ReplaceBr | client/src/utils/error.utils.ts:5 | replacing tags never lengthens the text |
| ErrorUtils.TagAtTag | client/src/utils/error.utils.ts:5 | every `<br`, whitespace, optional `/`, `>` tag is recognised whole, whatever follows |
| ErrorUtils.FirstTagBecomesNewline | client/src/utils/error.utils.ts:5 | text before the first tag is copied, the tag becomes one newline, and the rest is rewritten on its own |
| ErrorUtils.NoBrUnchanged | client/src/utils/error.utils.ts:5 | text with no `<br` is left as it is |
| ErrorUtils.BrSpellings | client/src/utils/error.utils.ts:5 | `<br>`, `<BR/>` and `<br />` all become a newline |
| ErrorUtils.BlankRewritesToSpace | client/src/utils/error.utils.ts:5 | text made of whitespace and br tags rewrites to whitespace only |
| ErrorUtils.Capture | client/src/utils/error.utils.ts:2 | the text between the `>` and the `</pre>`, or none exactly when there is no match |
| ErrorUtils.ParseHtmlError | client/src/utils/error.utils.ts:1-8 | no match or an empty capture gives "An unknown error occurred"; otherwise the capture with br tags as newlines, trimmed |
| ErrorUtils.BlankCaptureGivesEmpty | client/src/utils/error.utils.ts:3-5 | a non-empty capture of whitespace and br tags yields the empty string, not the default message |
| ErrorUtils.UpperCaseTags | client/src/utils/error.utils.ts:2 | `<PRE>x</PRE>` parses to "x": the pattern ignores case |
| AuthClient.MessageOr | client/src/service/AuthService.ts:30 | `error.message || fallback` |
| AuthClient.Login | client/src/service/AuthService.ts:11-33 | succeeds exactly when the request does, with its data; a failure becomes LoginError's message |
| AuthClient.LoginMessageNonEmpty | client/src/service/AuthService.ts:16-31 | every failure outside the HTML-page branch has a non-empty message |
| AuthClient.LoginStatusReadable | client/src/service/AuthService.ts:26 | the message is "Server responded with " and digits that read back as the status |
| AuthClient.LoginUpperCasePageNotParsed | client/src/service/AuthService.ts:20 | a 500 page tagged `<PRE>` is not recognised, since `includes('<pre')` is case-sensitive |
| AuthClient.LoginClientErrorPageNotParsed | client/src/service/AuthService.ts:20-26 | a 4xx HTML page is never parsed; the message names the status |
| AuthClient.Register | client/src/service/AuthService.ts:35-59 | succeeds exactly when the request does; a failure becomes RegisterError's message |
| AuthClient.RegisterParsesAnyStatus | client/src/service/AuthService.ts:40-46 | an error page containing `<pre` is parsed whatever its status |
| AuthClient.RegisterUsesServerMessage | client/src/service/AuthService.ts:48-50 | a JSON body's non-empty message is shown as it is |
| AuthClient.RegisterResponseWithoutMessage | client/src/service/AuthService.ts:40-55 | a response with no message falls through to "No response received from server" |
| AuthClient.RegisterFallbackMessage | client/src/service/AuthService.ts:53-57 | with no response and no request the message is the error's own or "Registration failed", never empty |
| AuthClient.Logout | client/src/service/AuthService.ts:61-68 | succeeds exactly when the request does; any failure is "Failed to log out" |
| RegisterForm.PhoneMatchesPattern | client/src/components/RegisterForm.tsx:23 | the direct phone test agrees with the pattern `^\+?[0-9\s\-()]{7,}$` in both directions |
| RegisterForm.ShortPhoneRejected | client/src/components/RegisterForm.tsx:23 | fewer than seven characters never match |
| RegisterForm.Validate | client/src/components/RegisterForm.tsx:25-41 | at most four errors |
| RegisterForm.ValidateReports | client/src/components/RegisterForm.tsx:27-41 | each error appears exactly when its check fails |
| RegisterForm.ValidateAccepts | client/src/components/RegisterForm.tsx:25-49 | no errors exactly when name and password are set, the phone matches and the passwords agree |
| RegisterForm.ValidateOrdered | client/src/components/RegisterForm.tsx:27-41 | errors come in check order, none twice, and never both phone errors |
| RegisterForm.FlaggedFields | client/src/components/RegisterForm.tsx:110-141 | each field is highlighted exactly when its own value is at fault |
| RegisterForm.Form.Submit | client/src/components/RegisterForm.tsx:22-67 | the shown errors are Validate's; with none the register request is sent and the page moves to /login, otherwise nothing is sent |
| RegisterForm.SampleAccepted | client/src/components/RegisterForm.tsx:51 | the sample number +611715114 passes the form |
| TokenService.CountUser | services/auth-service/service/TokenService.ts:33 | a user has no more records than the table |
| TokenService.SaveSize | services/auth-service/service/TokenService.ts:32-40 | a user with a record keeps the table size; a user without one gains exactly the new record at the end |
| TokenService.SaveOthersUnchanged | services/auth-service/service/TokenService.ts:32-40 | other users' records keep place and content; anything added belongs to the user |
| TokenService.SaveLeavesOneRecord | services/auth-service/service/TokenService.ts:32-40 | a user with at most one record has exactly one afterwards, carrying the new token |
| TokenService.CountAbsent | services/auth-service/service/TokenService.ts:33 | no matching record means a count of zero |
| TokenService.CountPositive | services/auth-service/service/TokenService.ts:33 | a matching record means a positive count |
| TokenService.CountAppend | services/auth-service/service/TokenService.ts:38 | appending a record adds one to its user's count |
| TokenService.CountUpdate | services/auth-service/service/TokenService.ts:35-36 | changing a record's token keeps the counts |
| TokenService.OnlyOne | services/auth-service/service/TokenService.ts:33 | with one record per user, any two records of the user are the same |
| TokenService.Remove | services/auth-service/service/TokenService.ts:42-45 | at most one record goes |
| TokenService.RemoveSize | services/auth-service/service/TokenService.ts:42-45 | a record goes exactly when some record carries the token |
| TokenService.RemoveKeepsOthers | services/auth-service/service/TokenService.ts:42-45 | records with other tokens stay, in order |
| TokenService.FilterSkips | services/auth-service/service/TokenService.ts:43 | skipping a dropped record does not change the filtered table |
| TokenService.Find | services/auth-service/service/TokenService.ts:47-50 | a record with that token from the table, or null exactly when none has it |
| TokenService.SavedTokenFound | services/auth-service/service/TokenService.ts:32-50 | a fresh token just saved is found, in the user's record |
| TokenService.Validate | services/auth-service/service/TokenService.ts:16-31 | the verified payload, or null when verification throws |
| TokenService.TokenTable.SaveToken | services/auth-service/service/TokenService.ts:32-40 | the table becomes Save's, and the returned record is the user's with the new token |
| TokenService.TokenTable.RemoveToken | services/auth-service/service/TokenService.ts:42-45 | the table becomes Remove's and the deleted count, 0 or 1, is what went |
| AuthMiddleware.FirstOf | services/auth-service/middleware/authMiddleware.ts:13 | the first position of the separator, none exactly when it is absent |
| AuthMiddleware.SplitOn | services/auth-service/middleware/authMiddleware.ts:13 | `split(' ')`: at least one piece, none holding the separator |
| AuthMiddleware.SplitJoin | services/auth-service/middleware/authMiddleware.ts:13 | joining the pieces with the separator gives the header back |
| AuthMiddleware.SplitAfterWord | services/auth-service/middleware/authMiddleware.ts:13 | a word followed by the separator is the first piece |
| AuthMiddleware.TokenOf | services/auth-service/middleware/authMiddleware.ts:13 | the token never contains a space |
| AuthMiddleware.TokenBetweenSpaces | services/auth-service/middleware/authMiddleware.ts:13-16 | the token is the text between the first and the next space, none exactly when there is no space |
| AuthMiddleware.Authenticate | services/auth-service/middleware/authMiddleware.ts:6-29 | succeeds exactly when the header has a non-empty token that verifies to a truthy payload, giving that payload; every failure is the unauthorized error |
| AuthMiddleware.SchemeNotChecked | services/auth-service/middleware/authMiddleware.ts:13 | any scheme word works like "Bearer" |
| AuthMiddleware.DoubleSpaceRefused | services/auth-service/middleware/authMiddleware.ts:13-16 | two spaces after the scheme leave an empty token, which is refused |
| AuthMiddleware.NoSpaceRefused | services/auth-service/middleware/authMiddleware.ts:13-16 | a header without a space is refused |
| AuthMiddleware.Exchange.Run | services/auth-service/middleware/authMiddleware.ts:6-29 | next is called exactly once, without error exactly on success; only then is req.user set, to the payload |
| UserDto.FromModel | services/auth-service/dtos/UserDto.ts:10-18 | fails exactly when `_id` is null or undefined; id is its text; name, phone and lastSeen are copied |
| UserDto.Defaults | services/auth-service/dtos/UserDto.ts:14-17 | a falsy email becomes undefined, a falsy status "offline", a falsy picture null; truthy values are kept |
| UserDto.FromModelIdempotent | services/auth-service/dtos/UserDto.ts:10-18 | building a transfer object from a transfer object changes nothing |
| UserDto.BareUser | services/auth-service/dtos/UserDto.ts:10-18 | a user with no optional fields gets every default |
| TokenUtils.ValidPayloadMeaning | services/auth-service/utils/TokenUtils.ts:4-10 | exactly the objects whose `id` is a string pass; null, arrays and other values fail |
| TokenUtils.ExtraFieldsIgnored | services/auth-service/utils/TokenUtils.ts:4-10 | fields other than `id` do not affect the check |

## Left out

- Schema checks are modelled where the chat service's outcome depends on
  them: `Chat.create` in createChat, `ChatMember.insertMany` in createChat
  and addMembers, and the `$set` validators of updateChatDate. Other writes
  are not checked; `SocketHandler.SavedMessageLacksRequiredFields` shows
  that the socket's save would be refused, and that save's outcome is a
  parameter.
- Mongoose strict mode is modelled by leaving the undeclared paths out.
  The stored `Schemas.Chat` has no `admins`, `avatar`, `description` or
  `unreadCounts`, and an operator on `admins` never changes anything.
- Mongoose `populate` and `lean` are not modelled. Results are the stored
  values, with ids not expanded into users.
- The order of `find` results over chats is not modelled, because the chat
  table is a map. `ChatService.UsersChats` returns a set.
- What the database or driver throws is a parameter only in
  `MessageService.MessageTable` and `SocketHandler.SocketServer.SendMessage`.
  The CastError detection is modelled in `ChatService.Catch`, but a
  CastError cannot arise from the model's own string ids.
- ChatService.Service and TokenService.TokenTable assume the database never
  fails. A rejected `find`, `insertMany`, `findByIdAndUpdate`, `deleteMany`
  or `save` in the chat service would end in that method's fixed 500 (after
  whatever writes came before it); a rejected `findOne`, `save` or `create`
  in `saveToken`, `deleteOne` in `removeToken` or `findOne` in
  `findToken` would propagate to the caller. Neither path is modelled.
- `Types.ObjectId.isValid` and the ObjectId constructor are opaque oracles
  in the controller. The 24-hex / 12-byte rule is not modelled.
- Request fields that are neither strings nor arrays, where the source
  reads a string, are treated as absent.
- The `Json` → `ChatPatch` conversion in `updateChatDate` is not modelled.
  The service takes an already typed patch over the declared paths only,
  so the keys strict mode would drop never reach it.
- `getMessages`, `getSpecificMessages` and `getUnreadMessages` are not
  modelled. Their `find({where: …})` filter is not a Mongo query form and
  its result depends on the driver.
- The message controller and the routes are not modelled.
- Whether the socket's `save` succeeds is a boolean parameter. A
  `send-message` payload that is null or undefined is `None` (the listener
  throws and emits nothing); any other non-object payload counts as one
  whose fields are all absent. socket.io
  internals are not modelled (acknowledgements, socket room ids beyond the
  socket's own room, broadcast delivery).
- JSON Web Token signing and verification are not modelled. Verification
  is a function parameter. bcrypt and `generateTokens` are not modelled
  either; note that it signs with `JWT_SECRET` while both validators read
  `JWT_ACCESS_SECRET` / `JWT_REFRESH_SECRET`.
- UserService, UserController and the gateway are not part of this model.
- Only the chat store's synchronous actions are modelled. `fetchChats`,
  `fetchMessages` (network and localStorage), `isLoading`, `error` and
  `authStore` are left out.
- ChatStore.Store.UpdateLastMessage: the store holds values, so mutating
  the chat object in place and any alias of it elsewhere are not captured.
  The same holds for `IncreaseUnreadMessage` and `ResetUnreadMessage`.
- RegisterForm.Form.Submit: the `then` callback after the request answers
  is not modelled (localStorage, authStore), and neither is the JSX. The
  form records only that the request was sent and the page visited.
- Text.IsSpace uses an explicit list of JavaScript whitespace code points.
  Unicode general category Zs is not derived.
- JSON numbers are integers. Floating point is not modelled.
- The middleware's `catch` is not modelled. Nothing inside its `try` can
  throw once verification is a total function.
- Clocks (`Date.now`, `Date()`) and generated ids are parameters.
- ApiErrors.NewApiError: the `readonly` fields, the stack trace and the
  prototype fix-up are not modelled.
- AuthClient.Logout: the source resolves to `void`, and the model returns
  unit on success.
