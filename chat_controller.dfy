/**
 * The main service's ChatController. Each handler reads the request, runs a
 * chain of checks, converts ids, calls the chat service and turns the outcome
 * into one HTTP response.
 *
 * `valid` stands for `Types.ObjectId.isValid` and `oid` for
 * `new Types.ObjectId(x)`: `None` when the constructor throws. Neither is
 * interpreted. The service is a function from the converted arguments to its
 * outcome, so each handler is a pure function of the request.
 */
module ChatController {
  import opened Wrappers
  import opened Json
  import opened ApiErrors
  import opened Schemas
  import ChatService
  import Seqs

  /** What reaches a handler's `catch`: an ApiError, or anything else (a TypeError, a throwing ObjectId constructor). */
  datatype Failure = Api(error: ApiError) | Other

  datatype Response = Response(status: int, body: Json)

  /** `{success: false, message}`. */
  function FailureBody(message: string): Json {
    Obj(map["success" := Bool(false), "message" := Str(message)])
  }

  /** `{success: true, data}`. */
  function SuccessBody(data: Json): Json {
    Obj(map["success" := Bool(true), "data" := data])
  }

  /** `{error}`, the one handler that answers in this shape being getUsersChats. */
  function ErrorBody(message: string): Json {
    Obj(map["error" := Str(message)])
  }

  /** `ApiError.badRequest(message)` as thrown inside a handler. */
  function Reject(message: string): Failure {
    Api(BadRequest(message))
  }

  /** Run the service on the arguments the checks produced; a service error is an ApiError. */
  function Then<A>(call: Result<A, Failure>, svc: A -> Result<Json, ApiError>): (r: Result<Json, Failure>)
    ensures call.Err? ==> r == Err(call.error)
    ensures call.Ok? && svc(call.value).Ok? ==> r == Ok(svc(call.value).value)
    ensures call.Ok? && svc(call.value).Err? ==> r == Err(Api(svc(call.value).error))
  {
    match call
    case Err(f) => Err(f)
    case Ok(a) =>
      match svc(a)
      case Ok(v) => Ok(v)
      case Err(e) => Err(Api(e))
  }

  /** The shared `catch` and success response of the handlers that answer `{success, ...}`. */
  function Answer(outcome: Result<Json, Failure>, okStatus: int, fallback: string): (r: Response)
    ensures outcome.Ok? ==> r == Response(okStatus, SuccessBody(outcome.value))
    ensures outcome.Err? && outcome.error.Api? ==> r == Response(outcome.error.error.statusCode, FailureBody(outcome.error.error.message))
    ensures outcome.Err? && outcome.error.Other? ==> r == Response(500, FailureBody(fallback))
  {
    match outcome
    case Ok(v) => Response(okStatus, SuccessBody(v))
    case Err(Api(e)) => Response(e.statusCode, FailureBody(e.message))
    case Err(Other) => Response(500, FailureBody(fallback))
  }

  /** The chat service only ever throws error statuses (400 and 500). */
  ghost predicate ErrorStatuses<A(!new)>(svc: A -> Result<Json, ApiError>) {
    forall a :: svc(a).Err? ==> svc(a).error.statusCode >= 400
  }

  /** A string argument; any other value is taken as absent. */
  function StrArg(v: Json): (r: Option<string>)
    ensures r.Some? <==> v.Str?
  {
    if v.Str? then Some(v.s) else None
  }

  /**
   * `ids.map(id => { if (!isValid(id)) throw badRequest(prefix + id); return new ObjectId(id) })`:
   * the first invalid id, in order, is reported with its text.
   */
  function ConvertIds(items: seq<Json>, valid: Json -> bool, oid: Json -> Option<Id>, prefix: string): (r: Result<seq<Id>, Failure>)
    ensures r.Ok? <==> forall i :: 0 <= i < |items| ==> valid(items[i]) && oid(items[i]).Some?
    ensures r.Ok? ==> |r.value| == |items| && forall i :: 0 <= i < |items| ==> Some(r.value[i]) == oid(items[i])
    ensures r.Err? && r.error.Api? ==>
              exists i :: 0 <= i < |items| && !valid(items[i]) && r.error == Reject(prefix + ToText(items[i]))
                          && forall j :: 0 <= j < i ==> valid(items[j]) && oid(items[j]).Some?
    ensures r.Err? && r.error.Other? ==> exists i :: 0 <= i < |items| && valid(items[i]) && oid(items[i]).None?
    decreases |items|
  {
    if items == [] then Ok([])
    else if !valid(items[0]) then Err(Reject(prefix + ToText(items[0])))
    else match oid(items[0])
      case None => Err(Other)
      case Some(id) =>
        match ConvertIds(items[1..], valid, oid, prefix)
        case Err(f) =>
          assert f.Api? ==> exists i :: 1 <= i < |items| && !valid(items[i]) && f == Reject(prefix + ToText(items[i]))
                                        && forall j :: 0 <= j < i ==> valid(items[j]) && oid(items[j]).Some? by {
            if f.Api? {
              var k :| 0 <= k < |items[1..]| && !valid(items[1..][k]) && f == Reject(prefix + ToText(items[1..][k]))
                       && forall j :: 0 <= j < k ==> valid(items[1..][j]) && oid(items[1..][j]).Some?;
              assert forall j :: 0 <= j < k + 1 ==> valid(items[j]) && oid(items[j]).Some? by {
                forall j | 0 <= j < k + 1 ensures valid(items[j]) && oid(items[j]).Some? {
                  if j > 0 { assert items[j] == items[1..][j - 1]; }
                }
              }
              assert items[k + 1] == items[1..][k];
            }
          }
          assert f.Other? ==> exists i :: 1 <= i < |items| && valid(items[i]) && oid(items[i]).None? by {
            if f.Other? {
              var k :| 0 <= k < |items[1..]| && valid(items[1..][k]) && oid(items[1..][k]).None?;
              assert items[k + 1] == items[1..][k];
            }
          }
          Err(f)
        case Ok(rest) =>
          assert forall i :: 1 <= i < |items| ==> items[i] == items[1..][i - 1];
          Ok([id] + rest)
  }

  // ---------------------------------------------------------------- getUsersChats

  /** The query checks of getUsersChats: a non-empty string, then a valid id. */
  function UsersChatsCall(query: Json, valid: Json -> bool, oid: Json -> Option<Id>): (r: Result<Id, Failure>)
    ensures var u := Get(query, "userId");
            (Falsy(u) || !u.Str?) ==> r == Err(Reject("User ID is required in query parameters"))
    ensures var u := Get(query, "userId");
            !Falsy(u) && u.Str? && !valid(u) ==> r == Err(Reject("Invalid user ID format"))
    ensures r.Ok? <==> var u := Get(query, "userId"); u.Str? && u.s != "" && valid(u) && oid(u).Some?
  {
    var userId := Get(query, "userId");
    if Falsy(userId) || TypeOf(userId) != "string" then Err(Reject("User ID is required in query parameters"))
    else if !valid(userId) then Err(Reject("Invalid user ID format"))
    else match oid(userId)
      case None => Err(Other)
      case Some(id) => Ok(id)
  }

  /** getUsersChats answers 200 with the bare list, or `{error}`. */
  function GetUsersChats(query: Json, valid: Json -> bool, oid: Json -> Option<Id>, svc: Id -> Result<Json, ApiError>): (r: Response)
    requires ErrorStatuses(svc)
    ensures r.status == 200 <==> UsersChatsCall(query, valid, oid).Ok? && svc(UsersChatsCall(query, valid, oid).value).Ok?
    ensures r.status == 200 ==> r.body == svc(UsersChatsCall(query, valid, oid).value).value
    ensures r.status != 200 ==> r.body.Obj? && r.body.fields.Keys == {"error"}
  {
    match Then(UsersChatsCall(query, valid, oid), svc)
    case Ok(chats) => Response(200, chats)
    case Err(Api(e)) => Response(e.statusCode, ErrorBody(e.message))
    case Err(Other) => Response(500, ErrorBody("Failed to fetch user chats"))
  }

  // ---------------------------------------------------------------- getChat / getMembers

  function ChatIdCall(params: Json, valid: Json -> bool, oid: Json -> Option<Id>): (r: Result<Id, Failure>)
    ensures !valid(Get(params, "chatId")) ==> r == Err(Reject("Invalid chat ID format"))
    ensures r.Ok? <==> valid(Get(params, "chatId")) && oid(Get(params, "chatId")).Some?
  {
    var chatId := Get(params, "chatId");
    if !valid(chatId) then Err(Reject("Invalid chat ID format"))
    else match oid(chatId)
      case None => Err(Other)
      case Some(id) => Ok(id)
  }

  /** getChat answers 200 with the bare chat; a falsy result is a 404, and every failure is `{success: false, message}`. */
  function GetChat(params: Json, valid: Json -> bool, oid: Json -> Option<Id>, svc: Id -> Result<Json, ApiError>): (r: Response)
    requires ErrorStatuses(svc)
    ensures !valid(Get(params, "chatId")) ==> r == Response(400, FailureBody("Invalid chat ID format"))
    ensures r.status == 200 <==> ChatIdCall(params, valid, oid).Ok? && svc(ChatIdCall(params, valid, oid).value).Ok?
                                 && !Falsy(svc(ChatIdCall(params, valid, oid).value).value)
    ensures r.status == 200 ==> r.body == svc(ChatIdCall(params, valid, oid).value).value
  {
    match Then(ChatIdCall(params, valid, oid), svc)
    case Ok(chat) =>
      if Falsy(chat) then Response(404, FailureBody("Chat not found")) else Response(200, chat)
    case Err(Api(e)) => Response(e.statusCode, FailureBody(e.message))
    case Err(Other) => Response(500, FailureBody("Internal server error while fetching chat"))
  }

  /** getMembers answers 200 with `{success: true, data}`. */
  function GetMembers(params: Json, valid: Json -> bool, oid: Json -> Option<Id>, svc: Id -> Result<Json, ApiError>): (r: Response)
    requires ErrorStatuses(svc)
    ensures !valid(Get(params, "chatId")) ==> r == Response(400, FailureBody("Invalid chat ID format"))
    ensures r.status == 200 <==> ChatIdCall(params, valid, oid).Ok? && svc(ChatIdCall(params, valid, oid).value).Ok?
    ensures valid(Get(params, "chatId")) && oid(Get(params, "chatId")).None? ==> r == Response(500, FailureBody("Failed to fetch chat members"))
  {
    Answer(Then(ChatIdCall(params, valid, oid), svc), 200, "Failed to fetch chat members")
  }

  // ---------------------------------------------------------------- createChat

  /** createChat checks nothing: it converts the participants and passes the rest through; admins are never passed. */
  function CreateChatCall(body: Json, oid: Json -> Option<Id>): (r: Result<ChatService.ChatCreate, Failure>)
    ensures r.Err? ==> r.error.Other?
    ensures r.Ok? <==> IsArray(Get(body, "participants")) && forall i :: 0 <= i < |Get(body, "participants").items| ==> oid(Get(body, "participants").items[i]).Some?
    ensures r.Ok? ==> r.value.admins.None? && r.value.name == StrArg(Get(body, "name")) && r.value.kind == StrArg(Get(body, "type"))
    ensures r.Ok? ==> r.value.participants.Some? && |r.value.participants.value| == |Get(body, "participants").items|
  {
    var participants := Get(body, "participants");
    if !IsArray(participants) then Err(Other)
    else match ConvertIds(participants.items, _ => true, oid, "")
      case Err(f) => Err(f)
      case Ok(ids) =>
        Ok(ChatService.ChatCreate(StrArg(Get(body, "name")), StrArg(Get(body, "type")), Some(ids), None,
                                  StrArg(Get(body, "avatar")), StrArg(Get(body, "description"))))
  }

  /** createChat answers 201 on success, the one handler that does. */
  function CreateChat(body: Json, oid: Json -> Option<Id>, svc: ChatService.ChatCreate -> Result<Json, ApiError>): (r: Response)
    requires ErrorStatuses(svc)
    ensures r.status == 201 <==> CreateChatCall(body, oid).Ok? && svc(CreateChatCall(body, oid).value).Ok?
    ensures r.status != 201 && CreateChatCall(body, oid).Err? ==> r == Response(500, FailureBody("Failed to create chat"))
  {
    Answer(Then(CreateChatCall(body, oid), svc), 201, "Failed to create chat")
  }

  // ---------------------------------------------------------------- addMembers

  datatype AddMembersArgs = AddMembersArgs(chatId: Id, userIds: seq<Id>, caller: Id, role: string)

  /** addMembers: chatId valid, then userIds an array, then each user id in order; the caller's id is converted unchecked. */
  function AddMembersCall(params: Json, body: Json, valid: Json -> bool, oid: Json -> Option<Id>): (r: Result<AddMembersArgs, Failure>)
    ensures !valid(Get(params, "chatId")) ==> r == Err(Reject("Invalid chat ID format"))
    ensures valid(Get(params, "chatId")) && !IsArray(Get(body, "userIds")) ==> r == Err(Reject("userIds must be an array"))
    ensures valid(Get(params, "chatId")) && IsArray(Get(body, "userIds")) ==>
              var c := ConvertIds(Get(body, "userIds").items, valid, oid, "Invalid user ID format: ");
              c.Err? ==> r == Err(c.error)
    ensures r.Ok? ==> Some(r.value.chatId) == oid(Get(params, "chatId")) && Some(r.value.caller) == oid(Get(body, "userId"))
    ensures r.Ok? ==> |r.value.userIds| == |Get(body, "userIds").items|
  {
    var chatId := Get(params, "chatId");
    var userIds := Get(body, "userIds");
    if !valid(chatId) then Err(Reject("Invalid chat ID format"))
    else if Falsy(userIds) || !IsArray(userIds) then Err(Reject("userIds must be an array"))
    else match ConvertIds(userIds.items, valid, oid, "Invalid user ID format: ")
      case Err(f) => Err(f)
      case Ok(ids) =>
        if oid(chatId).None? || oid(Get(body, "userId")).None? then Err(Other)
        else
          var role := Get(body, "role");
          Ok(AddMembersArgs(oid(chatId).value, ids, oid(Get(body, "userId")).value, if role.Str? then role.s else "member"))
  }

  /** The caller's own `userId` never makes addMembers fail validation, valid or not. */
  lemma AddMembersCallerUnchecked(params: Json, body: Json, valid: Json -> bool, oid: Json -> Option<Id>)
    requires valid(Get(params, "chatId")) && IsArray(Get(body, "userIds"))
    requires forall i :: 0 <= i < |Get(body, "userIds").items| ==> valid(Get(body, "userIds").items[i]) && oid(Get(body, "userIds").items[i]).Some?
    requires oid(Get(params, "chatId")).Some? && oid(Get(body, "userId")).Some?
    ensures AddMembersCall(params, body, valid, oid).Ok?
  {
  }

  function AddMembers(params: Json, body: Json, valid: Json -> bool, oid: Json -> Option<Id>, svc: AddMembersArgs -> Result<Json, ApiError>): (r: Response)
    requires ErrorStatuses(svc)
    ensures r.status == 200 <==> AddMembersCall(params, body, valid, oid).Ok? && svc(AddMembersCall(params, body, valid, oid).value).Ok?
    ensures !valid(Get(params, "chatId")) ==> r == Response(400, FailureBody("Invalid chat ID format"))
  {
    Answer(Then(AddMembersCall(params, body, valid, oid), svc), 200, "Failed to add members")
  }

  // ---------------------------------------------------------------- updateChatDate

  datatype UpdateChatDateArgs = UpdateChatDateArgs(chatId: Id, updates: Json)

  /** updateChatDate: chatId present, then updates an object, then chatId valid. */
  function UpdateChatDateCall(body: Json, valid: Json -> bool, oid: Json -> Option<Id>): (r: Result<UpdateChatDateArgs, Failure>)
    ensures Falsy(Get(body, "chatId")) ==> r == Err(Reject("chatId is required in request body"))
    ensures !Falsy(Get(body, "chatId")) && (Falsy(Get(body, "updates")) || TypeOf(Get(body, "updates")) != "object") ==>
              r == Err(Reject("updates object is required"))
    ensures r.Ok? <==> !Falsy(Get(body, "chatId")) && (Get(body, "updates").Obj? || Get(body, "updates").Arr?)
                       && valid(Get(body, "chatId")) && oid(Get(body, "chatId")).Some?
    ensures r.Ok? ==> r.value.updates == Get(body, "updates")
  {
    var chatId := Get(body, "chatId");
    var updates := Get(body, "updates");
    if Falsy(chatId) then Err(Reject("chatId is required in request body"))
    else if Falsy(updates) || TypeOf(updates) != "object" then Err(Reject("updates object is required"))
    else if !valid(chatId) then Err(Reject("Invalid chat ID format"))
    else match oid(chatId)
      case None => Err(Other)
      case Some(id) => Ok(UpdateChatDateArgs(id, updates))
  }

  function UpdateChatDate(body: Json, valid: Json -> bool, oid: Json -> Option<Id>, svc: UpdateChatDateArgs -> Result<Json, ApiError>): (r: Response)
    requires ErrorStatuses(svc)
    ensures r.status == 200 <==> UpdateChatDateCall(body, valid, oid).Ok? && svc(UpdateChatDateCall(body, valid, oid).value).Ok?
    ensures Falsy(Get(body, "chatId")) ==> r == Response(400, FailureBody("chatId is required in request body"))
  {
    Answer(Then(UpdateChatDateCall(body, valid, oid), svc), 200, "Failed to update chat")
  }

  // ---------------------------------------------------------------- updateChatMembers

  datatype UpdateMembersArgs = UpdateMembersArgs(chatId: Id, caller: Id, update: ChatService.MemberUpdate)

  /** `ids?.map(...)`: a missing list stays missing (empty), an array is converted, anything else throws a TypeError. */
  function OptionalIds(v: Json, valid: Json -> bool, oid: Json -> Option<Id>): (r: Result<seq<Id>, Failure>)
    ensures (v.Undefined? || v.Null?) ==> r == Ok([])
    ensures !(v.Undefined? || v.Null? || v.Arr?) ==> r == Err(Other)
    ensures v.Arr? ==> r == ConvertIds(v.items, valid, oid, "Invalid ID format: ")
  {
    if v.Undefined? || v.Null? then Ok([])
    else if !v.Arr? then Err(Other)
    else ConvertIds(v.items, valid, oid, "Invalid ID format: ")
  }

  /** updateChatMembers: chatId present and valid, the four lists converted in order, and at least one of them non-empty. */
  function UpdateMembersCall(body: Json, valid: Json -> bool, oid: Json -> Option<Id>): (r: Result<UpdateMembersArgs, Failure>)
    ensures Falsy(Get(body, "chatId")) ==> r == Err(Reject("chatId is required"))
    ensures !Falsy(Get(body, "chatId")) && !valid(Get(body, "chatId")) ==> r == Err(Reject("Invalid chat ID format"))
    ensures r.Ok? ==>
              var u := r.value.update;
              |u.addMembers| > 0 || |u.removeMembers| > 0 || |u.newAdmins| > 0 || |u.removeAdmins| > 0
    ensures r.Ok? ==> Some(r.value.chatId) == oid(Get(body, "chatId")) && Some(r.value.caller) == oid(Get(body, "userId"))
  {
    var chatId := Get(body, "chatId");
    if Falsy(chatId) then Err(Reject("chatId is required"))
    else if !valid(chatId) then Err(Reject("Invalid chat ID format"))
    else
      var add := OptionalIds(Get(body, "addMembers"), valid, oid);
      if add.Err? then Err(add.error) else
      var remove := OptionalIds(Get(body, "removeMembers"), valid, oid);
      if remove.Err? then Err(remove.error) else
      var admins := OptionalIds(Get(body, "newAdmins"), valid, oid);
      if admins.Err? then Err(admins.error) else
      var demote := OptionalIds(Get(body, "removeAdmins"), valid, oid);
      if demote.Err? then Err(demote.error) else
      if |add.value| == 0 && |remove.value| == 0 && |admins.value| == 0 && |demote.value| == 0 then
        Err(Reject("At least one update operation is required"))
      else if oid(chatId).None? || oid(Get(body, "userId")).None? then Err(Other)
      else Ok(UpdateMembersArgs(oid(chatId).value, oid(Get(body, "userId")).value,
                                ChatService.MemberUpdate(add.value, remove.value, admins.value, demote.value)))
  }

  /** A request naming none of the four lists, with a valid chat id, is refused as having nothing to do. */
  lemma UpdateMembersNeedsAnOperation(body: Json, valid: Json -> bool, oid: Json -> Option<Id>)
    requires !Falsy(Get(body, "chatId")) && valid(Get(body, "chatId"))
    requires forall k :: k in ["addMembers", "removeMembers", "newAdmins", "removeAdmins"] ==> Get(body, k).Undefined?
    ensures UpdateMembersCall(body, valid, oid) == Err(Reject("At least one update operation is required"))
  {
    assert Get(body, "addMembers").Undefined? && Get(body, "removeMembers").Undefined?;
    assert Get(body, "newAdmins").Undefined? && Get(body, "removeAdmins").Undefined?;
  }

  function UpdateChatMembers(body: Json, valid: Json -> bool, oid: Json -> Option<Id>, svc: UpdateMembersArgs -> Result<Json, ApiError>): (r: Response)
    requires ErrorStatuses(svc)
    ensures r.status == 200 <==> UpdateMembersCall(body, valid, oid).Ok? && svc(UpdateMembersCall(body, valid, oid).value).Ok?
    ensures UpdateMembersCall(body, valid, oid) == Err(Other) ==> r == Response(500, FailureBody("Failed to update chat members"))
  {
    Answer(Then(UpdateMembersCall(body, valid, oid), svc), 200, "Failed to update chat members")
  }

  // ---------------------------------------------------------------- deleteChat

  datatype DeleteChatArgs = DeleteChatArgs(chatId: Id, caller: Id)

  /** deleteChat: chatId present, then valid; the caller's id is converted unchecked. */
  function DeleteChatCall(body: Json, valid: Json -> bool, oid: Json -> Option<Id>): (r: Result<DeleteChatArgs, Failure>)
    ensures Falsy(Get(body, "chatId")) ==> r == Err(Reject("chatId is required"))
    ensures !Falsy(Get(body, "chatId")) && !valid(Get(body, "chatId")) ==> r == Err(Reject("Invalid chat ID format"))
    ensures r.Ok? <==> !Falsy(Get(body, "chatId")) && valid(Get(body, "chatId")) && oid(Get(body, "chatId")).Some? && oid(Get(body, "userId")).Some?
  {
    var chatId := Get(body, "chatId");
    if Falsy(chatId) then Err(Reject("chatId is required"))
    else if !valid(chatId) then Err(Reject("Invalid chat ID format"))
    else if oid(chatId).None? || oid(Get(body, "userId")).None? then Err(Other)
    else Ok(DeleteChatArgs(oid(chatId).value, oid(Get(body, "userId")).value))
  }

  function DeleteChat(body: Json, valid: Json -> bool, oid: Json -> Option<Id>, svc: DeleteChatArgs -> Result<Json, ApiError>): (r: Response)
    requires ErrorStatuses(svc)
    ensures r.status == 200 <==> DeleteChatCall(body, valid, oid).Ok? && svc(DeleteChatCall(body, valid, oid).value).Ok?
    ensures Falsy(Get(body, "chatId")) ==> r == Response(400, FailureBody("chatId is required"))
  {
    Answer(Then(DeleteChatCall(body, valid, oid), svc), 200, "Failed to delete chat")
  }

  // ---------------------------------------------------------------- deleteMembers

  datatype DeleteMembersArgs = DeleteMembersArgs(chatId: Id, userIds: seq<Id>, caller: Id)

  /** The ids that fail `isValid`, in order. */
  function InvalidIds(items: seq<Json>, valid: Json -> bool): (r: seq<Json>)
    ensures r == [] <==> forall i :: 0 <= i < |items| ==> valid(items[i])
    ensures forall i :: 0 <= i < |r| ==> r[i] in items && !valid(r[i])
  {
    var r := Seqs.Filter(items, x => !valid(x));
    assert r != [] ==> exists j :: 0 <= j < |items| && !valid(items[j]) by {
      if r != [] {
        assert r[0] in items;
      }
    }
    r
  }

  /** The message naming every invalid id, joined by ", ". */
  function InvalidIdsMessage(invalid: seq<Json>): string {
    "Invalid user ID format: " + Join(seq(|invalid|, i requires 0 <= i < |invalid| => ElementText(invalid[i])), ", ")
  }

  /** deleteMembers: chatId present, userIds an array, non-empty, chatId valid, then all user ids valid at once. */
  function DeleteMembersCall(body: Json, valid: Json -> bool, oid: Json -> Option<Id>): (r: Result<DeleteMembersArgs, Failure>)
    ensures Falsy(Get(body, "chatId")) ==> r == Err(Reject("chatId is required"))
    ensures !Falsy(Get(body, "chatId")) && !IsArray(Get(body, "userIds")) ==> r == Err(Reject("userIds must be an array"))
    ensures !Falsy(Get(body, "chatId")) && Get(body, "userIds") == Arr([]) ==> r == Err(Reject("At least one user ID is required"))
    ensures !Falsy(Get(body, "chatId")) && IsArray(Get(body, "userIds")) && Get(body, "userIds") != Arr([]) && !valid(Get(body, "chatId")) ==>
              r == Err(Reject("Invalid chat ID format"))
    ensures !Falsy(Get(body, "chatId")) && IsArray(Get(body, "userIds")) && Get(body, "userIds") != Arr([]) && valid(Get(body, "chatId"))
            && InvalidIds(Get(body, "userIds").items, valid) != [] ==>
              r == Err(Reject(InvalidIdsMessage(InvalidIds(Get(body, "userIds").items, valid))))
    ensures r.Ok? ==> |r.value.userIds| == |Get(body, "userIds").items| > 0
  {
    var chatId := Get(body, "chatId");
    var userIds := Get(body, "userIds");
    if Falsy(chatId) then Err(Reject("chatId is required"))
    else if Falsy(userIds) || !IsArray(userIds) then Err(Reject("userIds must be an array"))
    else if |userIds.items| == 0 then Err(Reject("At least one user ID is required"))
    else if !valid(chatId) then Err(Reject("Invalid chat ID format"))
    else
      var invalid := InvalidIds(userIds.items, valid);
      if |invalid| > 0 then Err(Reject(InvalidIdsMessage(invalid)))
      else match ConvertIds(userIds.items, valid, oid, "")
        case Err(f) => Err(f)
        case Ok(ids) =>
          if oid(chatId).None? || oid(Get(body, "userId")).None? then Err(Other)
          else Ok(DeleteMembersArgs(oid(chatId).value, ids, oid(Get(body, "userId")).value))
  }

  /** A single invalid id is reported on its own, with no separator. */
  lemma OneInvalidIdMessage(x: Json)
    ensures InvalidIdsMessage([x]) == "Invalid user ID format: " + ElementText(x)
  {
  }

  function DeleteMembers(body: Json, valid: Json -> bool, oid: Json -> Option<Id>, svc: DeleteMembersArgs -> Result<Json, ApiError>): (r: Response)
    requires ErrorStatuses(svc)
    ensures r.status == 200 <==> DeleteMembersCall(body, valid, oid).Ok? && svc(DeleteMembersCall(body, valid, oid).value).Ok?
    ensures Falsy(Get(body, "chatId")) ==> r == Response(400, FailureBody("chatId is required"))
  {
    Answer(Then(DeleteMembersCall(body, valid, oid), svc), 200, "Failed to remove members")
  }

  /** An ApiError from the service reaches the client of deleteChat with its own status and message. */
  lemma ServiceErrorPassesThrough(body: Json, valid: Json -> bool, oid: Json -> Option<Id>, svc: DeleteChatArgs -> Result<Json, ApiError>)
    requires ErrorStatuses(svc)
    requires DeleteChatCall(body, valid, oid).Ok? && svc(DeleteChatCall(body, valid, oid).value).Err?
    ensures var e := svc(DeleteChatCall(body, valid, oid).value).error;
            DeleteChat(body, valid, oid, svc) == Response(e.statusCode, FailureBody(e.message))
  {
  }
}
