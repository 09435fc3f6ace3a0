/**
 * The main service's ChatService over two in-memory tables: chats by id, and
 * the ChatMember records in insertion order (a `findOne` is the first match).
 *
 * Every method wraps its body in a `catch` that turns whatever the body threw,
 * including the 400/403/404 errors it throws itself, into a 500 with a fixed
 * message; only a cast error (and, in updateChatDate, a validation error)
 * comes out as a 400. Clocks and freshly generated ids are parameters.
 */
module ChatService {
  import opened Wrappers
  import opened Seqs
  import opened Schemas
  import opened ApiErrors
  import Text

  // ---------------------------------------------------------------- errors

  /** What a method's `try` block can throw, before its `catch` rewrites it. */
  datatype Thrown = Api(error: ApiError) | CastError | ValidationError(message: string) | Unexpected

  /** One method's `catch`: the message for a cast error, the prefix for a validation error (if it singles those out), and the fixed fallback message. */
  datatype CatchRule = CatchRule(castMessage: Option<string>, validationPrefix: Option<string>, fallback: string)

  function Catch(rule: CatchRule, t: Thrown): (e: ApiError)
    ensures t.Api? ==> e == NewApiError(500, rule.fallback)
    ensures e.statusCode == 400 || e.statusCode == 500
    ensures e.statusCode == 400 <==> (t.CastError? && rule.castMessage.Some?) || (t.ValidationError? && rule.validationPrefix.Some?)
    ensures e.isOperational && e.details.None?
  {
    match t
    case CastError =>
      if rule.castMessage.Some? then NewApiError(400, rule.castMessage.value) else NewApiError(500, rule.fallback)
    case ValidationError(message) =>
      if rule.validationPrefix.Some? then NewApiError(400, rule.validationPrefix.value + message) else NewApiError(500, rule.fallback)
    case _ => NewApiError(500, rule.fallback)
  }

  const GetUsersChatsCatch := CatchRule(None, None, "Failed to fetch user chats")
  const GetChatCatch := CatchRule(Some("Invalid chat ID format"), None, "Failed to fetch chat")
  const GetMembersCatch := CatchRule(Some("Invalid chat ID format"), None, "Failed to fetch members")
  const CreateChatCatch := CatchRule(None, None, "Failed to create chat")
  const AddMembersCatch := CatchRule(Some("Invalid ID format"), None, "Failed to add members")
  const UpdateChatDateCatch := CatchRule(Some("Invalid chat ID format"), Some("Validation error: "), "Failed to update chat")
  const UpdateChatMembersCatch := CatchRule(Some("Invalid ID format"), None, "Failed to update members")
  const DeleteChatCatch := CatchRule(Some("Invalid chat ID format"), None, "Failed to delete chat")
  const DeleteMembersCatch := CatchRule(Some("Invalid ID format"), None, "Failed to remove members")

  /** createChat has no special case in its catch: whatever it throws, the caller sees one 500. */
  lemma CreateChatFailsOnlyWith500(t: Thrown)
    ensures Catch(CreateChatCatch, t) == ApiError(500, "Failed to create chat", true, None)
  {
  }

  /** The service's own 404 on a missing chat never reaches the caller as a 404. */
  lemma NotFoundBecomes500(rule: CatchRule, message: string)
    ensures Catch(rule, Api(NewApiError(404, message))).statusCode == 500
    ensures Catch(rule, Api(NewApiError(403, message))).statusCode == 500
    ensures Catch(rule, Api(NewApiError(400, message))).statusCode == 500
  {
  }

  // ---------------------------------------------------------------- array operators

  /** `$addToSet: {path: {$each: ys}}`: append each element of `ys` that is not there yet, in order. */
  function AddToSet(xs: seq<Id>, ys: seq<Id>): (r: seq<Id>)
    ensures |xs| <= |r| && r[..|xs|] == xs
    ensures forall v :: v in r <==> v in xs || v in ys
    ensures NoDuplicates(xs) ==> NoDuplicates(r)
    decreases |ys|
  {
    if ys == [] then xs
    else
      var xs' := if ys[0] in xs then xs else xs + [ys[0]];
      var r := AddToSet(xs', ys[1..]);
      assert r[..|xs|] == r[..|xs'|][..|xs|];
      r
  }

  /** `$pull: {path: {$in: ys}}`: drop every element that is in `ys`, keeping the order of the rest. */
  function Pull(xs: seq<Id>, ys: seq<Id>): (r: seq<Id>)
    ensures forall v :: v in r <==> v in xs && v !in ys
    ensures |r| <= |xs|
    decreases |xs|
  {
    if xs == [] then [] else (if xs[0] in ys then [] else [xs[0]]) + Pull(xs[1..], ys)
  }

  /** Pulling the values absent from an array leaves it as it was. */
  lemma {:induction false} PullDisjoint(xs: seq<Id>, ys: seq<Id>)
    requires forall v :: v in ys ==> v !in xs
    ensures Pull(xs, ys) == xs
    decreases |xs|
  {
    if xs != [] {
      PullDisjoint(xs[1..], ys);
      assert xs == [xs[0]] + xs[1..];
    }
  }

  // ---------------------------------------------------------------- member table queries

  /** `ChatMember.findOne({chatId, userId})`: the first record for that user in that chat. */
  function FindMember(ms: seq<ChatMember>, chatId: Id, userId: Id): (r: Option<ChatMember>)
    ensures r.Some? ==> r.value in ms && r.value.chatId == chatId && r.value.userId == userId
    ensures r.None? <==> forall m :: m in ms ==> !(m.chatId == chatId && m.userId == userId)
    decreases |ms|
  {
    if ms == [] then None
    else if ms[0].chatId == chatId && ms[0].userId == userId then Some(ms[0])
    else FindMember(ms[1..], chatId, userId)
  }

  /** Records appended after a user's first record do not change which record `findOne` returns. */
  lemma {:induction false} FindMemberAppend(ms: seq<ChatMember>, extra: seq<ChatMember>, chatId: Id, userId: Id)
    ensures FindMember(ms + extra, chatId, userId) ==
            if FindMember(ms, chatId, userId).Some? then FindMember(ms, chatId, userId) else FindMember(extra, chatId, userId)
    decreases |ms|
  {
    if ms == [] {
      assert ms + extra == extra;
    } else {
      assert (ms + extra)[1..] == ms[1..] + extra;
      FindMemberAppend(ms[1..], extra, chatId, userId);
    }
  }

  /** The roles the service treats as privileged. */
  predicate IsPrivileged(role: string) {
    role == "admin" || role == "creator"
  }

  /** The permission gate: the caller's first record in the chat exists and has role 'admin' or 'creator'. */
  predicate MayChange(ms: seq<ChatMember>, chatId: Id, userId: Id) {
    FindMember(ms, chatId, userId).Some? && IsPrivileged(FindMember(ms, chatId, userId).value.role)
  }

  /** The ids among `userIds` that have no record in the chat yet; duplicates in the request survive. */
  function NewUserIds(ms: seq<ChatMember>, chatId: Id, userIds: seq<Id>): (r: seq<Id>)
    ensures |r| <= |userIds|
    ensures forall u :: u in r <==> u in userIds && FindMember(ms, chatId, u).None?
  {
    Filter(userIds, u => FindMember(ms, chatId, u).None?)
  }

  /** Member records for `userIds`, in order, all with the same role. */
  function RoleRecords(userIds: seq<Id>, chatId: Id, role: string, now: Time): (r: seq<ChatMember>)
    ensures |r| == |userIds|
    ensures forall i :: 0 <= i < |r| ==> r[i] == ChatMember(userIds[i], chatId, role, now, None)
  {
    seq(|userIds|, i requires 0 <= i < |userIds| => ChatMember(userIds[i], chatId, role, now, None))
  }

  /** The records createChat writes: one per participant, in order, 'creator' for the first and 'member' for the rest. */
  function CreatorRecords(participants: seq<Id>, chatId: Id, now: Time): (r: seq<ChatMember>)
    ensures |r| == |participants|
    ensures forall i :: 0 <= i < |r| ==> r[i].userId == participants[i] && r[i].chatId == chatId && r[i].joinedAt == now
    ensures forall i :: 0 <= i < |r| ==> (r[i].role == "creator" <==> i == 0) && (i > 0 ==> r[i].role == "member")
  {
    seq(|participants|, i requires 0 <= i < |participants| =>
      ChatMember(participants[i], chatId, if i == 0 then "creator" else "member", now, None))
  }

  /** `ChatMember.deleteMany({chatId, userId: {$in: userIds}})`. */
  function RemoveRecords(ms: seq<ChatMember>, chatId: Id, userIds: seq<Id>): (r: seq<ChatMember>)
    ensures forall m :: m in r <==> m in ms && !(m.chatId == chatId && m.userId in userIds)
  {
    Filter(ms, (m: ChatMember) => !(m.chatId == chatId && m.userId in userIds))
  }

  /** `ChatMember.updateMany({chatId, userId: {$in: userIds}}, {$set: {role}})`: positions and other records untouched. */
  function SetRole(ms: seq<ChatMember>, chatId: Id, userIds: seq<Id>, role: string): (r: seq<ChatMember>)
    ensures |r| == |ms|
    ensures forall i :: 0 <= i < |ms| ==>
              r[i] == if ms[i].chatId == chatId && ms[i].userId in userIds then ms[i].(role := role) else ms[i]
  {
    seq(|ms|, i requires 0 <= i < |ms| =>
      if ms[i].chatId == chatId && ms[i].userId in userIds then ms[i].(role := role) else ms[i])
  }

  /**
   * `ChatMember.insertMany(records)`, ordered: every record is validated before
   * any is written, so one record outside the schema means none is inserted.
   */
  function InsertMany(ms: seq<ChatMember>, records: seq<ChatMember>): (r: Option<seq<ChatMember>>)
    ensures r.Some? <==> forall m :: m in records ==> ValidChatMember(m)
    ensures r.Some? ==> |r.value| == |ms| + |records| && r.value[..|ms|] == ms && r.value[|ms|..] == records
  {
    if forall m :: m in records ==> ValidChatMember(m) then
      var r := ms + records;
      assert r[..|ms|] == ms && r[|ms|..] == records;
      Some(r)
    else None
  }

  /** createChat's member records are never inserted: the first one's role, 'creator', is outside the enum. */
  lemma CreatorRecordsRejected(ms: seq<ChatMember>, participants: seq<Id>, chatId: Id, now: Time)
    requires |participants| > 0
    ensures InsertMany(ms, CreatorRecords(participants, chatId, now)).None?
  {
    var recs := CreatorRecords(participants, chatId, now);
    CreatorRoleInvalid(recs[0]);
    assert recs[0] in recs;
  }

  /** Records that all carry one role go in exactly when that role is in the enum. */
  lemma RoleRecordsInserted(ms: seq<ChatMember>, userIds: seq<Id>, chatId: Id, role: string, now: Time)
    requires |userIds| > 0
    ensures InsertMany(ms, RoleRecords(userIds, chatId, role, now)).Some? <==> role in MemberRoles
  {
    var recs := RoleRecords(userIds, chatId, role, now);
    if role in MemberRoles {
      forall m | m in recs ensures ValidChatMember(m) {
        var i :| 0 <= i < |recs| && recs[i] == m;
      }
    } else {
      assert recs[0] in recs && !ValidChatMember(recs[0]);
    }
  }

  /** Filtering out records never changes a user's first record when that user's records all survive the filter. */
  lemma {:induction false} FindMemberFilter(ms: seq<ChatMember>, keep: ChatMember -> bool, chatId: Id, userId: Id)
    requires forall i :: 0 <= i < |ms| && ms[i].chatId == chatId && ms[i].userId == userId ==> keep(ms[i])
    ensures FindMember(Filter(ms, keep), chatId, userId) == FindMember(ms, chatId, userId)
    decreases |ms|
  {
    if ms != [] {
      var head := ms[0];
      var rest := Filter(ms[1..], keep);
      var f := Filter(ms, keep);
      assert f == (if keep(head) then [head] else []) + rest;
      if head.chatId == chatId && head.userId == userId {
        assert f[0] == head;
      } else {
        assert forall i :: 0 <= i < |ms[1..]| ==> ms[1..][i] == ms[i + 1];
        FindMemberFilter(ms[1..], keep, chatId, userId);
        if keep(head) {
          assert f[1..] == rest;
        } else {
          assert f == rest;
        }
      }
    }
  }

  /** Removing a set of users leaves an absent caller's first record, and so their permission, as it was. */
  lemma RemoveRecordsKeepsOthers(ms: seq<ChatMember>, chatId: Id, userIds: seq<Id>, caller: Id)
    requires caller !in userIds
    ensures FindMember(RemoveRecords(ms, chatId, userIds), chatId, caller) == FindMember(ms, chatId, caller)
  {
    var keep := (m: ChatMember) => !(m.chatId == chatId && m.userId in userIds);
    assert RemoveRecords(ms, chatId, userIds) == Filter(ms, keep);
    FindMemberFilter(ms, keep, chatId, caller);
  }

  // ---------------------------------------------------------------- createChat

  /** `IChatCreate`: what createChat receives. Missing arrays and strings are `None`. */
  datatype ChatCreate = ChatCreate(
    name: Option<string>,
    kind: Option<string>,
    participants: Option<seq<Id>>,
    admins: Option<seq<Id>>,
    avatar: Option<string>,
    description: Option<string>)

  predicate Truthy(s: Option<string>) {
    s.Some? && s.value != ""
  }

  /** The four creation rules together. */
  predicate AcceptableCreate(d: ChatCreate) {
    && (Truthy(d.name) || d.kind == Some("private"))
    && d.kind.Some? && d.kind.value in ChatTypes
    && d.participants.Some? && |d.participants.value| > 0
    && (d.kind == Some("private") ==> |d.participants.value| == 2)
  }

  /** The first creation rule `d` breaks, in the order the service checks them. */
  function CreateChatCheck(d: ChatCreate): (r: Option<ApiError>)
    ensures r.None? <==> AcceptableCreate(d)
    ensures r.Some? ==> r.value.statusCode == 400
    ensures !Truthy(d.name) && d.kind != Some("private") ==>
              r == Some(NewApiError(400, "Chat name is required for group chats"))
    ensures (Truthy(d.name) || d.kind == Some("private")) && d.kind.Some? && d.kind.value in ChatTypes
            && d.kind == Some("private") && d.participants.Some? && |d.participants.value| > 0 && |d.participants.value| != 2 ==>
              r == Some(NewApiError(400, "Private chats must have exactly 2 participants"))
  {
    if !Truthy(d.name) && d.kind != Some("private") then Some(NewApiError(400, "Chat name is required for group chats"))
    else if d.kind.None? || d.kind.value !in ChatTypes then Some(NewApiError(400, "Invalid chat type"))
    else if d.participants.None? || |d.participants.value| == 0 then Some(NewApiError(400, "At least one participant is required"))
    else if d.kind == Some("private") && |d.participants.value| != 2 then Some(NewApiError(400, "Private chats must have exactly 2 participants"))
    else None
  }

  /** A private chat needs exactly two participants, and a chat of any other type needs a name. */
  lemma CreationRules(d: ChatCreate)
    ensures AcceptableCreate(d) && d.kind == Some("private") ==> |d.participants.value| == 2
    ensures AcceptableCreate(d) && d.kind != Some("private") ==> Truthy(d.name) && d.kind == Some("group")
  {
  }

  /**
   * The chat document `Chat.create` builds: the request's name (trimmed), type
   * and participants. The `admins` default, `avatar`, `description` and
   * `unreadCounts` are not schema paths and are dropped.
   */
  function CreatedChat(id: Id, d: ChatCreate, now: Time): (c: Chat)
    requires AcceptableCreate(d)
    ensures c.id == id && c.participants == d.participants.value && c.kind == d.kind
    ensures c.name == TrimName(d.name)
    ensures c.lastMessage.None? && c.unreadCount == 0 && c.createdAt == now && c.updatedAt == now
  {
    NewChat(id, d.name, d.kind, d.participants.value, now)
  }

  /** What the request says about admins, avatar or description makes no difference to the stored chat. */
  lemma UndeclaredFieldsDropped(id: Id, d: ChatCreate, now: Time, admins: Option<seq<Id>>, avatar: Option<string>, description: Option<string>)
    requires AcceptableCreate(d)
    ensures CreatedChat(id, d.(admins := admins, avatar := avatar, description := description), now) == CreatedChat(id, d, now)
  {
  }

  /**
   * `Chat.create` accepts a request that passed the four rules exactly when
   * its name does not trim to nothing; a private chat without a name passes
   * the rules but is always refused here.
   */
  lemma CreatedChatValid(id: Id, d: ChatCreate, now: Time)
    requires AcceptableCreate(d)
    ensures ValidChat(CreatedChat(id, d, now)) <==> d.name.Some? && Text.Trim(d.name.value) != ""
    ensures d.name.None? ==> !ValidChat(CreatedChat(id, d, now))
  {
    if d.name.Some? {
      TrimIdempotent(d.name.value);
    }
  }

  // ---------------------------------------------------------------- updateChatDate

  /** `Partial<IChat>`, over the paths the Chat schema declares: each field present (`Some`) or not. */
  datatype ChatPatch = ChatPatch(
    id: Option<Id>,
    name: Option<string>,
    kind: Option<string>,
    participants: Option<seq<Id>>,
    lastMessage: Option<Option<Id>>,
    unreadCount: Option<int>,
    createdAt: Option<Time>,
    updatedAt: Option<Time>)

  /** `const { _id, createdAt, updatedAt, ...safeUpdates } = updates`. */
  function SafeUpdates(p: ChatPatch): (r: ChatPatch)
    ensures r.id.None? && r.createdAt.None? && r.updatedAt.None?
  {
    p.(id := None, createdAt := None, updatedAt := None)
  }

  /** `runValidators` on the `$set` paths: a present name must not trim to nothing, a present type must be in the enum. */
  predicate PatchValid(p: ChatPatch) {
    && (p.name.None? || Text.Trim(p.name.value) != "")
    && (p.kind.None? || p.kind.value in ChatTypes)
  }

  /** `$set: {...p, updatedAt: now}`: every present field is written (the name trimmed), the others kept, then updatedAt. */
  function ApplyPatch(c: Chat, p: ChatPatch, now: Time): (r: Chat)
    ensures r.updatedAt == now
    ensures r.id == p.id.GetOr(c.id) && r.createdAt == p.createdAt.GetOr(c.createdAt)
    ensures p.name.None? ==> r.name == c.name
    ensures p.name.Some? ==> r.name == Some(Text.Trim(p.name.value))
    ensures p.kind.None? ==> r.kind == c.kind
    ensures p.kind.Some? ==> r.kind == p.kind
    ensures r.participants == p.participants.GetOr(c.participants)
    ensures r.lastMessage == p.lastMessage.GetOr(c.lastMessage)
    ensures r.unreadCount == p.unreadCount.GetOr(c.unreadCount)
  {
    Chat(
      p.id.GetOr(c.id),
      if p.name.Some? then TrimName(p.name) else c.name,
      if p.kind.Some? then p.kind else c.kind,
      p.participants.GetOr(c.participants),
      p.lastMessage.GetOr(c.lastMessage),
      p.unreadCount.GetOr(c.unreadCount),
      p.createdAt.GetOr(c.createdAt),
      now)
  }

  /** Whatever the update carries, updateChatDate never changes a chat's id or creation time, and always stamps updatedAt. */
  lemma UpdateKeepsIdentity(c: Chat, p: ChatPatch, now: Time)
    ensures ApplyPatch(c, SafeUpdates(p), now).id == c.id
    ensures ApplyPatch(c, SafeUpdates(p), now).createdAt == c.createdAt
    ensures ApplyPatch(c, SafeUpdates(p), now).updatedAt == now
  {
  }

  /** A patch that passes validation keeps a schema-valid chat schema-valid. */
  lemma PatchKeepsValid(c: Chat, p: ChatPatch, now: Time)
    requires ValidChat(c) && PatchValid(p)
    ensures ValidChat(ApplyPatch(c, p, now))
  {
    if p.name.Some? {
      var t := Text.Trim(p.name.value);
      TrimIdempotent(p.name.value);
      assert Text.Trim(t) == t;
    }
  }

  /** Trimming twice is trimming once. */
  lemma TrimIdempotent(s: string)
    ensures Text.Trim(Text.Trim(s)) == Text.Trim(s)
  {
    var t := Text.Trim(s);
    if t != "" {
      assert Text.TrimStart(t) == t;
      assert Text.TrimEnd(t) == t;
    }
  }

  // ---------------------------------------------------------------- updateChatMembers

  /** The four optional id lists of updateChatMembers; a missing list is empty. */
  datatype MemberUpdate = MemberUpdate(addMembers: seq<Id>, removeMembers: seq<Id>, newAdmins: seq<Id>, removeAdmins: seq<Id>)

  datatype ArrayPath = Participants | Admins
  datatype ArrayOp = ArrayOp(path: ArrayPath, ids: seq<Id>)

  /** The update document: at most one `$addToSet` and one `$pull` (which may name two paths). */
  datatype UpdateOps = UpdateOps(addToSet: Option<ArrayOp>, pull: seq<ArrayOp>)

  /**
   * The document the four successive assignments leave: a later assignment to
   * `$addToSet` or `$pull` replaces an earlier one.
   */
  function OpsFor(u: MemberUpdate): UpdateOps {
    var addToSet :=
      if |u.newAdmins| > 0 then Some(ArrayOp(Admins, u.newAdmins))
      else if |u.addMembers| > 0 then Some(ArrayOp(Participants, u.addMembers))
      else None;
    var pull :=
      if |u.removeAdmins| > 0 then [ArrayOp(Admins, u.removeAdmins)]
      else if |u.removeMembers| > 0 then [ArrayOp(Participants, u.removeMembers), ArrayOp(Admins, u.removeMembers)]
      else [];
    UpdateOps(addToSet, pull)
  }

  /**
   * MongoDB refuses an update whose `$addToSet` and `$pull` touch the same array.
   * Strict mode first drops the operators on `admins`, which the Chat schema
   * does not declare, so only `participants` can collide.
   */
  predicate Conflicts(ops: UpdateOps) {
    ops.addToSet.Some? && ops.addToSet.value.path == Participants && Participants in PulledPaths(ops.pull)
  }

  function PulledPaths(pulls: seq<ArrayOp>): (r: seq<ArrayPath>)
    ensures |r| == |pulls| && forall i :: 0 <= i < |r| ==> r[i] == pulls[i].path
  {
    seq(|pulls|, i requires 0 <= i < |pulls| => pulls[i].path)
  }

  function PullEach(xs: seq<Id>, path: ArrayPath, pulls: seq<ArrayOp>): seq<Id>
    decreases |pulls|
  {
    if pulls == [] then xs
    else PullEach(if pulls[0].path == path then Pull(xs, pulls[0].ids) else xs, path, pulls[1..])
  }

  function ApplyToPath(xs: seq<Id>, path: ArrayPath, ops: UpdateOps): seq<Id> {
    var added := if ops.addToSet.Some? && ops.addToSet.value.path == path then AddToSet(xs, ops.addToSet.value.ids) else xs;
    PullEach(added, path, ops.pull)
  }

  /** The chat after `findByIdAndUpdate(chatId, ops)`: only `participants` is a stored array, so only it changes. */
  function ApplyOps(c: Chat, ops: UpdateOps, now: Time): Chat {
    c.(participants := ApplyToPath(c.participants, Participants, ops), updatedAt := now)
  }

  /** The update fails on a path conflict exactly when members are both added and removed, and no admin list is given. */
  lemma ConflictCases(u: MemberUpdate)
    ensures Conflicts(OpsFor(u)) <==> |u.newAdmins| == 0 && |u.addMembers| > 0 && |u.removeAdmins| == 0 && |u.removeMembers| > 0
  {
    var ops := OpsFor(u);
    if |u.removeAdmins| > 0 {
      assert PulledPaths(ops.pull) == [Admins];
    } else if |u.removeMembers| > 0 {
      assert PulledPaths(ops.pull) == [Participants, Admins];
    } else {
      assert PulledPaths(ops.pull) == [];
    }
  }

  /**
   * New admins in the request replace the `$addToSet` on participants, so the
   * members to remove are still pulled and nothing collides.
   */
  lemma NewAdminsStillRemoveMembers(c: Chat, u: MemberUpdate, now: Time)
    requires |u.newAdmins| > 0 && |u.removeAdmins| == 0
    ensures !Conflicts(OpsFor(u))
    ensures ApplyOps(c, OpsFor(u), now).participants == Pull(c.participants, u.removeMembers)
  {
    var ops := OpsFor(u);
    if |u.removeMembers| > 0 {
      var pulled := Pull(c.participants, u.removeMembers);
      assert ops.pull[1..] == [ArrayOp(Admins, u.removeMembers)];
      assert PullEach(c.participants, Participants, ops.pull) == PullEach(pulled, Participants, ops.pull[1..]);
      assert PullEach(pulled, Participants, ops.pull[1..]) == PullEach(pulled, Participants, []);
    } else {
      PullDisjoint(c.participants, u.removeMembers);
    }
  }

  /** A `$pull` only ever removes elements. */
  lemma {:induction false} PullEachShrinks(xs: seq<Id>, path: ArrayPath, pulls: seq<ArrayOp>)
    ensures forall x :: x in PullEach(xs, path, pulls) ==> x in xs
    decreases |pulls|
  {
    if pulls != [] {
      var next := if pulls[0].path == path then Pull(xs, pulls[0].ids) else xs;
      PullEachShrinks(next, path, pulls[1..]);
    }
  }

  /** With new admins in the request, the requested new members are never added to participants. */
  lemma NewAdminsDropAddMembers(c: Chat, u: MemberUpdate, now: Time)
    requires |u.newAdmins| > 0
    ensures forall x :: x in ApplyOps(c, OpsFor(u), now).participants ==> x in c.participants
  {
    PullEachShrinks(c.participants, Participants, OpsFor(u).pull);
  }

  /** With admins to remove in the request, the members to remove are not pulled from participants. */
  lemma RemoveAdminsDropRemoveMembers(c: Chat, u: MemberUpdate, now: Time)
    requires |u.removeAdmins| > 0
    ensures forall x :: x in c.participants ==> x in ApplyOps(c, OpsFor(u), now).participants
  {
    var ops := OpsFor(u);
    var added := if ops.addToSet.Some? && ops.addToSet.value.path == Participants then AddToSet(c.participants, ops.addToSet.value.ids) else c.participants;
    assert ops.pull == [ArrayOp(Admins, u.removeAdmins)];
    assert PullEach(added, Participants, ops.pull) == PullEach(added, Participants, []);
  }

  /** The member-table writes that follow a successful chat update, in the service's order. */
  function MemberWrites(ms: seq<ChatMember>, chatId: Id, u: MemberUpdate, now: Time): seq<ChatMember> {
    var ms1 := ms + RoleRecords(u.addMembers, chatId, "member", now);
    var ms2 := RemoveRecords(ms1, chatId, u.removeMembers);
    var ms3 := SetRole(ms2, chatId, u.newAdmins, "admin");
    SetRole(ms3, chatId, u.removeAdmins, "member")
  }

  /**
   * After those writes no removed member has a record in the chat, a removed
   * admin's records say 'member', a new admin's say 'admin' (unless also
   * removed as admin), and other chats' records are untouched.
   */
  lemma MemberWritesEffect(ms: seq<ChatMember>, chatId: Id, u: MemberUpdate, now: Time)
    ensures forall x :: x in u.removeMembers ==> FindMember(MemberWrites(ms, chatId, u, now), chatId, x).None?
    ensures forall m :: m in MemberWrites(ms, chatId, u, now) && m.chatId == chatId && m.userId in u.removeAdmins ==> m.role == "member"
    ensures forall m :: m in MemberWrites(ms, chatId, u, now) && m.chatId == chatId && m.userId in u.newAdmins && m.userId !in u.removeAdmins ==> m.role == "admin"
    ensures forall m: ChatMember :: m.chatId != chatId ==> (m in MemberWrites(ms, chatId, u, now) <==> m in ms)
  {
    forall m: ChatMember | m.chatId != chatId
      ensures m in MemberWrites(ms, chatId, u, now) <==> m in ms
    {
      OtherChatUntouched(ms, chatId, u, now, m);
    }
    forall m | m in MemberWrites(ms, chatId, u, now) && m.chatId == chatId && m.userId in u.newAdmins && m.userId !in u.removeAdmins
      ensures m.role == "admin"
    {
      NewAdminRole(ms, chatId, u, now, m);
    }
  }

  /** A record of another chat is in the table after the writes exactly when it was before. */
  lemma OtherChatUntouched(ms: seq<ChatMember>, chatId: Id, u: MemberUpdate, now: Time, m: ChatMember)
    requires m.chatId != chatId
    ensures m in MemberWrites(ms, chatId, u, now) <==> m in ms
  {
    var ms1 := ms + RoleRecords(u.addMembers, chatId, "member", now);
    var ms2 := RemoveRecords(ms1, chatId, u.removeMembers);
    var ms3 := SetRole(ms2, chatId, u.newAdmins, "admin");
    var ms4 := SetRole(ms3, chatId, u.removeAdmins, "member");
    if m in ms4 {
      var i :| 0 <= i < |ms4| && ms4[i] == m;
      assert ms3[i] == m;
      assert ms2[i] == m;
    }
    if m in ms {
      assert m in ms1;
      assert m in ms2;
      var i :| 0 <= i < |ms2| && ms2[i] == m;
      assert ms3[i] == m && ms4[i] == m;
    }
  }

  /** A new admin's record in the chat says 'admin' unless the same update also removes them as admin. */
  lemma NewAdminRole(ms: seq<ChatMember>, chatId: Id, u: MemberUpdate, now: Time, m: ChatMember)
    requires m in MemberWrites(ms, chatId, u, now) && m.chatId == chatId && m.userId in u.newAdmins && m.userId !in u.removeAdmins
    ensures m.role == "admin"
  {
    var ms1 := ms + RoleRecords(u.addMembers, chatId, "member", now);
    var ms2 := RemoveRecords(ms1, chatId, u.removeMembers);
    var ms3 := SetRole(ms2, chatId, u.newAdmins, "admin");
    var ms4 := SetRole(ms3, chatId, u.removeAdmins, "member");
    var i :| 0 <= i < |ms4| && ms4[i] == m;
    assert ms4[i] == ms3[i];
  }

  // ---------------------------------------------------------------- getters

  /** getUsersChats: `Chat.find({participants: userId})`. */
  function UsersChats(chats: map<Id, Chat>, userId: Id): (r: set<Chat>)
    ensures forall c :: c in r <==> c in chats.Values && userId in c.participants
  {
    set c | c in chats.Values && userId in c.participants
  }

  /** getChat: the chat, or the fixed 500 (its own 404 re-wrapped). */
  function GetChat(chats: map<Id, Chat>, chatId: Id): (r: Result<Chat, ApiError>)
    ensures r.Ok? <==> chatId in chats
    ensures r.Ok? ==> r.value == chats[chatId]
    ensures r.Err? ==> r.error == ApiError(500, "Failed to fetch chat", true, None)
  {
    if chatId in chats then Ok(chats[chatId]) else Err(Catch(GetChatCatch, Api(NewApiError(404, "Chat not found"))))
  }

  /** getMembers: `ChatMember.find({chatId})`, in table order. */
  function GetMembers(ms: seq<ChatMember>, chatId: Id): (r: seq<ChatMember>)
    ensures forall m :: m in r <==> m in ms && m.chatId == chatId
  {
    Filter(ms, (m: ChatMember) => m.chatId == chatId)
  }

  /** Once createChat has stored a chat, each participant's chat list contains it. */
  lemma CreatedChatIsListed(chats: map<Id, Chat>, id: Id, d: ChatCreate, now: Time, p: Id)
    requires AcceptableCreate(d) && p in d.participants.value
    ensures CreatedChat(id, d, now) in UsersChats(chats[id := CreatedChat(id, d, now)], p)
  {
    assert chats[id := CreatedChat(id, d, now)][id] == CreatedChat(id, d, now);
  }

  // ---------------------------------------------------------------- the service

  /** The service with the two collections it reads and writes. */
  class Service {
    var chats: map<Id, Chat>
    var members: seq<ChatMember>

    /** Chats are stored under their own id, and every member record belongs to a stored chat. */
    ghost predicate Valid()
      reads this
    {
      && (forall k :: k in chats ==> chats[k].id == k)
      && (forall m :: m in members ==> m.chatId in chats)
    }

    constructor ()
      ensures Valid() && chats == map[] && members == []
    {
      chats := map[];
      members := [];
    }

    /**
     * createChat: check the four rules, `Chat.create`, then insert one member
     * record per participant. The chat is stored when the schema accepts it, but
     * the records never are, so the call always ends in the fixed 500 and leaves
     * the chat without members.
     */
    method CreateChat(d: ChatCreate, newId: Id, now: Time) returns (r: Result<Chat, ApiError>)
      requires Valid() && newId !in chats
      modifies this
      ensures Valid()
      ensures r == Err(ApiError(500, "Failed to create chat", true, None))
      ensures members == old(members)
      ensures AcceptableCreate(d) && ValidChat(CreatedChat(newId, d, now)) ==> chats == old(chats)[newId := CreatedChat(newId, d, now)]
      ensures !(AcceptableCreate(d) && ValidChat(CreatedChat(newId, d, now))) ==> chats == old(chats)
    {
      var check := CreateChatCheck(d);
      if check.Some? {
        r := Err(Catch(CreateChatCatch, Api(check.value)));
        CreateChatFailsOnlyWith500(Api(check.value));
        return;
      }
      var chat := CreatedChat(newId, d, now);
      if !ValidChat(chat) {
        r := Err(Catch(CreateChatCatch, ValidationError("Chat validation failed")));
        CreateChatFailsOnlyWith500(ValidationError("Chat validation failed"));
        return;
      }
      chats := chats[newId := chat];
      // the records `insertMany` is given are refused as a whole, so none is written
      CreatorRecordsRejected(members, d.participants.value, newId, now);
      r := Err(Catch(CreateChatCatch, ValidationError("ChatMember validation failed")));
      CreateChatFailsOnlyWith500(ValidationError("ChatMember validation failed"));
    }

    /** addMembers: only a privileged caller may add, only users who are not members yet, and only with a role the schema allows. */
    method AddMembers(chatId: Id, userIds: seq<Id>, caller: Id, now: Time, role: string := "member") returns (r: Result<Chat, ApiError>)
      requires Valid()
      modifies this
      ensures Valid()
      ensures r.Ok? <==> && chatId in old(chats) && MayChange(old(members), chatId, caller)
                         && NewUserIds(old(members), chatId, userIds) != [] && role in MemberRoles
      ensures r.Err? ==> r.error == ApiError(500, "Failed to add members", true, None)
      ensures r.Err? ==> chats == old(chats) && members == old(members)
      ensures r.Ok? ==>
                var added := NewUserIds(old(members), chatId, userIds);
                && members == old(members) + RoleRecords(added, chatId, role, now)
                && chats == old(chats)[chatId := old(chats)[chatId].(participants := AddToSet(old(chats)[chatId].participants, added), updatedAt := now)]
                && r.value == chats[chatId]
      ensures old(members) == [] ==> r.Err?
    {
      if chatId !in chats {
        r := Err(Catch(AddMembersCatch, Api(NewApiError(404, "Chat not found"))));
        return;
      }
      var current := FindMember(members, chatId, caller);
      if current.None? || (current.value.role != "admin" && current.value.role != "creator") {
        r := Err(Catch(AddMembersCatch, Api(NewApiError(403, "Only admins can add members"))));
        return;
      }
      var added := NewUserIds(members, chatId, userIds);
      if |added| == 0 {
        r := Err(Catch(AddMembersCatch, Api(NewApiError(400, "All users are already members"))));
        return;
      }
      var records := RoleRecords(added, chatId, role, now);
      var inserted := InsertMany(members, records);
      RoleRecordsInserted(members, added, chatId, role, now);
      if inserted.None? {
        r := Err(Catch(AddMembersCatch, ValidationError("ChatMember validation failed")));
        return;
      }
      assert inserted.value == members + records;
      members := inserted.value;
      var chat := chats[chatId].(participants := AddToSet(chats[chatId].participants, added), updatedAt := now);
      chats := chats[chatId := chat];
      r := Ok(chat);
    }

    /** updateChatDate: apply the safe part of the update, always stamping updatedAt. */
    method UpdateChatDate(chatId: Id, updates: ChatPatch, now: Time, validationMessage: string) returns (r: Result<Chat, ApiError>)
      requires Valid()
      modifies this
      ensures Valid() && members == old(members)
      ensures !PatchValid(SafeUpdates(updates)) ==> r == Err(ApiError(400, "Validation error: " + validationMessage, true, None))
      ensures PatchValid(SafeUpdates(updates)) && chatId !in old(chats) ==> r == Err(ApiError(500, "Failed to update chat", true, None))
      ensures r.Err? ==> chats == old(chats)
      ensures r.Ok? <==> PatchValid(SafeUpdates(updates)) && chatId in old(chats)
      ensures r.Ok? ==> r.value == ApplyPatch(old(chats)[chatId], SafeUpdates(updates), now) && chats == old(chats)[chatId := r.value]
    {
      var safe := SafeUpdates(updates);
      if !PatchValid(safe) {
        r := Err(Catch(UpdateChatDateCatch, ValidationError(validationMessage)));
        return;
      }
      if chatId !in chats {
        r := Err(Catch(UpdateChatDateCatch, Api(NewApiError(404, "Chat not found"))));
        return;
      }
      var chat := ApplyPatch(chats[chatId], safe, now);
      chats := chats[chatId := chat];
      r := Ok(chat);
    }

    /** updateChatMembers: one chat update built from the four lists, then the member-table writes. */
    method UpdateChatMembers(chatId: Id, caller: Id, u: MemberUpdate, now: Time) returns (r: Result<Chat, ApiError>)
      requires Valid()
      modifies this
      ensures Valid()
      ensures r.Ok? <==> chatId in old(chats) && MayChange(old(members), chatId, caller) && !Conflicts(OpsFor(u))
      ensures r.Err? ==> r.error == ApiError(500, "Failed to update members", true, None)
      ensures r.Err? ==> chats == old(chats) && members == old(members)
      ensures r.Ok? ==> r.value == ApplyOps(old(chats)[chatId], OpsFor(u), now)
      ensures r.Ok? ==> chats == old(chats)[chatId := r.value]
      ensures r.Ok? ==> members == MemberWrites(old(members), chatId, u, now)
      ensures old(members) == [] ==> r.Err?
    {
      if chatId !in chats {
        r := Err(Catch(UpdateChatMembersCatch, Api(NewApiError(404, "Chat not found"))));
        return;
      }
      var current := FindMember(members, chatId, caller);
      if current.None? || (current.value.role != "admin" && current.value.role != "creator") {
        r := Err(Catch(UpdateChatMembersCatch, Api(NewApiError(403, "Only admins can update members"))));
        return;
      }
      var addToSet: Option<ArrayOp> := None;
      var pull: seq<ArrayOp> := [];
      if |u.addMembers| > 0 {
        addToSet := Some(ArrayOp(Participants, u.addMembers));
      }
      if |u.removeMembers| > 0 {
        pull := [ArrayOp(Participants, u.removeMembers), ArrayOp(Admins, u.removeMembers)];
      }
      if |u.newAdmins| > 0 {
        addToSet := Some(ArrayOp(Admins, u.newAdmins));
      }
      if |u.removeAdmins| > 0 {
        pull := [ArrayOp(Admins, u.removeAdmins)];
      }
      var ops := UpdateOps(addToSet, pull);
      assert ops == OpsFor(u);
      if Conflicts(ops) {
        r := Err(Catch(UpdateChatMembersCatch, Unexpected));
        return;
      }
      var chat := ApplyOps(chats[chatId], ops, now);
      chats := chats[chatId := chat];
      var ms := members;
      ms := ms + RoleRecords(u.addMembers, chatId, "member", now);
      ms := RemoveRecords(ms, chatId, u.removeMembers);
      ms := SetRole(ms, chatId, u.newAdmins, "admin");
      ms := SetRole(ms, chatId, u.removeAdmins, "member");
      members := ms;
      MemberWritesInChats(old(members), chatId, u, now, chats);
      r := Ok(chat);
    }

    /** deleteChat: a privileged caller removes the chat and every member record of it. */
    method DeleteChat(chatId: Id, caller: Id) returns (r: Result<Chat, ApiError>)
      requires Valid()
      modifies this
      ensures Valid()
      ensures r.Ok? <==> chatId in old(chats) && MayChange(old(members), chatId, caller)
      ensures r.Err? ==> r.error == ApiError(500, "Failed to delete chat", true, None)
      ensures r.Err? ==> chats == old(chats) && members == old(members)
      ensures r.Ok? ==> r.value == old(chats)[chatId] && chats == old(chats) - {chatId}
      ensures r.Ok? ==> members == Filter(old(members), (m: ChatMember) => m.chatId != chatId)
      ensures r.Ok? ==> forall m :: m in members ==> m.chatId != chatId
      ensures old(members) == [] ==> r.Err?
    {
      if chatId !in chats {
        r := Err(Catch(DeleteChatCatch, Api(NewApiError(404, "Chat not found"))));
        return;
      }
      var member := FindMember(members, chatId, caller);
      if member.None? || (member.value.role != "admin" && member.value.role != "creator") {
        r := Err(Catch(DeleteChatCatch, Api(NewApiError(403, "Only admins can delete chats"))));
        return;
      }
      var deleted := chats[chatId];
      chats := chats - {chatId};
      members := Filter(members, (m: ChatMember) => m.chatId != chatId);
      r := Ok(deleted);
    }

    /** deleteMembers: a privileged caller removes exactly the listed users, never themself. */
    method DeleteMembers(chatId: Id, userIds: seq<Id>, caller: Id, now: Time) returns (r: Result<Chat, ApiError>)
      requires Valid()
      modifies this
      ensures Valid()
      ensures r.Ok? <==> chatId in old(chats) && MayChange(old(members), chatId, caller) && caller !in userIds
      ensures r.Err? ==> r.error == ApiError(500, "Failed to remove members", true, None)
      ensures r.Err? ==> chats == old(chats) && members == old(members)
      ensures r.Ok? ==>
                var c := old(chats)[chatId];
                && r.value == c.(participants := Pull(c.participants, userIds), updatedAt := now)
                && chats == old(chats)[chatId := r.value]
                && members == RemoveRecords(old(members), chatId, userIds)
      ensures r.Ok? ==> MayChange(members, chatId, caller)
      ensures old(members) == [] ==> r.Err?
    {
      if chatId !in chats {
        r := Err(Catch(DeleteMembersCatch, Api(NewApiError(404, "Chat not found"))));
        return;
      }
      var current := FindMember(members, chatId, caller);
      if current.None? || (current.value.role != "admin" && current.value.role != "creator") {
        r := Err(Catch(DeleteMembersCatch, Api(NewApiError(403, "Only admins can remove members"))));
        return;
      }
      if caller in userIds {
        r := Err(Catch(DeleteMembersCatch, Api(NewApiError(400, "Cannot remove yourself from chat"))));
        return;
      }
      var c := chats[chatId];
      var chat := c.(participants := Pull(c.participants, userIds), updatedAt := now);
      chats := chats[chatId := chat];
      RemoveRecordsKeepsOthers(members, chatId, userIds, caller);
      members := RemoveRecords(members, chatId, userIds);
      r := Ok(chat);
    }
  }

  /** The member-table writes of updateChatMembers only add records to the chat being updated. */
  lemma MemberWritesInChats(ms: seq<ChatMember>, chatId: Id, u: MemberUpdate, now: Time, chats: map<Id, Chat>)
    requires chatId in chats
    requires forall m :: m in ms ==> m.chatId in chats
    ensures forall m :: m in MemberWrites(ms, chatId, u, now) ==> m.chatId in chats
  {
    var ms1 := ms + RoleRecords(u.addMembers, chatId, "member", now);
    var ms2 := RemoveRecords(ms1, chatId, u.removeMembers);
    var ms3 := SetRole(ms2, chatId, u.newAdmins, "admin");
    var ms4 := SetRole(ms3, chatId, u.removeAdmins, "member");
    forall m | m in ms4 ensures m.chatId in chats {
      var i :| 0 <= i < |ms4| && ms4[i] == m;
      assert ms3[i].chatId == m.chatId && ms2[i].chatId == m.chatId;
      assert ms2[i] in ms1;
    }
  }
}
