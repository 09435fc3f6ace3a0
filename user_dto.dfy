/**
 * The auth service's `UserDto`: the user fields sent to clients, built from a
 * stored user with `||` defaults. Fields are JavaScript values; an ObjectId
 * `_id` is represented by its hexadecimal string.
 */
module UserDto {
  import opened Wrappers
  import opened Json

  /** The stored user, as the constructor reads it. */
  datatype UserModel = UserModel(id: Json, name: Json, email: Json, phone: Json, status: Json, lastSeen: Json, profilePic: Json)

  datatype Dto = Dto(id: string, name: Json, email: Json, phone: Json, status: Json, lastSeen: Json, profilePic: Json)

  /**
   * `new UserDto(model)`. Calling `toString` on a missing or null `_id` throws,
   * which is the `None` result.
   */
  function FromModel(m: UserModel): (r: Option<Dto>)
    ensures r.None? <==> m.id.Undefined? || m.id.Null?
    ensures r.Some? ==> r.value.id == ToText(m.id)
    ensures r.Some? ==> r.value.name == m.name && r.value.phone == m.phone && r.value.lastSeen == m.lastSeen
  {
    if m.id.Undefined? || m.id.Null? then None
    else Some(Dto(
      ToText(m.id),
      m.name,
      if Falsy(m.email) then Undefined else m.email,
      m.phone,
      if Falsy(m.status) then Str("offline") else m.status,
      m.lastSeen,
      if Falsy(m.profilePic) then Null else m.profilePic))
  }

  /**
   * The defaults: a falsy email becomes undefined, a falsy status "offline"
   * and a falsy picture null; a truthy value is kept as it is, a status
   * outside "online"/"offline" included.
   */
  lemma Defaults(m: UserModel)
    requires FromModel(m).Some?
    ensures var d := FromModel(m).value;
            && (Falsy(m.email) ==> d.email == Undefined) && (!Falsy(m.email) ==> d.email == m.email)
            && (Falsy(m.status) ==> d.status == Str("offline")) && (!Falsy(m.status) ==> d.status == m.status)
            && (Falsy(m.profilePic) ==> d.profilePic == Null) && (!Falsy(m.profilePic) ==> d.profilePic == m.profilePic)
  {
  }

  /** A transfer object read back as a user. */
  function AsModel(d: Dto): UserModel {
    UserModel(Str(d.id), d.name, d.email, d.phone, d.status, d.lastSeen, d.profilePic)
  }

  /** Building a transfer object from one changes nothing: the defaults are already in place. */
  lemma FromModelIdempotent(m: UserModel)
    requires FromModel(m).Some?
    ensures FromModel(AsModel(FromModel(m).value)) == FromModel(m)
  {
  }

  /** A user stored with an ObjectId `_id` and no optional fields gets every default. */
  lemma BareUser(hex: string, name: string, phone: string, lastSeen: Json)
    ensures FromModel(UserModel(Str(hex), Str(name), Undefined, Str(phone), Undefined, lastSeen, Undefined))
            == Some(Dto(hex, Str(name), Undefined, Str(phone), Str("offline"), lastSeen, Null))
  {
  }
}
