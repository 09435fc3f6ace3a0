/**
 * The auth service's TokenService over an in-memory refresh-token table. The
 * table keeps its records in insertion order, so `findOne` and `deleteOne`
 * act on the first record that matches. Signing and verifying JSON Web Tokens
 * are not modelled: verification is a function parameter.
 */
module TokenService {
  import opened Wrappers
  import opened Json
  import opened Seqs

  /** One document of the token collection. */
  datatype TokenRecord = TokenRecord(user: string, refreshToken: string)

  /** How many records belong to `user`. */
  function CountUser(s: seq<TokenRecord>, user: string): (n: nat)
    ensures n <= |s|
    decreases |s|
  {
    if s == [] then 0 else (if s[0].user == user then 1 else 0) + CountUser(s[1..], user)
  }

  // ---------------------------------------------------------------- saveToken

  /** The table after `saveToken(user, token)`: the user's first record takes the new token, or a new record is added. */
  function Save(s: seq<TokenRecord>, user: string, token: string): (r: seq<TokenRecord>)
  {
    match FirstIndex(s, (t: TokenRecord) => t.user == user)
    case None => s + [TokenRecord(user, token)]
    case Some(i) => s[i := s[i].(refreshToken := token)]
  }

  /** A user who had a record keeps the same number of records; one who had none gains exactly one. */
  lemma SaveSize(s: seq<TokenRecord>, user: string, token: string)
    ensures CountUser(s, user) > 0 ==> |Save(s, user, token)| == |s|
    ensures CountUser(s, user) == 0 ==> Save(s, user, token) == s + [TokenRecord(user, token)]
  {
    match FirstIndex(s, (t: TokenRecord) => t.user == user)
    case None =>
      CountAbsent(s, user);
    case Some(i) =>
      CountPositive(s, user, i);
  }

  /** Records of other users keep their place and content. */
  lemma SaveOthersUnchanged(s: seq<TokenRecord>, user: string, token: string)
    ensures |s| <= |Save(s, user, token)|
    ensures forall i :: 0 <= i < |s| && s[i].user != user ==> Save(s, user, token)[i] == s[i]
    ensures forall i :: |s| <= i < |Save(s, user, token)| ==> Save(s, user, token)[i].user == user
  {
  }

  /** A user with at most one record before the save has exactly one after it, and it carries the new token. */
  lemma SaveLeavesOneRecord(s: seq<TokenRecord>, user: string, token: string)
    requires CountUser(s, user) <= 1
    ensures CountUser(Save(s, user, token), user) == 1
    ensures forall i :: 0 <= i < |Save(s, user, token)| && Save(s, user, token)[i].user == user ==>
              Save(s, user, token)[i].refreshToken == token
  {
    var after := Save(s, user, token);
    match FirstIndex(s, (t: TokenRecord) => t.user == user)
    case None =>
      CountAbsent(s, user);
      CountAppend(s, TokenRecord(user, token), user);
    case Some(i) =>
      CountUpdate(s, i, s[i].(refreshToken := token), user);
      CountPositive(s, user, i);
      forall j | 0 <= j < |after| && after[j].user == user
        ensures after[j].refreshToken == token
      {
        if j != i {
          assert s[j].user == user;
          OnlyOne(s, user, i, j);
        }
      }
  }

  lemma {:induction false} CountAbsent(s: seq<TokenRecord>, user: string)
    requires forall i :: 0 <= i < |s| ==> s[i].user != user
    ensures CountUser(s, user) == 0
    decreases |s|
  {
    if s != [] {
      CountAbsent(s[1..], user);
    }
  }

  lemma {:induction false} CountPositive(s: seq<TokenRecord>, user: string, j: nat)
    requires j < |s| && s[j].user == user
    ensures CountUser(s, user) >= 1
    decreases |s|
  {
    if j > 0 {
      CountPositive(s[1..], user, j - 1);
    }
  }

  lemma {:induction false} CountAppend(s: seq<TokenRecord>, v: TokenRecord, user: string)
    ensures CountUser(s + [v], user) == CountUser(s, user) + (if v.user == user then 1 else 0)
    decreases |s|
  {
    if s != [] {
      assert (s + [v])[1..] == s[1..] + [v];
      CountAppend(s[1..], v, user);
    } else {
      assert (s + [v])[1..] == [];
    }
  }

  lemma {:induction false} CountUpdate(s: seq<TokenRecord>, i: nat, v: TokenRecord, user: string)
    requires i < |s| && v.user == s[i].user
    ensures CountUser(s[i := v], user) == CountUser(s, user)
    decreases |s|
  {
    if i > 0 {
      assert s[i := v][1..] == s[1..][i - 1 := v];
      CountUpdate(s[1..], i - 1, v, user);
    } else {
      assert s[i := v][1..] == s[1..];
    }
  }

  /** With at most one record for a user, any two of its records are the same one. */
  lemma {:induction false} OnlyOne(s: seq<TokenRecord>, user: string, i: nat, j: nat)
    requires CountUser(s, user) <= 1
    requires i < |s| && j < |s| && s[i].user == user && s[j].user == user
    ensures i == j
    decreases |s|
  {
    if i == 0 && j > 0 {
      CountPositive(s[1..], user, j - 1);
      assert false;
    } else if j == 0 && i > 0 {
      CountPositive(s[1..], user, i - 1);
      assert false;
    } else if i > 0 && j > 0 {
      OnlyOne(s[1..], user, i - 1, j - 1);
    }
  }

  // ---------------------------------------------------------------- removeToken and findToken

  /** The table after `deleteOne({refreshToken})`: the first record carrying that token is gone. */
  function Remove(s: seq<TokenRecord>, token: string): (r: seq<TokenRecord>)
    ensures |r| == |s| || |r| == |s| - 1
  {
    match FirstIndex(s, (t: TokenRecord) => t.refreshToken == token)
    case None => s
    case Some(i) => s[..i] + s[i + 1..]
  }

  /** Records carrying some other token than `token`. */
  function OtherToken(token: string): TokenRecord -> bool {
    (t: TokenRecord) => t.refreshToken != token
  }

  /** One record goes exactly when some record carries the token. */
  lemma RemoveSize(s: seq<TokenRecord>, token: string)
    ensures |Remove(s, token)| == |s| - 1 <==> exists i :: 0 <= i < |s| && s[i].refreshToken == token
  {
  }

  /** Only a record carrying the token goes: the records with other tokens stay, in order. */
  lemma RemoveKeepsOthers(s: seq<TokenRecord>, token: string)
    ensures Filter(Remove(s, token), OtherToken(token)) == Filter(s, OtherToken(token))
  {
    match FirstIndex(s, (t: TokenRecord) => t.refreshToken == token)
    case None =>
    case Some(i) =>
      assert s == s[..i] + [s[i]] + s[i + 1..];
      FilterSkips(s[..i], s[i], s[i + 1..], OtherToken(token));
  }

  /** Filtering out one element leaves the same as removing it first. */
  lemma FilterSkips(front: seq<TokenRecord>, x: TokenRecord, back: seq<TokenRecord>, keep: TokenRecord -> bool)
    requires !keep(x)
    ensures Filter(front + [x] + back, keep) == Filter(front + back, keep)
  {
    FilterConcat(front + [x], back, keep);
    FilterConcat(front, [x], keep);
    FilterConcat(front, back, keep);
    assert Filter([x], keep) == [];
  }

  /** `findOne({refreshToken})`: the first record carrying the token, or null. */
  function Find(s: seq<TokenRecord>, token: string): (r: Option<TokenRecord>)
    ensures r.Some? ==> r.value in s && r.value.refreshToken == token
    ensures r.None? <==> forall i :: 0 <= i < |s| ==> s[i].refreshToken != token
  {
    match FirstIndex(s, (t: TokenRecord) => t.refreshToken == token)
    case None => None
    case Some(i) => Some(s[i])
  }

  /** A token just saved is found, and belongs to the user it was saved for when no other user holds it. */
  lemma SavedTokenFound(s: seq<TokenRecord>, user: string, token: string)
    requires forall i :: 0 <= i < |s| ==> s[i].refreshToken != token
    ensures Find(Save(s, user, token), token) == Some(TokenRecord(user, token))
  {
    var after := Save(s, user, token);
    match FirstIndex(s, (t: TokenRecord) => t.user == user)
    case None =>
      assert after[|s|] == TokenRecord(user, token);
    case Some(i) =>
      assert after[i] == TokenRecord(user, token);
  }

  // ---------------------------------------------------------------- validation

  /** The environment variable a verification reads its secret from. */
  datatype Secret = AccessSecret | RefreshSecret

  /**
   * `validateAccessToken` / `validateRefreshToken`: the verified payload, or
   * null when verification throws.
   */
  function Validate(token: string, secret: Secret, verify: (string, Secret) -> Result<Json, string>): (r: Json)
    ensures verify(token, secret).Err? ==> r == Null
    ensures verify(token, secret).Ok? ==> r == verify(token, secret).value
  {
    match verify(token, secret)
    case Ok(payload) => payload
    case Err(_) => Null
  }

  // ---------------------------------------------------------------- the service

  class TokenTable {
    var records: seq<TokenRecord>

    constructor ()
      ensures records == []
    {
      records := [];
    }

    /** saveToken: overwrite the user's first record's token, or create one; the saved record comes back. */
    method SaveToken(user: string, token: string) returns (saved: TokenRecord)
      modifies this
      ensures records == Save(old(records), user, token)
      ensures saved == TokenRecord(user, token) && saved in records
    {
      match FirstIndex(records, (t: TokenRecord) => t.user == user)
      case Some(i) =>
        records := records[i := records[i].(refreshToken := token)];
        saved := records[i];
      case None =>
        saved := TokenRecord(user, token);
        records := records + [saved];
    }

    /** removeToken: delete the first record with that token, reporting how many went. */
    method RemoveToken(token: string) returns (deletedCount: nat)
      modifies this
      ensures records == Remove(old(records), token)
      ensures deletedCount == |old(records)| - |records| && deletedCount <= 1
    {
      var before := records;
      records := Remove(records, token);
      deletedCount := |before| - |records|;
    }
  }
}
