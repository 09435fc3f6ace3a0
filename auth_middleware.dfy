/**
 * The auth service's `authMiddleware`: take the token out of the
 * Authorization header, have it verified, and either attach the payload to
 * the request and pass it on, or pass on an unauthorized error. Each call of
 * `next` is recorded, with the error it carried if any.
 */
module AuthMiddleware {
  import opened Wrappers
  import opened Json
  import opened AuthErrors
  import opened Seqs
  import TokenService

  // ---------------------------------------------------------------- splitting the header

  /** The first index of `c` in `s`. */
  function FirstOf(s: string, c: char): (r: Option<nat>)
    ensures r.Some? ==> r.value < |s| && s[r.value] == c && forall k :: 0 <= k < r.value ==> s[k] != c
    ensures r.None? ==> forall k :: 0 <= k < |s| ==> s[k] != c
  {
    FirstIndex(s, (x: char) => x == c)
  }

  /** `s.split(c)` for a one-character separator: the pieces between separators, empty pieces included. */
  function SplitOn(s: string, c: char): (r: seq<string>)
    ensures |r| >= 1
    ensures forall p :: p in r ==> c !in p
    decreases |s|
  {
    match FirstOf(s, c)
    case None => [s]
    case Some(i) => [s[..i]] + SplitOn(s[i + 1..], c)
  }

  /** Splitting loses nothing: joining the pieces with the separator gives the header back. */
  lemma {:induction false} SplitJoin(s: string, c: char)
    ensures Join(SplitOn(s, c), [c]) == s
    decreases |s|
  {
    match FirstOf(s, c)
    case None =>
    case Some(i) =>
      SplitJoin(s[i + 1..], c);
      var rest := SplitOn(s[i + 1..], c);
      assert SplitOn(s, c)[1..] == rest;
      assert s == s[..i] + [c] + s[i + 1..];
  }

  /** A word without the separator, then the separator, splits into that word and the pieces of the rest. */
  lemma SplitAfterWord(w: string, rest: string, c: char)
    requires c !in w
    ensures SplitOn(w + [c] + rest, c) == [w] + SplitOn(rest, c)
  {
    var s := w + [c] + rest;
    assert s[|w|] == c;
    assert forall k :: 0 <= k < |w| ==> s[k] == w[k];
    assert FirstOf(s, c) == Some(|w|);
    assert s[..|w|] == w && s[|w| + 1..] == rest;
  }

  /** `authToken.split(' ')[1]`: the second piece, or nothing when there is no space. */
  function TokenOf(header: string): (r: Option<string>)
    ensures r.Some? ==> ' ' !in r.value
  {
    var parts := SplitOn(header, ' ');
    if |parts| >= 2 then Some(parts[1]) else None
  }

  /**
   * The token is the text after the first space up to the next space or the
   * end, and there is none when the header has no space.
   */
  lemma TokenBetweenSpaces(header: string)
    ensures FirstOf(header, ' ').None? <==> TokenOf(header).None?
    ensures FirstOf(header, ' ').Some? ==>
              var i := FirstOf(header, ' ').value;
              var rest := header[i + 1..];
              TokenOf(header) == Some(if FirstOf(rest, ' ').Some? then rest[..FirstOf(rest, ' ').value] else rest)
  {
    match FirstOf(header, ' ')
    case None =>
    case Some(i) =>
      var rest := header[i + 1..];
      assert SplitOn(header, ' ') == [header[..i]] + SplitOn(rest, ' ');
      assert SplitOn(rest, ' ')[0] == if FirstOf(rest, ' ').Some? then rest[..FirstOf(rest, ' ').value] else rest;
  }

  // ---------------------------------------------------------------- the decision

  /**
   * What the middleware decides for a header (`None` when it is missing): the
   * payload to attach, or the unauthorized error. `verify` stands for the JWT
   * library's verification with the access-token secret.
   */
  function Authenticate(header: Option<string>, verify: (string, TokenService.Secret) -> Result<Json, string>): (r: Result<Json, AuthApiError>)
    ensures r.Err? ==> r.error == UnauthorizedError()
    ensures r.Ok? ==> !Falsy(r.value)
    ensures r.Ok? <==> header.Some? && TokenOf(header.value).Some? && TokenOf(header.value).value != ""
                       && !Falsy(TokenService.Validate(TokenOf(header.value).value, TokenService.AccessSecret, verify))
    ensures r.Ok? ==> r.value == verify(TokenOf(header.value).value, TokenService.AccessSecret).value
  {
    if header.None? || header.value == "" then Err(UnauthorizedError())
    else
      var token := TokenOf(header.value);
      if token.None? || token.value == "" then Err(UnauthorizedError())
      else
        var payload := TokenService.Validate(token.value, TokenService.AccessSecret, verify);
        if Falsy(payload) then Err(UnauthorizedError()) else Ok(payload)
  }

  /** The scheme word is never looked at: any word without a space in front of the token gives the same outcome as `Bearer`. */
  lemma SchemeNotChecked(scheme: string, token: string, verify: (string, TokenService.Secret) -> Result<Json, string>)
    requires ' ' !in scheme
    ensures Authenticate(Some(scheme + " " + token), verify) == Authenticate(Some("Bearer " + token), verify)
  {
    SplitAfterWord(scheme, token, ' ');
    SplitAfterWord("Bearer", token, ' ');
    assert scheme + " " + token == scheme + [' '] + token;
    assert "Bearer " + token == "Bearer" + [' '] + token;
  }

  /** Two spaces after the scheme leave an empty token, which is refused before any verification. */
  lemma DoubleSpaceRefused(scheme: string, rest: string, verify: (string, TokenService.Secret) -> Result<Json, string>)
    requires ' ' !in scheme
    ensures Authenticate(Some(scheme + "  " + rest), verify) == Err(UnauthorizedError())
  {
    SplitAfterWord(scheme, " " + rest, ' ');
    assert scheme + "  " + rest == scheme + [' '] + (" " + rest);
    SplitAfterWord("", rest, ' ');
    assert "" + [' '] + rest == " " + rest;
  }

  /** A header with no space carries no token. */
  lemma NoSpaceRefused(header: string, verify: (string, TokenService.Secret) -> Result<Json, string>)
    requires ' ' !in header
    ensures Authenticate(Some(header), verify) == Err(UnauthorizedError())
  {
    assert FirstOf(header, ' ').None?;
  }

  // ---------------------------------------------------------------- the middleware

  /** The parts of one request/response exchange the middleware touches. */
  class Exchange {
    /** `req.user`. */
    var user: Option<Json>
    /** Each call of `next`, with the error passed to it if any. */
    var nextCalls: seq<Option<AuthApiError>>

    constructor ()
      ensures user.None? && nextCalls == []
    {
      user := None;
      nextCalls := [];
    }

    /**
     * authMiddleware: `next` is called exactly once, with no error exactly when
     * the header authenticates; only then is `req.user` set, to the payload.
     */
    method Run(header: Option<string>, verify: (string, TokenService.Secret) -> Result<Json, string>)
      modifies this
      ensures |nextCalls| == |old(nextCalls)| + 1 && nextCalls[..|old(nextCalls)|] == old(nextCalls)
      ensures var outcome := Authenticate(header, verify);
              && (outcome.Ok? ==> nextCalls[|old(nextCalls)|].None? && user == Some(outcome.value))
              && (outcome.Err? ==> nextCalls[|old(nextCalls)|] == Some(outcome.error) && user == old(user))
    {
      if header.None? || header.value == "" {
        nextCalls := nextCalls + [Some(UnauthorizedError())];
        return;
      }
      var token := TokenOf(header.value);
      if token.None? || token.value == "" {
        nextCalls := nextCalls + [Some(UnauthorizedError())];
        return;
      }
      var payload := TokenService.Validate(token.value, TokenService.AccessSecret, verify);
      if Falsy(payload) {
        nextCalls := nextCalls + [Some(UnauthorizedError())];
        return;
      }
      user := Some(payload);
      nextCalls := nextCalls + [None];
    }
  }
}
