/** Token authentication for the JSON API: reading `Authorization: Token <id>`,
    resolving the id to an active user, and the two view decorators built on
    it. */
module AccountUtils {
  import opened Common
  import opened Strings
  import opened AccountModels

  const TokenPrefix := "Token "

  /** A header that starts with "Token " splits after its first word. */
  lemma HeaderSplits(header: string)
    requires StartsWith(header, TokenPrefix)
    ensures Split(header, ' ') == ["Token"] + Split(header[|TokenPrefix|..], ' ')
  {
    var word := "Token";
    forall i | 0 <= i < |word| ensures word[i] != ' ' {
    }
    assert header == word + [' '] + header[|TokenPrefix|..];
    SplitAtSeparator(word, ' ', header[|TokenPrefix|..]);
  }

  /** The id text of an `Authorization` header: the second field of
      `split(' ')`, stripped; None for another scheme or an empty field. */
  function HeaderToken(header: string): (r: Option<string>)
    ensures !StartsWith(header, TokenPrefix) ==> r.None?
    ensures r.Some? ==> r.value != [] && IsTrimmed(r.value) && ' ' !in r.value
  {
    if !StartsWith(header, TokenPrefix) then None
    else
      HeaderSplits(header);
      var field := Split(header, ' ')[1];
      var token := Strip(field);
      StripAbsent(field, ' ');
      if token == "" then None else Some(token)
  }

  /** The id is the word right after "Token ": what follows the next space
      is ignored. */
  lemma HeaderTokenFirstWord(word: string, rest: string)
    requires ' ' !in word
    ensures HeaderToken(TokenPrefix + word + " " + rest) == (if Strip(word) == "" then None else Some(Strip(word)))
  {
    var header := TokenPrefix + word + " " + rest;
    assert header[..|TokenPrefix|] == TokenPrefix;
    assert header[|TokenPrefix|..] == word + [' '] + rest;
    HeaderSplits(header);
    SplitAtSeparator(word, ' ', rest);
  }

  /** "Token " alone and "Token " followed by a second space give no id. */
  lemma EmptyFieldGivesNone(rest: string)
    ensures HeaderToken(TokenPrefix) == None
    ensures HeaderToken(TokenPrefix + " " + rest) == None
  {
    var header := TokenPrefix;
    assert header[..|TokenPrefix|] == TokenPrefix;
    HeaderSplits(header);
    assert header[|TokenPrefix|..] == [];
    HeaderTokenFirstWord("", rest);
    assert TokenPrefix + "" + " " + rest == TokenPrefix + " " + rest;
  }

  /** An id without whitespace survives the header round trip. */
  lemma HeaderRoundTrip(id: string)
    requires id != [] && forall i :: 0 <= i < |id| ==> !IsSpace(id[i])
    ensures HeaderToken(TokenPrefix + id) == Some(id)
  {
    var header := TokenPrefix + id;
    assert header[..|TokenPrefix|] == TokenPrefix;
    assert header[|TokenPrefix|..] == id;
    HeaderSplits(header);
    assert ' ' !in id by {
      forall i | 0 <= i < |id| ensures id[i] != ' ' {
        assert !IsSpace(id[i]);
      }
    }
    SplitNoSeparator(id, ' ');
    StripTrimmed(id);
  }

  /** `authenticate_via_id_token`: the header's id resolved to a stored,
      active user. `parse` is the primary-key lookup's reading of the text
      (None for a text that is not an id). */
  function Authenticate(header: string, parse: string -> Option<UserKey>, users: map<UserKey, User>): (r: Option<UserKey>)
    ensures r.Some? <==>
      && HeaderToken(header).Some?
      && parse(HeaderToken(header).value).Some?
      && parse(HeaderToken(header).value).value in users
      && users[parse(HeaderToken(header).value).value].isActive
    ensures r.Some? ==> r == parse(HeaderToken(header).value)
  {
    var token := HeaderToken(header);
    if token.None? then None
    else
      var id := parse(token.value);
      if id.None? || id.value !in users then None
      else if users[id.value].isActive then id
      else None
  }

  /** The request a decorated view receives. */
  class Request {
    var user: Option<UserKey>

    constructor ()
      ensures user.None?
    {
      user := None;
    }
  }

  /** The decorators' refusals; `None` lets the view run. */
  datatype Refusal = Unauthorized401 | Forbidden403

  /** `api_login_required`: 401 without an authenticated user; otherwise
      `request.user` is set and the view runs. */
  method ApiLoginRequired(request: Request, header: string, parse: string -> Option<UserKey>,
                          users: map<UserKey, User>) returns (refusal: Option<Refusal>)
    modifies request
    ensures refusal.None? <==> Authenticate(header, parse, users).Some?
    ensures refusal.Some? ==> refusal.value == Unauthorized401 && request.user == old(request.user)
    ensures refusal.None? ==> request.user == Authenticate(header, parse, users)
  {
    var user := Authenticate(header, parse, users);
    if user.None? {
      return Some(Unauthorized401);
    }
    request.user := user;
    return None;
  }

  /** `require_user_type(t)`: 403 unless the user's type is `t`. */
  function RequireUserType(user: User, t: UserType): (refusal: Option<Refusal>)
    ensures refusal.None? <==> user.userType == Some(t)
    ensures refusal.Some? ==> refusal.value == Forbidden403
  {
    if user.userType != Some(t) then Some(Forbidden403) else None
  }
}
