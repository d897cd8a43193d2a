/** The session of resources/js/context/AuthContext.jsx: the token, the user,
    the `token` slot of localStorage, and the Authorization header every
    request carries. Server replies are inputs. */
module AuthContext {
  import opened Common

  datatype User = User(id: Id, name: string, email: string)

  /** The reply to `POST /login` or `POST /register`. */
  datatype AuthReply = Authenticated(accessToken: string, user: User) | Refused

  /** `if (token)`: a token is present when it is a non-empty string. */
  predicate HasToken(token: Option<string>)
  {
    token.Some? && token.value != ""
  }

  const BearerPrefix := "Bearer "

  /** `api.defaults.headers.common['Authorization']` for the current token. */
  function AuthorizationHeader(token: Option<string>): (header: Option<string>)
    ensures header.Some? <==> HasToken(token)
    ensures header.Some? ==>
      && |header.value| > |BearerPrefix|
      && header.value[..|BearerPrefix|] == BearerPrefix
      && header.value[|BearerPrefix|..] == token.value
  {
    if HasToken(token) then Some(BearerPrefix + token.value) else None
  }

  /** Two different tokens never give the same header. */
  lemma HeaderDeterminesToken(t1: Option<string>, t2: Option<string>)
    requires HasToken(t1) && HasToken(t2)
    requires AuthorizationHeader(t1) == AuthorizationHeader(t2)
    ensures t1 == t2
  {
    assert AuthorizationHeader(t1).value[|BearerPrefix|..] == t1.value;
    assert AuthorizationHeader(t2).value[|BearerPrefix|..] == t2.value;
  }

  class Session {
    var token: Option<string>
    var user: Option<User>
    var storage: Option<string>   // localStorage 'token'

    /** The token in memory is always the stored one, and a user is known only
        while there is a token. */
    ghost predicate Valid()
      reads this
    {
      token == storage && (user.Some? ==> token.Some?)
    }

    /** `AuthProvider`'s initial state: the stored token, no user yet. */
    constructor (stored: Option<string>)
      ensures Valid() && token == stored && storage == stored && user == None
    {
      storage := stored;
      token := stored;
      user := None;
    }

    /** `login`: on success the access token is stored and held and the user
        set; a refused login throws before any state changes. */
    method Login(reply: AuthReply) returns (loggedIn: Option<User>)
      requires Valid()
      modifies this
      ensures Valid()
      ensures reply.Authenticated? ==>
        storage == Some(reply.accessToken) && token == Some(reply.accessToken)
        && user == Some(reply.user) && loggedIn == Some(reply.user)
      ensures reply.Refused? ==>
        loggedIn == None && token == old(token) && user == old(user) && storage == old(storage)
    {
      if reply.Refused? {
        return None;
      }
      storage := Some(reply.accessToken);
      token := Some(reply.accessToken);
      user := Some(reply.user);
      loggedIn := Some(reply.user);
    }

    /** `register`: the same effect as `login`. */
    method Register(reply: AuthReply) returns (registered: Option<User>)
      requires Valid()
      modifies this
      ensures Valid()
      ensures reply.Authenticated? ==>
        storage == Some(reply.accessToken) && token == Some(reply.accessToken)
        && user == Some(reply.user) && registered == Some(reply.user)
      ensures reply.Refused? ==>
        registered == None && token == old(token) && user == old(user) && storage == old(storage)
    {
      if reply.Refused? {
        return None;
      }
      storage := Some(reply.accessToken);
      token := Some(reply.accessToken);
      user := Some(reply.user);
      registered := Some(reply.user);
    }

    /** `logout`: `POST /logout` with the current header; whatever the server
        answers (its reply is not an input), the stored token, the token and the user are cleared. */
    method Logout() returns (sentHeader: Option<string>)
      modifies this
      ensures Valid()
      ensures sentHeader == AuthorizationHeader(old(token))
      ensures storage == None && token == None && user == None
    {
      sentHeader := AuthorizationHeader(token);   // a failure of this request is only logged
      storage := None;
      token := None;
      user := None;
    }

    /** The effect on `[token]`: with a token, `GET /user`; its user on
        success, everything cleared on failure. Without a token nothing is
        requested. */
    method Verify(reply: Option<User>) returns (requested: bool)
      requires Valid()
      modifies this
      ensures Valid()
      ensures requested <==> HasToken(old(token))
      ensures !requested ==> token == old(token) && user == old(user) && storage == old(storage)
      ensures requested && reply.Some? ==> user == reply && token == old(token) && storage == old(storage)
      ensures requested && reply.None? ==> storage == None && token == None && user == None
    {
      requested := HasToken(token);
      if !requested {
        return;
      }
      if reply.Some? {
        user := reply;
      } else {
        storage := None;
        token := None;
        user := None;
      }
    }
  }
}
