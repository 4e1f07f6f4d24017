/**
 * The sign-in state every page shares (src/contexts/AuthContext.tsx): the
 * bearer token, kept in the browser's session storage under one key so that
 * a reload of the page keeps it.
 *
 * Session storage is a field of the provider: a map from keys to strings.
 */
module AuthContext {
  import opened JsCore
  import opened ApiClient

  const StorageKey := "oss-review-auth-token"

  /** The provider's state: the token, whether the stored one was read, and session storage. */
  datatype AuthState = AuthState(token: Option<string>, initialized: bool, storage: map<string, string>)

  /** A provider as first rendered over some session storage. */
  function Fresh(storage: map<string, string>): AuthState {
    AuthState(None, false, storage)
  }

  /** The mount effect: adopt a non-empty stored token, then mark the provider ready. */
  function Initialized(s: AuthState): AuthState {
    if StorageKey in s.storage && s.storage[StorageKey] != "" then
      s.(token := Some(s.storage[StorageKey]), initialized := true)
    else s.(initialized := true)
  }

  /** `setToken`: ignore a blank token, otherwise store and adopt it trimmed. */
  function WithToken(s: AuthState, newToken: string): AuthState {
    var trimmed := Trim(newToken);
    if trimmed == "" then s
    else s.(token := Some(trimmed), storage := s.storage[StorageKey := trimmed])
  }

  /** `clearToken`: forget the stored token and sign out. */
  function Cleared(s: AuthState): AuthState {
    s.(token := None, storage := s.storage - {StorageKey})
  }

  /** `isAuthenticated`: there is a token. */
  predicate IsAuthenticated(s: AuthState) {
    s.token.Some?
  }

  /** A token, when there is one, is non-empty and is the one in session storage. */
  predicate Consistent(s: AuthState) {
    s.token.Some? ==> s.token.value != "" && StorageKey in s.storage && s.storage[StorageKey] == s.token.value
  }

  /** The children see a context value only once the stored token was read. */
  function Provided(s: AuthState): (token: Option<Option<string>>)
    ensures token.Some? <==> s.initialized
  {
    if s.initialized then Some(s.token) else None
  }

  /** Every operation keeps the token in step with session storage. */
  lemma OperationsStayConsistent(s: AuthState, newToken: string)
    requires Consistent(s)
    ensures Consistent(Initialized(s)) && Consistent(WithToken(s, newToken)) && Consistent(Cleared(s))
    ensures Consistent(Fresh(s.storage))
  {
  }

  /**
   * A non-blank token is adopted trimmed and signs in; a blank one changes
   * nothing; clearing signs out. Setting the same token again changes nothing.
   */
  lemma SetAndClear(s: AuthState, newToken: string)
    ensures Trim(newToken) != "" ==> IsAuthenticated(WithToken(s, newToken)) && WithToken(s, newToken).token == Some(Trim(newToken))
    ensures Trim(newToken) == "" ==> WithToken(s, newToken) == s
    ensures !IsAuthenticated(Cleared(s)) && StorageKey !in Cleared(s).storage
    ensures WithToken(WithToken(s, newToken), newToken) == WithToken(s, newToken)
  {
    SetTokenTwice(s, newToken);
  }

  lemma SetTokenTwice(s: AuthState, newToken: string)
    ensures WithToken(WithToken(s, newToken), newToken) == WithToken(s, newToken)
  {
    var trimmed := Trim(newToken);
    if trimmed != "" {
      var stored := s.storage[StorageKey := trimmed];
      assert stored[StorageKey := trimmed] == stored;
    }
  }

  /**
   * The token survives a reload: a new provider over the session storage the
   * old one left ends up with the same token, and after a sign-out it starts
   * signed out.
   */
  lemma TokenSurvivesReload(s: AuthState, newToken: string)
    requires Consistent(s)
    ensures Initialized(Fresh(WithToken(s, newToken).storage)).token == WithToken(s, newToken).token
            || (Trim(newToken) == "" && s.token.None?)
    ensures Initialized(Fresh(Cleared(s).storage)).token.None?
  {
  }

  /**
   * Signed in means the hooks will send requests: with a consistent state,
   * `token !== null` and the hooks' `!token` test agree.
   */
  lemma AuthenticatedMeansTruthy(s: AuthState)
    requires Consistent(s)
    ensures IsAuthenticated(s) <==> Truthy(s.token)
  {
  }

  class AuthProvider {
    var token: Option<string>
    var initialized: bool
    var storage: map<string, string>

    function State(): AuthState
      reads this
    {
      AuthState(token, initialized, storage)
    }

    /** The first render, over whatever session storage holds. */
    constructor(storage: map<string, string>)
      ensures State() == Fresh(storage)
    {
      token, initialized, this.storage := None, false, storage;
    }

    /** The mount effect. */
    method Initialize()
      modifies this
      ensures State() == Initialized(old(State()))
    {
      if StorageKey in storage {
        var stored := storage[StorageKey];
        if stored != "" {
          token := Some(stored);
        }
      }
      initialized := true;
    }

    method SetToken(newToken: string)
      modifies this
      ensures State() == WithToken(old(State()), newToken)
    {
      var trimmed := Trim(newToken);
      if trimmed == "" {
        return;
      }
      storage := storage[StorageKey := trimmed];
      token := Some(trimmed);
    }

    method ClearToken()
      modifies this
      ensures State() == Cleared(old(State()))
    {
      storage := storage - {StorageKey};
      token := None;
    }
  }
}
