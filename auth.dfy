/** Where the GitHub token comes from (`detectAuth`, `getGhCliToken`,
    `getToken`) and what `getAuthStatus` reports. The environment is a map
    from variable names to values; running `gh auth token` and requesting
    `/user` are outcomes supplied by the caller. */
module Auth {
  import opened Wrappers
  import opened Text
  import opened GitHubErrors

  /** `'gh-cli' | 'token' | 'none'`. */
  datatype AuthMethod = GhCli | EnvToken | NoAuth

  datatype AuthResult = AuthResult(authMethod: AuthMethod, token: Option<string>)

  /** What `execCommand('gh', ['auth', 'token'])` settled with: the trimmed
      standard output of a zero exit, or a rejection. */
  type CommandOutcome = Result<string, string>

  /** `process.env[name]`. */
  function EnvVar(env: map<string, string>, name: string): Option<string> {
    if name in env then Some(env[name]) else None
  }

  /** A present, non-empty string: JavaScript's truthiness on
      `string | undefined | null`. */
  predicate Truthy(v: Option<string>) {
    v.Some? && v.value != ""
  }

  /** `a || b` on optional strings. */
  function Or(a: Option<string>, b: Option<string>): Option<string> {
    if Truthy(a) then a else b
  }

  /** The first truthy candidate: the priority order of token sources,
      stated independently of `detectAuth`'s branches. */
  function FirstTruthy(candidates: seq<Option<string>>): (r: Option<string>)
    ensures r.Some? ==> r.value != "" && r in candidates
    ensures r.None? <==> forall i :: 0 <= i < |candidates| ==> !Truthy(candidates[i])
  {
    if candidates == [] then None
    else if Truthy(candidates[0]) then candidates[0]
    else FirstTruthy(candidates[1..])
  }

  /** `getGhCliToken`: empty output and a failed command both give no
      token. */
  function GhCliToken(run: CommandOutcome): (r: Option<string>)
    ensures r.Some? ==> run.Success? && r.value == run.value
    ensures r.None? <==> run.Failure? || run.value == ""
  {
    match run
    case Success(out) => if out != "" then Some(out) else None
    case Failure(_) => None
  }

  const GitHubTokenVar := "GITHUB_TOKEN"
  const GhTokenVar := "GH_TOKEN"

  /** `detectAuth`: `GITHUB_TOKEN || GH_TOKEN` first, then the gh CLI, else
      nothing. A method other than `none` always comes with a non-empty
      token, and `none` never with one. */
  function DetectAuth(env: map<string, string>, gh: CommandOutcome): (r: AuthResult)
    ensures r.authMethod == NoAuth <==> r.token.None?
    ensures r.token.Some? ==> r.token.value != ""
  {
    var envToken := Or(EnvVar(env, GitHubTokenVar), EnvVar(env, GhTokenVar));
    if Truthy(envToken) then AuthResult(EnvToken, envToken)
    else
      var ghToken := GhCliToken(gh);
      if ghToken.Some? then AuthResult(GhCli, ghToken)
      else AuthResult(NoAuth, None)
  }

  /** The token found is the first non-empty one of `GITHUB_TOKEN`,
      `GH_TOKEN` and the gh CLI's output; the method says which kind of
      source supplied it, and the gh CLI is only consulted when neither
      variable is set to something non-empty. */
  lemma DetectAuthPriority(env: map<string, string>, gh: CommandOutcome)
    ensures var r := DetectAuth(env, gh);
      var g := EnvVar(env, GitHubTokenVar);
      var h := EnvVar(env, GhTokenVar);
      && r.token == FirstTruthy([g, h, GhCliToken(gh)])
      && (r.authMethod == EnvToken <==> Truthy(g) || Truthy(h))
      && (r.authMethod == GhCli <==> !Truthy(g) && !Truthy(h) && GhCliToken(gh).Some?)
      && (Truthy(g) || Truthy(h) ==> forall other :: DetectAuth(env, other) == r)
  {
    var g := EnvVar(env, GitHubTokenVar);
    var h := EnvVar(env, GhTokenVar);
    var c := GhCliToken(gh);
    var cands := [g, h, c];
    assert cands[1..] == [h, c] && [h, c][1..] == [c] && [c][1..] == [];
    assert FirstTruthy(cands) == if Truthy(g) then g else FirstTruthy([h, c]);
    assert FirstTruthy([h, c]) == if Truthy(h) then h else FirstTruthy([c]);
    assert FirstTruthy([c]) == if Truthy(c) then c else FirstTruthy([]);
  }

  const NoAuthMessage := "No GitHub authentication found. Either:\n  1. Set GITHUB_TOKEN environment variable\n  2. Run `gh auth login` to authenticate with GitHub CLI"

  /** `getToken`: the detected token, or an `AuthError` when there is none
      from any of the three sources. */
  function GetToken(env: map<string, string>, gh: CommandOutcome): (r: Result<string, Error>)
    ensures r.Success? <==> Truthy(EnvVar(env, GitHubTokenVar)) || Truthy(EnvVar(env, GhTokenVar)) || Truthy(GhCliToken(gh))
    ensures r.Success? ==> r.value != "" && Some(r.value) == DetectAuth(env, gh).token
    ensures r.Failure? ==> r.error == AuthError(NoAuthMessage)
  {
    var auth := DetectAuth(env, gh);
    if auth.token.None? then Failure(AuthError(NoAuthMessage)) else Success(auth.token.value)
  }

  /** How the `/user` request went: it threw, or it answered with an ok
      flag, a body whose JSON parse either failed or gave the optional
      `login` field, and the optional `x-oauth-scopes` header. */
  datatype UserFetch =
    | FetchThrew
    | Responded(ok: bool, login: Result<Option<string>, string>, scopesHeader: Option<string>)

  datatype AuthStatus = AuthStatus(authMethod: AuthMethod, valid: bool, username: Option<string>, scopes: Option<seq<string>>)

  const ScopeSeparator := ", "

  /** `scopesHeader ? scopesHeader.split(', ').filter(Boolean) : []`. */
  function Scopes(header: Option<string>): (r: seq<string>)
    ensures forall i :: 0 <= i < |r| ==> r[i] != ""
    ensures !Truthy(header) ==> r == []
  {
    if Truthy(header) then NonEmpty(Split(header.value, ScopeSeparator)) else []
  }

  /** `getAuthStatus`: without a token the status is `none` and invalid;
      a failed or thrown request, or a body that does not parse, keeps the
      detected method and is invalid; otherwise it is valid and carries the
      login and the scopes. */
  function GetAuthStatus(env: map<string, string>, gh: CommandOutcome, user: UserFetch): (r: AuthStatus)
    ensures r.authMethod == DetectAuth(env, gh).authMethod
    ensures r.valid <==> DetectAuth(env, gh).token.Some? && user.Responded? && user.ok && user.login.Success?
    ensures r.valid ==> r.username == user.login.value && r.scopes == Some(Scopes(user.scopesHeader))
    ensures !r.valid ==> r.username.None? && r.scopes.None?
  {
    var auth := DetectAuth(env, gh);
    if auth.token.None? then AuthStatus(NoAuth, false, None, None)
    else match user
      case FetchThrew => AuthStatus(auth.authMethod, false, None, None)
      case Responded(ok, login, header) =>
        if !ok then AuthStatus(auth.authMethod, false, None, None)
        else if login.Failure? then AuthStatus(auth.authMethod, false, None, None)
        else AuthStatus(auth.authMethod, true, login.value, Some(Scopes(header)))
  }

  lemma {:induction false} NonEmptyKeepsNonEmpty(pieces: seq<string>)
    requires forall i :: 0 <= i < |pieces| ==> pieces[i] != ""
    ensures NonEmpty(pieces) == pieces
    decreases |pieces|
  {
    if pieces != [] {
      NonEmptyKeepsNonEmpty(pieces[1..]);
      assert pieces == [pieces[0]] + pieces[1..];
    }
  }

  /** The scopes GitHub lists in the header, joined by ", ", are read back
      exactly, in order; an empty list is an empty header. */
  lemma ScopesReadBack(scopes: seq<string>)
    requires forall i :: 0 <= i < |scopes| ==> scopes[i] != "" && ',' !in scopes[i]
    ensures Scopes(Some(Join(scopes, ScopeSeparator))) == scopes
  {
    if scopes != [] {
      var joined := Join(scopes, ScopeSeparator);
      assert |scopes| > 1 ==> joined == scopes[0] + ScopeSeparator + Join(scopes[1..], ScopeSeparator);
      assert joined != "";
      SplitJoin(scopes, ScopeSeparator);
      NonEmptyKeepsNonEmpty(scopes);
    }
  }
}
