/** `formatError` of the CLI: the red heading and the explanation shown for
    whatever a command threw. */
module ErrorFormat {
  import opened Wrappers
  import opened Text
  import opened GitHubErrors
  import opened Table

  /** The branch of `formatError` a thrown value takes. */
  datatype Kind =
    | Authentication
    | RateLimited
    | NotFound
    | AccessDenied
    | Unauthorized
    | ApiFailure
    | Generic
    | Unknown

  /** The `instanceof` chain: `AuthError`, then `RateLimitError`, then any
      `GitHubError` by status, then any `Error`, then anything else. Each
      kind is characterised by the shape of the thrown value alone, so
      exactly one branch applies; a rate-limit error, although its status
      is 403, is never reported as access denied. */
  function Classify(t: Thrown): (k: Kind)
    ensures k == Authentication <==> t.Err? && t.error.AuthError?
    ensures k == RateLimited <==> t.Err? && t.error.RateLimitError?
    ensures k == NotFound <==> t.Err? && t.error.GitHubError? && t.error.status == 404
    ensures k == AccessDenied <==> t.Err? && t.error.GitHubError? && t.error.status == 403
    ensures k == Unauthorized <==> t.Err? && t.error.GitHubError? && t.error.status == 401
    ensures k == ApiFailure <==> t.Err? && t.error.GitHubError? && t.error.status !in {401, 403, 404}
    ensures k == Generic <==> t.Err? && t.error.PlainError?
    ensures k == Unknown <==> t.NonError?
  {
    match t
    case NonError(_) => Unknown
    case Err(e) =>
      if e.AuthError? then Authentication
      else if e.RateLimitError? then RateLimited
      else if e.IsGitHubError() then
        if e.Status() == 404 then NotFound
        else if e.Status() == 403 then AccessDenied
        else if e.Status() == 401 then Unauthorized
        else ApiFailure
      else Generic
  }

  /** Reads a heading back to the branch that printed it. */
  function KindOfHeading(h: string): Option<Kind> {
    if h == "Authentication Error" then Some(Authentication)
    else if h == "Rate Limit Exceeded" then Some(RateLimited)
    else if h == "Not Found" then Some(NotFound)
    else if h == "Access Denied" then Some(AccessDenied)
    else if h == "Unauthorized" then Some(Unauthorized)
    else if h == "GitHub API Error" then Some(ApiFailure)
    else if h == "Error" then Some(Generic)
    else if h == "Unknown Error" then Some(Unknown)
    else None
  }

  /** The heading printed in red. Headings are single plain lines and no
      two branches share one. */
  function Heading(k: Kind): (h: string)
    ensures '\n' !in h && Esc !in h
    ensures KindOfHeading(h) == Some(k)
  {
    match k
    case Authentication => "Authentication Error"
    case RateLimited => "Rate Limit Exceeded"
    case NotFound => "Not Found"
    case AccessDenied => "Access Denied"
    case Unauthorized => "Unauthorized"
    case ApiFailure => "GitHub API Error"
    case Generic => "Error"
    case Unknown => "Unknown Error"
  }

  const NotFoundText := "The requested resource was not found. Check that the organization name is correct and you have access to it."
  const AccessDeniedText := "You don't have permission to access this resource. Some features require admin access."
  const UnauthorizedText := "Your authentication token is invalid or expired. Try re-authenticating."
  const RateLimitText := "GitHub API rate limit reached. Resets at "

  /** `resetAt.toLocaleTimeString()`: the locale rendering of a valid
      instant is supplied by the caller; an invalid date renders as
      "Invalid Date". */
  function ResetTime(resetAt: Option<int>, localTime: int -> string): string {
    match resetAt
    case Some(ms) => localTime(ms)
    case None => "Invalid Date"
  }

  /** The text below the heading: a GitHub error with status 404, 403 or
      401 shows the fixed text for that status; an authentication error, a
      GitHub error without a dedicated text and a plain error show their
      own message;
      a rate-limit error shows the reset time in yellow; any other thrown
      value shows its string form. */
  function Detail(t: Thrown, colors: bool, localTime: int -> string): (d: string)
    ensures t.Err? && (t.error.AuthError? || t.error.PlainError?) ==> d == t.error.Message()
    ensures t.Err? && t.error.GitHubError? && t.error.status !in {401, 403, 404} ==> d == t.error.Message()
    ensures t.Err? && t.error.RateLimitError? ==>
      d == RateLimitText + Paint(Yellow, ResetTime(t.error.resetAt, localTime), colors)
    ensures t.NonError? ==> d == t.text
    ensures t.Err? && t.error.GitHubError? && t.error.status == 404 ==> d == NotFoundText
    ensures t.Err? && t.error.GitHubError? && t.error.status == 403 ==> d == AccessDeniedText
    ensures t.Err? && t.error.GitHubError? && t.error.status == 401 ==> d == UnauthorizedText
  {
    match Classify(t)
    case Authentication => t.error.Message()
    case RateLimited => RateLimitText + Paint(Yellow, ResetTime(t.error.resetAt, localTime), colors)
    case NotFound => NotFoundText
    case AccessDenied => AccessDeniedText
    case Unauthorized => UnauthorizedText
    case ApiFailure => t.error.Message()
    case Generic => t.error.Message()
    case Unknown => t.text
  }

  /** `formatError(error)`: the red heading, a blank line, the detail. */
  function FormatError(t: Thrown, colors: bool, localTime: int -> string): string {
    Paint(Red, Heading(Classify(t)), colors) + "\n\n" + Detail(t, colors, localTime)
  }

  /** A plain text painted red, followed by a blank line and any text,
      shows as that text, the blank line and the visible rest. */
  lemma RedHeadlineVisible(h: string, d: string, colors: bool)
    requires Esc !in h
    ensures StripAnsi(Paint(Red, h, colors) + "\n\n" + d) == h + "\n\n" + StripAnsi(d)
  {
    StripAnsiJoinedPair(Paint(Red, h, colors), "\n\n", d);
    StripAnsiUndoesPaint(Red, h, colors);
    StripAnsiPlain(h);
  }

  /** The first line of a text that starts with a single line and a blank
      line is that line. */
  lemma FirstLine(h: string, rest: string)
    requires '\n' !in h
    ensures Split(h + "\n\n" + rest, "\n")[0] == h
  {
    assert h + "\n\n" + rest == h + "\n" + ("\n" + rest);
    SplitAtFirst(h, "\n", "\n" + rest);
  }

  /** With the colour codes stripped, the output is the heading, a blank
      line and the visible detail, so its first line reads back to the
      branch that produced it. */
  lemma FormatErrorHeadline(t: Thrown, colors: bool, localTime: int -> string)
    ensures var visible := StripAnsi(FormatError(t, colors, localTime));
      && visible == Heading(Classify(t)) + "\n\n" + StripAnsi(Detail(t, colors, localTime))
      && KindOfHeading(Split(visible, "\n")[0]) == Some(Classify(t))
  {
    var d := Detail(t, colors, localTime);
    RedHeadlineVisible(Heading(Classify(t)), d, colors);
    FirstLine(Heading(Classify(t)), StripAnsi(d));
  }
}
