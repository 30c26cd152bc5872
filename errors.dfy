/** The error classes the GitHub layer throws (`GitHubError`,
    `RateLimitError`, `AuthError`, plain `Error`), the message each carries,
    and the mapping from a failed HTTP response to one of them. */
module GitHubErrors {
  import opened Wrappers
  import opened Text

  /** Errors. `RateLimitError` is a subclass of `GitHubError` with status 403;
      `resetAt` is the reset instant in milliseconds, or None for the
      invalid date that an unparsable header produces. */
  datatype Error =
    | GitHubError(status: int, statusText: string, body: string)
    | RateLimitError(resetAt: Option<int>, body: string)
    | AuthError(text: string)
    | PlainError(text: string)
  {
    /** `instanceof GitHubError`, which holds for the subclass too. */
    predicate IsGitHubError() {
      GitHubError? || RateLimitError?
    }

    function Status(): int
      requires IsGitHubError()
    {
      if RateLimitError? then 403 else status
    }

    function StatusText(): string
      requires IsGitHubError()
    {
      if RateLimitError? then RateLimitStatusText else statusText
    }

    /** `error.message`. */
    function Message(): string {
      match this
      case GitHubError(_, _, _) => ApiErrorMessage(status, statusText, body)
      case RateLimitError(_, _) => ApiErrorMessage(403, RateLimitStatusText, body)
      case AuthError(t) => t
      case PlainError(t) => t
    }
  }

  /** A thrown value: an `Error` object, or anything else. */
  datatype Thrown = Err(error: Error) | NonError(text: string)

  const RateLimitStatusText := "Rate Limit Exceeded"
  const ApiErrorPrefix := "GitHub API error: "

  /** The message the `GitHubError` constructor builds; an empty body is
      falsy and adds nothing. */
  function ApiErrorMessage(status: int, statusText: string, body: string): string {
    ApiErrorPrefix + IntToString(status) + " " + statusText + (if body != "" then " - " + body else "")
  }

  /** The status code can be read back from the message, and the body is
      shown at its end exactly when it is non-empty. */
  lemma ApiErrorMessageParts(status: int, statusText: string, body: string)
    ensures var m := ApiErrorMessage(status, statusText, body);
      && |m| > |ApiErrorPrefix|
      && m[..|ApiErrorPrefix|] == ApiErrorPrefix
      && ParseInt(m[|ApiErrorPrefix|..]) == Some(status)
  {
    var rest := " " + statusText + (if body != "" then " - " + body else "");
    var digits := IntToString(status);
    var m := ApiErrorMessage(status, statusText, body);
    assert m == ApiErrorPrefix + (digits + rest);
    assert m[|ApiErrorPrefix|..] == digits + rest;
    assert rest[0] == ' ';
    ParseIntReadsDecimalPrefix(status, rest);
  }

  /** The message of every `GitHubError`, rate-limit ones included, starts
      with the fixed prefix followed by the status, which `parseInt` reads
      back; the body is appended after " - " exactly when it is non-empty. */
  lemma MessageCarriesStatusAndBody(e: Error)
    requires e.IsGitHubError()
    ensures |e.Message()| > |ApiErrorPrefix|
    ensures e.Message()[..|ApiErrorPrefix|] == ApiErrorPrefix
    ensures ParseInt(e.Message()[|ApiErrorPrefix|..]) == Some(e.Status())
    ensures e.body != "" ==> e.Message() == ApiErrorPrefix + IntToString(e.Status()) + " " + e.StatusText() + " - " + e.body
    ensures e.body == "" ==> e.Message() == ApiErrorPrefix + IntToString(e.Status()) + " " + e.StatusText()
  {
    var m := ApiErrorMessage(e.Status(), e.StatusText(), e.body);
    assert e.Message() == m;
    ApiErrorMessageParts(e.Status(), e.StatusText(), e.body);
  }

  /** The reset instant of a `x-ratelimit-reset` header (seconds since the
      epoch) in milliseconds, as `new Date(parseInt(h) * 1000)`. */
  function ResetAtMillis(header: string): Option<int> {
    match ParseInt(header)
    case Some(seconds) => Some(seconds * 1000)
    case None => None
  }

  /** The error a non-ok response is turned into: a 403 with a non-empty
      rate-limit reset header is a `RateLimitError`, anything else a
      `GitHubError` carrying the response's status. */
  function ResponseError(status: int, statusText: string, resetHeader: Option<string>, text: string): (e: Error)
    ensures e.IsGitHubError()
    ensures e.RateLimitError? <==> status == 403 && resetHeader.Some? && resetHeader.value != ""
    ensures e.Status() == status && e.body == text
    ensures e.GitHubError? ==> e.statusText == statusText
  {
    if status == 403 && resetHeader.Some? && resetHeader.value != "" then
      RateLimitError(ResetAtMillis(resetHeader.value), text)
    else
      GitHubError(status, statusText, text)
  }

  /** A reset header written as the decimal seconds `n` gives the instant
      `n * 1000` ms. */
  lemma ResetHeaderInSeconds(n: int, statusText: string, text: string)
    ensures ResponseError(403, statusText, Some(IntToString(n)), text).resetAt == Some(n * 1000)
  {
    ParseIntReadsDecimalPrefix(n, "");
    assert IntToString(n) + "" == IntToString(n);
    assert IntToString(n) != "";
  }
}
