/** The `stats commits` action of the CLI: checking the organisation
    argument, normalising the `--since`/`--until` flags and filling in the
    option defaults before the statistics run. */
module StatsCommand {
  import opened Wrappers
  import opened Text
  import opened Dates

  /** The flags as the command-line parser hands them over; `membersOnly`
      already carries the parser's default. */
  datatype CommitsFlags = CommitsFlags(
    since: Option<string>,
    until: Option<string>,
    membersOnly: bool,
    includeBots: Option<bool>,
    output: string,
    top: Option<int>)

  /** The options passed on to the commit statistics. */
  datatype CommitsOptions = CommitsOptions(
    org: string,
    since: string,
    until: string,
    membersOnly: bool,
    includeBots: bool,
    output: string,
    top: Option<int>)

  const StartOfDay := "T00:00:00Z"
  const EndOfDay := "T23:59:59Z"
  const OrgRequired := "Organization name is required. Usage: pondus stats commits <org>"

  /** A present, non-empty flag value. */
  predicate Given(v: Option<string>) {
    v.Some? && v.value != ""
  }

  /** One date bound: a value with a time part is kept, a bare date gets
      the time of day appended, and a missing or empty flag falls back to
      the default. When the time of day and the default both have a time
      part, so does the result. */
  function Bound(flag: Option<string>, timeOfDay: string, default: string): (r: string)
    ensures 'T' in timeOfDay && 'T' in default ==> 'T' in r
    ensures Given(flag) ==> |r| >= |flag.value| && r[..|flag.value|] == flag.value
    ensures !Given(flag) ==> r == default
  {
    if Given(flag) then
      if 'T' in flag.value then flag.value else flag.value + timeOfDay
    else default
  }

  /** Normalising a normalised bound changes nothing. */
  lemma BoundIdempotent(flag: Option<string>, timeOfDay: string, default: string, otherDefault: string)
    requires 'T' in timeOfDay && 'T' in default
    ensures Bound(Some(Bound(flag, timeOfDay, default)), timeOfDay, otherDefault) == Bound(flag, timeOfDay, default)
  {
    var r := Bound(flag, timeOfDay, default);
    assert 'T' in r;
    assert r != "";
  }

  /** A date written without a time part spans the whole day. */
  lemma BareDatesSpanTheDay(since: string, until: string, year: int)
    requires since != "" && until != "" && 'T' !in since && 'T' !in until
    ensures Bound(Some(since), StartOfDay, DefaultDateRange(year).since) == since + StartOfDay
    ensures Bound(Some(until), EndOfDay, DefaultDateRange(year).until) == until + EndOfDay
  {
  }

  lemma TimesOfDayHaveMarker()
    ensures 'T' in StartOfDay && 'T' in EndOfDay
  {
    assert StartOfDay[0] == 'T' && EndOfDay[0] == 'T';
  }

  /** The `commits` action before the run: a missing or empty organisation
      is an error; otherwise both bounds fall back to the current year's
      range, a bare date is extended to the start or the end of its day,
      every bound has a time part, `includeBots` is off unless the
      flag is set, and the other options are passed through. */
  function CommitsAction(org: Option<string>, flags: CommitsFlags, year: int): (r: Result<CommitsOptions, string>)
    ensures r.Failure? <==> !Given(org)
    ensures r.Failure? ==> r.error == OrgRequired
    ensures r.Success? ==>
      && r.value.org == org.value
      && 'T' in r.value.since && 'T' in r.value.until
      && (!Given(flags.since) ==> r.value.since == DefaultDateRange(year).since)
      && (!Given(flags.until) ==> r.value.until == DefaultDateRange(year).until)
      && (Given(flags.since) && 'T' in flags.since.value ==> r.value.since == flags.since.value)
      && (Given(flags.until) && 'T' in flags.until.value ==> r.value.until == flags.until.value)
      && (Given(flags.since) && 'T' !in flags.since.value ==> r.value.since == flags.since.value + StartOfDay)
      && (Given(flags.until) && 'T' !in flags.until.value ==> r.value.until == flags.until.value + EndOfDay)
      && (r.value.includeBots <==> flags.includeBots.Some? && flags.includeBots.value)
      && r.value.membersOnly == flags.membersOnly && r.value.top == flags.top && r.value.output == flags.output
  {
    if !Given(org) then Failure(OrgRequired)
    else
      var defaults := DefaultDateRange(year);
      TimesOfDayHaveMarker();
      Success(CommitsOptions(
        org.value,
        Bound(flags.since, StartOfDay, defaults.since),
        Bound(flags.until, EndOfDay, defaults.until),
        flags.membersOnly,
        flags.includeBots.GetOr(false),
        flags.output,
        flags.top))
  }
}
