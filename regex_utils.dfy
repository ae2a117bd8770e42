/**
 * `RegexUtils.maybeGroup`: the value of a named group, provided the pattern matched the WHOLE
 * input (`Matcher.matches()`, not `find()`).
 *
 * A `Matcher` is the outcome of running one pattern over one input: whether the pattern matched
 * the entire input, and the text each named group captured in that match. A group that did not
 * take part in the match has no entry, which is what `Matcher.group(name)` returning null means.
 * The patterns themselves are hand-coded next to the enrichers that use them.
 */
module RegexUtils {
  import opened Wrappers

  datatype Matcher = Matcher(matches: bool, captured: map<string, string>)

  /** The matcher of a pattern that did not match its input. */
  const NoMatch: Matcher := Matcher(false, map[])

  function MaybeGroup(matcher: Matcher, groupName: string): (r: Option<string>)
    ensures !matcher.matches ==> r == None
    ensures matcher.matches && groupName !in matcher.captured ==> r == None
    ensures matcher.matches && groupName in matcher.captured ==> r == Some(matcher.captured[groupName])
    ensures r.Some? ==> matcher.matches && groupName in matcher.captured
                        && r.value == matcher.captured[groupName]
  {
    if !matcher.matches then None
    else if groupName in matcher.captured then Some(matcher.captured[groupName])
    else None
  }
}
