/** `mapFrogError` (index.ts:474-485): the Red Frog calculator's error text,
    reduced to one of three messages shown to users. */
module FrogErrors {
  import opened Wrappers
  import opened Text

  const ContiguousPrefix: string := "No contiguous High Sec route found"
  const NotFoundText: string := "not found in our database"

  const ContiguousMessage: string := "Route must be in contiguous Highsec."
  const NotFoundMessage: string := "System does not exist."
  const UnavailableMessage: string := "Route not available."

  /** `e.response?.data?.error` is `None` when the failure carries no error text. */
  function MapFrogError(text: Option<string>): (m: string)
    ensures m == ContiguousMessage <==> text.Some? && HasPrefix(text.value, ContiguousPrefix)
    ensures m == NotFoundMessage <==>
      text.Some? && !HasPrefix(text.value, ContiguousPrefix) && Contains(text.value, NotFoundText)
    ensures m == UnavailableMessage <==>
      text.None? || (!HasPrefix(text.value, ContiguousPrefix) && !Contains(text.value, NotFoundText))
  {
    match text
    case None => UnavailableMessage
    case Some(t) =>
      if HasPrefix(t, ContiguousPrefix) then ContiguousMessage
      else if Contains(t, NotFoundText) then NotFoundMessage
      else UnavailableMessage
  }

  /** Only the contiguous-highsec and missing-system messages are answers about
      the route itself; the mainland probe caches exactly those as `false`. */
  predicate IsRouteAnswer(m: string) {
    m == ContiguousMessage || m == NotFoundMessage
  }

  /** A text naming both causes counts as the contiguous-highsec case: the
      prefix test comes first. */
  lemma PrefixWins(rest: string)
    ensures MapFrogError(Some(ContiguousPrefix + rest + NotFoundText)) == ContiguousMessage
  {
    PrefixOfConcat(ContiguousPrefix, rest + NotFoundText);
    assert ContiguousPrefix + rest + NotFoundText == ContiguousPrefix + (rest + NotFoundText);
  }

  /** The missing-system text is recognised anywhere in the message. */
  lemma {:induction false} NotFoundAnywhere(before: string, after: string)
    ensures Contains(before + NotFoundText + after, NotFoundText)
    decreases |before|
  {
    var s := before + NotFoundText + after;
    if |before| == 0 {
      assert s == NotFoundText + after;
      PrefixOfConcat(NotFoundText, after);
    } else {
      NotFoundAnywhere(before[1..], after);
      assert s[1..] == before[1..] + NotFoundText + after;
    }
  }

  /** A system name that does not open like the contiguous-highsec text is
      reported as missing. */
  lemma NotFoundClassified(name: string)
    requires |name| > 0 && name[0] != ContiguousPrefix[0]
    ensures MapFrogError(Some(name + " " + NotFoundText + ".")) == NotFoundMessage
  {
    var s := name + " " + NotFoundText + ".";
    assert s == (name + " ") + NotFoundText + ".";
    NotFoundAnywhere(name + " ", ".");
    PrefixesDiffer(s, [s[0]], ContiguousPrefix, 0);
  }
}
