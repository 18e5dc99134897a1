/** What becomes of a proxied request, and how it is booked (internal/cli/proxy/http_transport.go:127-139). */
module Outcomes {
  import W = Window

  /** What became of a request that was sent: a response, or an error with its text. */
  datatype Outcome = Success(response: string) | Failure(error: string)

  ghost predicate OccursAt(s: string, part: string, i: nat) {
    i + |part| <= |s| && s[i..i + |part|] == part
  }

  lemma OccursLater(s: string, part: string)
    requires |part| <= |s| && s[..|part|] != part
    ensures (exists i: nat :: OccursAt(s, part, i)) <==> (exists i: nat :: OccursAt(s[1..], part, i))
  {
    assert forall i: nat :: OccursAt(s[1..], part, i) ==> OccursAt(s, part, i + 1);
    if i: nat :| OccursAt(s, part, i) {
      assert OccursAt(s[1..], part, i - 1);
    }
  }

  /** strings.Contains. */
  predicate Contains(s: string, part: string)
    ensures Contains(s, part) <==> exists i: nat :: OccursAt(s, part, i)
  {
    if |s| < |part| then false
    else if s[..|part|] == part then
      assert OccursAt(s, part, 0);
      true
    else
      OccursLater(s, part);
      Contains(s[1..], part)
  }

  ghost predicate Mentions(s: string, part: string) {
    exists i: nat :: OccursAt(s, part, i)
  }

  ghost predicate TimedOut(o: Outcome) {
    o.Failure? && (Mentions(o.error, "timeout") || Mentions(o.error, "deadline exceeded"))
  }

  ghost predicate Unreachable(o: Outcome) {
    o.Failure? && (Mentions(o.error, "connection refused") || Mentions(o.error, "network"))
  }

  /** How an outcome is booked: errors are told apart by their text, timeouts first. */
  function Kind(o: Outcome): (kind: W.Metric)
    ensures kind == W.SUCCESS <==> o.Success?
    ensures kind == W.TIMEOUT <==> TimedOut(o)
    ensures kind == W.NETWORK_FAILURE <==> Unreachable(o) && !TimedOut(o)
    ensures kind == W.BUSINESS_FAILURE <==> !o.Success? && !Unreachable(o) && !TimedOut(o)
  {
    match o
    case Success(_) => W.SUCCESS
    case Failure(e) =>
      if Contains(e, "timeout") || Contains(e, "deadline exceeded") then W.TIMEOUT
      else if Contains(e, "connection refused") || Contains(e, "network") then W.NETWORK_FAILURE
      else W.BUSINESS_FAILURE
  }
}
