/**
 * Facts about a script of `check_messages` responses, one per call, used to
 * specify `perform_polling` (app.py:198-222).
 */
module Polling {
  import opened Optional

  /** A message as returned by the service; only displayed, never inspected. */
  datatype Message = Message(sender: string, subject: string, bodyText: string)

  /** Every response is empty: `if messages:` fails on each of them. */
  predicate AllEmpty(rs: seq<seq<Message>>)
  {
    forall j :: 0 <= j < |rs| ==> rs[j] == []
  }

  /** The position of the first non-empty response, if any. */
  function FirstNonEmpty(rs: seq<seq<Message>>): (r: Option<nat>)
    ensures r.None? <==> AllEmpty(rs)
    ensures r.Some? ==> r.value < |rs| && rs[r.value] != [] && AllEmpty(rs[..r.value])
  {
    if rs == [] then None
    else if rs[0] != [] then Some(0)
    else match FirstNonEmpty(rs[1..])
      case None => None
      case Some(k) =>
        assert rs[..k + 1] == [rs[0]] + rs[1..][..k];
        Some(k + 1)
  }

  /**
   * The number of calls a poll over `rs` makes: up to and including the first
   * non-empty response, or all of them.
   */
  function CallsMade(rs: seq<seq<Message>>): (n: nat)
    ensures n <= |rs|
    ensures AllEmpty(rs) ==> n == |rs|
    ensures !AllEmpty(rs) ==> 0 < n && rs[n - 1] != [] && AllEmpty(rs[..n - 1])
  {
    match FirstNonEmpty(rs)
    case None => |rs|
    case Some(k) => k + 1
  }

  /** Once the first `k` responses were empty and the next one is not, that one is the first. */
  lemma FirstNonEmptyAt(rs: seq<seq<Message>>, k: nat)
    requires k < |rs| && rs[k] != [] && AllEmpty(rs[..k])
    ensures FirstNonEmpty(rs) == Some(k)
  {
  }

  /** Polling over `max` responses never makes more than `max` calls, and makes all of them only if the first `max - 1` were empty. */
  lemma CallsMadeBound(rs: seq<seq<Message>>)
    requires |rs| > 0
    ensures CallsMade(rs) <= |rs|
    ensures CallsMade(rs) == |rs| <==> AllEmpty(rs[..|rs| - 1])
  {
  }
}
