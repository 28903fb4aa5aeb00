/**
 * What the two paginating walkers share: the answer of their search call,
 * the outcome of `valid()`, and PHP's loose comparisons against a total or
 * a page size that may be null.
 */
module Paging {
  import opened Wrappers

  /**
   * The search call of a walker: a page, an `UnauthorizedException`, any
   * other `Exception`, or a PHP `Error` such as a `TypeError` (which
   * `catch (Exception $e)` does not catch).
   */
  datatype Fetched<P> = Page(page: P) | Unauthorized | OtherError | Fatal

  /**
   * How `valid()` ends: an answer (with whether an exception was logged on
   * the way), the usage error thrown before `push`, a rethrown
   * `UnauthorizedException`, or a PHP `Error` that no `catch` clause stops.
   */
  datatype Verdict = Answer(valid: bool, logged: bool) | UsageError | Rethrown | Escaped

  /** One `valid()` call: its verdict, the walker's state after it, and the start offset it searched from, if it searched. */
  datatype Step<C> = Step(verdict: Verdict, next: C, call: Option<int>)

  /** How `count()` ends: the total (null when unset), or the exception `valid()` threw. */
  datatype Counted = Counted(total: Option<int>) | Aborted(verdict: Verdict)

  /** One `count()` call: its outcome, the state after it, and the search it made, if any. */
  datatype Tally<C> = Tally(result: Counted, next: C, call: Option<int>)

  /** The calls of a `foreach` pass: what `current()` saw each time, the searches made, how the last `valid()` ended. */
  datatype Pass<E, C> = Pass(yielded: seq<Option<E>>, calls: seq<int>, end: Verdict, last: C)

  /** A step that yielded `y` and searched `first`, in front of the rest of a pass (none when the rest ran out of fuel). */
  function Prepend<E, C>(y: Option<E>, first: seq<int>, rest: Option<Pass<E, C>>): Option<Pass<E, C>> {
    match rest
    case None => None
    case Some(p) => Some(Pass([y] + p.yielded, first + p.calls, p.end, p.last))
  }

  /** The start offsets a step searched from, as a list. */
  function CallsOf(call: Option<int>): (r: seq<int>)
    ensures call.None? <==> r == []
    ensures call.Some? ==> r == [call.value]
  {
    if call.Some? then [call.value] else []
  }

  /** `$x < $total`: against null both sides are read as booleans, and nothing is below false. */
  predicate Below(x: int, total: Option<int>) {
    total.Some? && x < total.value
  }

  /** `$x >= $max`: against null both sides are read as booleans, and everything is at least false. */
  predicate AtLeast(x: int, max: Option<int>) {
    max.None? || x >= max.value
  }

  /** `$total == 0`: null is loosely equal to 0. */
  predicate LooselyZero(total: Option<int>) {
    total.None? || total.value == 0
  }

  /** `key()`: 0 before the first page, then the offset into the page plus the pages already seen. */
  function KeyOf(startAt: int, offset: int, perPage: int): (k: int)
    ensures startAt <= 0 ==> k == 0
    ensures startAt > 0 ==> k - offset == (startAt - 1) * perPage
  {
    if startAt > 0 then offset + (startAt - 1) * perPage else 0
  }

  /** Each element as `Some`: what `current()` sees when walking a list from its start. */
  function Somes<E>(es: seq<E>): (r: seq<Option<E>>)
    ensures |r| == |es|
  {
    seq(|es|, i requires 0 <= i < |es| => Some(es[i]))
  }

  /** The entity at each position, as `Some`, in order. */
  lemma SomesAt<E>(es: seq<E>)
    ensures forall i :: 0 <= i < |es| ==> Somes(es)[i] == Some(es[i])
  {
  }

  lemma SomesCons<E>(es: seq<E>)
    requires es != []
    ensures Somes(es) == [Some(es[0])] + Somes(es[1..])
  {
  }
}
