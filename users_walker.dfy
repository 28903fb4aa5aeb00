/**
 * The user walker (src/Jira/Users/Walker.php): an iterator over the users a
 * query finds, fetched page by page with the client's `searchUsers`. Unlike
 * the project walker it asks for each page at `key()`, the position reached
 * so far, so a server that hands out pages of `perPage` records is walked
 * from start to end.
 */
module UsersWalker {
  import opened Wrappers
  import opened Json
  import opened Paging

  /** The page size unless the constructor is given a number. */
  const DefaultPerPage: int := 50

  /**
   * The page `searchUsers` answers with, read through `getTotal`,
   * `getIssuesCount` and `getIssues`. The client (`thawkins\Jira\Api`) and
   * its result class (`thawkins\Jira\Api\Result`) are not part of this model.
   */
  datatype UsersPage = UsersPage(total: Option<int>, count: Option<int>, issues: seq<Value>)

  /** The walker's fields, apart from the API object and the callback. */
  datatype Cursor = Cursor(
    query: Value,           // null until `push`
    fields: Value,
    offset: int,            // position in the current page
    current: int,           // reset by `rewind`, otherwise unused
    total: Option<int>,     // null until a page is set
    max: Option<int>,       // the current page's count
    startAt: int,           // the number of pages set so far
    perPage: int,
    executed: bool,
    issues: seq<Value>)     // the current page

  /** `$api->searchUsers($query, $startAt, $perPage, $fields)` as the walker sees it. */
  type Search = (Value, int, int, Value) -> Fetched<UsersPage>

  /** The callable given to `setDelegate`. */
  type Delegate = Value -> Value

  /** A fresh walker; a numeric constructor argument replaces the default page size. */
  function Initial(perPage: Option<int>): (c: Cursor)
    ensures c.query == Null && c.total.None? && !c.executed && c.startAt == 0 && c.offset == 0
    ensures c.perPage == if perPage.Some? then perPage.value else DefaultPerPage
  {
    Cursor(Null, Null, 0, 0, None, Some(0), 0,
           if perPage.Some? then perPage.value else DefaultPerPage, false, [])
  }

  /** `key()`: 0 before the first page, then the offset plus the pages already passed. */
  function Key(c: Cursor): (k: int)
    ensures c.startAt <= 0 ==> k == 0
    ensures c.startAt > 0 ==> k == c.offset + (c.startAt - 1) * c.perPage
  {
    KeyOf(c.startAt, c.offset, c.perPage)
  }

  /** The page entry at the offset; None where PHP reads a missing one as null. */
  function CurrentOf(c: Cursor): (e: Option<Value>)
    ensures e.Some? <==> 0 <= c.offset < |c.issues|
    ensures e.Some? ==> e.value == c.issues[c.offset]
  {
    if 0 <= c.offset < |c.issues| then Some(c.issues[c.offset]) else None
  }

  /** `next()`: only the offset moves. */
  function NextOf(c: Cursor): (d: Cursor)
    ensures d == c.(offset := c.offset + 1)
  {
    c.(offset := c.offset + 1)
  }

  /**
   * `setResult`: total, count and records come from the page, the offset
   * goes back to 0 and one more page has been seen.
   */
  function WithResult(c: Cursor, p: UsersPage): (d: Cursor)
    ensures d.total == p.total && d.max == p.count && d.issues == p.issues
    ensures d.offset == 0 && d.startAt == c.startAt + 1
    ensures d.query == c.query && d.fields == c.fields && d.perPage == c.perPage && d.executed == c.executed
  {
    c.(total := p.total, offset := 0, max := p.count, issues := p.issues, startAt := c.startAt + 1)
  }

  /** The search of `valid()`, from `key()`, and what it makes of the answer; `first` marks the first fetch. */
  function Fetch(c: Cursor, search: Search, first: bool): (s: Step<Cursor>)
  {
    match search(c.query, Key(c), c.perPage, c.fields)
    case Page(p) =>
      if first then Step(Answer(!LooselyZero(p.total), false), WithResult(c, p).(executed := true), Some(Key(c)))
      else Step(Answer(true, false), WithResult(c, p), Some(Key(c)))
    case Unauthorized => Step(Rethrown, c, Some(Key(c)))
    case OtherError => Step(Answer(false, true), c, Some(Key(c)))
    case Fatal => Step(Escaped, c, Some(Key(c)))
  }

  /**
   * `valid()`: a usage error before `push`; the first call fetches; later
   * calls fetch the next page when the current one is used up and the total
   * is not reached, and otherwise compare the position with the total.
   */
  function ValidStep(c: Cursor, search: Search): (s: Step<Cursor>)
    ensures s.verdict == UsageError <==> c.query == Null
    ensures s.call.Some? ==> s.call.value == Key(c)
    ensures s.call.None? ==> s.next == c && (s.verdict.Answer? || s.verdict == UsageError)
    ensures !(s.verdict.Answer? && !s.verdict.logged) ==> s.next == c
  {
    if c.query == Null then Step(UsageError, c, None)
    else if !c.executed then Fetch(c, search, true)
    else if AtLeast(c.offset, c.max) && Below(Key(c), c.total) then Fetch(c, search, false)
    else Step(Answer(Below((c.startAt - 1) * c.perPage + c.offset, c.total), false), c, None)
  }

  /** `rewind()`: everything but the query, the fields and the page size is reset. */
  function RewindOf(c: Cursor): (d: Cursor)
    ensures d == Initial(Some(c.perPage)).(query := c.query, fields := c.fields)
  {
    c.(offset := 0, startAt := 0, current := 0, max := Some(0), total := None, executed := false, issues := [])
  }

  /** `count()`: `valid()` runs only while the total is unset. */
  function CountOf(c: Cursor, search: Search): (t: Tally<Cursor>)
    ensures c.total.Some? ==> t == Tally(Counted(c.total), c, None)
    ensures t.result.Counted? ==> t.result.total == t.next.total
    ensures t.result.Aborted? ==> t.next == c && !t.result.verdict.Answer?
  {
    if c.total.None? then
      var s := ValidStep(c, search);
      if s.verdict.Answer? then Tally(Counted(s.next.total), s.next, s.call)
      else Tally(Aborted(s.verdict), s.next, s.call)
    else Tally(Counted(c.total), c, None)
  }

  /**
   * The `while (valid()) { current(); next(); }` part of a `foreach`, for at
   * most `fuel` calls of `valid()`; None when the fuel runs out.
   */
  function Run(c: Cursor, search: Search, fuel: nat): (r: Option<Pass<Value, Cursor>>)
    ensures r.Some? ==> |r.value.yielded| < fuel && |r.value.calls| <= |r.value.yielded| + 1
    ensures r.Some? ==> !(r.value.end.Answer? && r.value.end.valid)
    decreases fuel
  {
    if fuel == 0 then None
    else
      var s := ValidStep(c, search);
      if s.verdict.Answer? && s.verdict.valid then
        Prepend(CurrentOf(s.next), CallsOf(s.call), Run(NextOf(s.next), search, fuel - 1))
      else Some(Pass([], CallsOf(s.call), s.verdict, s.next))
  }

  /** A whole `foreach`: `rewind()`, then the loop. */
  function Foreach(c: Cursor, search: Search, fuel: nat): (r: Option<Pass<Value, Cursor>>)
    ensures r == Run(Initial(Some(c.perPage)).(query := c.query, fields := c.fields), search, fuel)
  {
    Run(RewindOf(c), search, fuel)
  }

  class Walker {
    var query: Value
    var fields: Value
    var offset: int
    var current: int
    var total: Option<int>
    var max: Option<int>
    var startAt: int
    var perPage: int
    var executed: bool
    var issues: seq<Value>
    var callback: Option<Delegate>

    /** The walker's state as a value. */
    function State(): Cursor
      reads this
    {
      Cursor(query, fields, offset, current, total, max, startAt, perPage, executed, issues)
    }

    /** `new Walker($api, $perPage)`: only a numeric page size is taken. */
    constructor (perPage: Option<int>)
      ensures State() == Initial(perPage) && callback.None?
    {
      query, fields, offset, current := Null, Null, 0, 0;
      total, max, startAt, executed, issues := None, Some(0), 0, false, [];
      this.perPage := if perPage.Some? then perPage.value else DefaultPerPage;
      callback := None;
    }

    /** `push`: stores the query and the fields. */
    method Push(query: Value, fields: Value := Null)
      modifies this
      ensures State() == old(State()).(query := query, fields := fields) && callback == old(callback)
    {
      this.query, this.fields := query, fields;
    }

    /** `current()`: the record at the offset (null when missing), handed to the delegate when one is set. */
    function Current(): (r: Value)
      reads this
      ensures var e := if CurrentOf(State()).Some? then CurrentOf(State()).value else Null;
              r == if callback.Some? then callback.value(e) else e
    {
      var e := if 0 <= offset < |issues| then issues[offset] else Null;
      match callback
      case None => e
      case Some(f) => f(e)
    }

    /** `next()`. */
    method Next()
      modifies this
      ensures State() == NextOf(old(State())) && callback == old(callback)
    {
      offset := offset + 1;
    }

    /** `key()`. */
    function GetKey(): (k: int)
      reads this
      ensures k == Key(State())
    {
      if startAt > 0 then offset + (startAt - 1) * perPage else 0
    }

    /** `setResult`. */
    method SetResult(p: UsersPage)
      modifies this
      ensures State() == WithResult(old(State()), p) && callback == old(callback)
    {
      total := p.total;
      offset := 0;
      max := p.count;
      issues := p.issues;
      startAt := startAt + 1;
    }

    /** `valid()`. */
    method Valid(search: Search) returns (v: Verdict, call: Option<int>)
      modifies this
      ensures var s := ValidStep(old(State()), search);
              v == s.verdict && State() == s.next && call == s.call
      ensures callback == old(callback)
    {
      if query == Null {
        return UsageError, None;
      }
      var key := GetKey();
      if !executed {
        call := Some(key);
        var answer := search(query, key, perPage, fields);
        match answer {
          case Page(p) =>
            SetResult(p);
            executed := true;
            v := Answer(!LooselyZero(p.total), false);
          case Unauthorized =>
            v := Rethrown;
          case OtherError =>
            v := Answer(false, true);
          case Fatal =>
            v := Escaped;
        }
        return;
      }
      if AtLeast(offset, max) && Below(key, total) {
        call := Some(key);
        var answer := search(query, key, perPage, fields);
        match answer {
          case Page(p) =>
            SetResult(p);
            v := Answer(true, false);
          case Unauthorized =>
            v := Rethrown;
          case OtherError =>
            v := Answer(false, true);
          case Fatal =>
            v := Escaped;
        }
        return;
      }
      return Answer(Below((startAt - 1) * perPage + offset, total), false), None;
    }

    /** `rewind()`: the page is cleared; the query, the fields, the page size and the callback are kept. */
    method Rewind()
      modifies this
      ensures State() == RewindOf(old(State())) && callback == old(callback)
    {
      offset, startAt, current, max, total, executed, issues := 0, 0, 0, Some(0), None, false, [];
    }

    /** `count()`. */
    method Count(search: Search) returns (n: Counted, call: Option<int>)
      modifies this
      ensures var t := CountOf(old(State()), search);
              n == t.result && State() == t.next && call == t.call
      ensures callback == old(callback)
    {
      if total.None? {
        var v;
        v, call := Valid(search);
        if v.Answer? {
          n := Counted(total);
        } else {
          n := Aborted(v);
        }
      } else {
        n, call := Counted(total), None;
      }
    }

    /** `setDelegate`: a callable (Some) is stored; anything else (None) is refused with an exception. */
    method SetDelegate(callable: Option<Delegate>) returns (refused: bool)
      modifies this
      ensures refused <==> callable.None?
      ensures callable.Some? ==> callback == callable
      ensures callable.None? ==> callback == old(callback)
      ensures State() == old(State())
    {
      if callable.None? {
        return true;
      }
      callback := callable;
      return false;
    }
  }

  /** Before `push` every `valid()`, and so every `count()` with no total yet, throws the usage error and changes nothing. */
  lemma UsageErrorBeforePush(c: Cursor, search: Search)
    requires c.query == Null
    ensures ValidStep(c, search) == Step(UsageError, c, None)
    ensures c.total.None? ==> CountOf(c, search) == Tally(Aborted(UsageError), c, None)
  {
  }

  /** The page size is 50 unless the constructor is given a number. */
  lemma PageSize(n: int)
    ensures Initial(None).perPage == 50 && Initial(Some(n)).perPage == n
  {
  }

  /**
   * The first `valid()` after `push` or `rewind` searches from `key()`,
   * which is 0, with the page size and the fields; it takes the page, marks
   * the query executed, and answers false exactly when the total is 0 (or null).
   */
  lemma FirstValid(c: Cursor, search: Search)
    requires c.query != Null && !c.executed && c.startAt == 0
    requires search(c.query, 0, c.perPage, c.fields).Page?
    ensures var s := ValidStep(c, search);
            var p := search(c.query, 0, c.perPage, c.fields).page;
            && s.call == Some(0)
            && s.next == WithResult(c, p).(executed := true)
            && s.verdict == Answer(p.total.Some? && p.total.value != 0, false)
  {
  }

  /**
   * A later search happens exactly when the page is used up and `key()` is
   * below the total, and asks for the page at `key()`, the number of
   * records already passed.
   */
  lemma NextPageAtKey(c: Cursor, search: Search)
    requires c.query != Null && c.executed && c.startAt > 0
    ensures ValidStep(c, search).call.Some? <==> AtLeast(c.offset, c.max) && Below(Key(c), c.total)
    ensures ValidStep(c, search).call.Some? ==>
              ValidStep(c, search).call.value == (c.startAt - 1) * c.perPage + c.offset
  {
  }

  /** When no search is due, `valid()` compares the position with the total and changes nothing. */
  lemma AnswerFromPage(c: Cursor, search: Search)
    requires c.query != Null && c.executed
    requires !(AtLeast(c.offset, c.max) && Below(Key(c), c.total))
    ensures ValidStep(c, search) == Step(Answer(Below((c.startAt - 1) * c.perPage + c.offset, c.total), false), c, None)
  {
  }

  /**
   * A failed search: an `UnauthorizedException` is rethrown, any other
   * exception is logged and makes `valid()` false, and a PHP `Error` passes
   * through `valid()` and `count()` uncaught; the state is unchanged.
   */
  lemma Failures(c: Cursor, search: Search)
    requires c.query != Null
    ensures var s := ValidStep(c, search);
            && (s.call.Some? && search(c.query, Key(c), c.perPage, c.fields).Unauthorized? ==> s == Step(Rethrown, c, s.call))
            && (s.call.Some? && search(c.query, Key(c), c.perPage, c.fields).OtherError? ==> s == Step(Answer(false, true), c, s.call))
            && (s.call.Some? && search(c.query, Key(c), c.perPage, c.fields).Fatal? ==> s == Step(Escaped, c, s.call))
    ensures c.total.None? && !c.executed && search(c.query, Key(c), c.perPage, c.fields).Fatal? ==>
              CountOf(c, search) == Tally(Aborted(Escaped), c, Some(Key(c)))
  {
  }

  /**
   * A search that raises a PHP `Error` on every call: after `push`, a
   * `foreach` searches once, from 0, yields nothing and ends in that error,
   * with the walker as `rewind()` left it.
   */
  lemma ErrorOnEverySearch(c: Cursor, search: Search, fuel: nat)
    requires c.query != Null && fuel > 0
    requires forall q, s, n, f :: search(q, s, n, f) == Fatal
    ensures Foreach(c, search, fuel) == Some(Pass([], [0], Escaped, RewindOf(c)))
  {
    assert search(c.query, 0, c.perPage, c.fields) == Fatal;
  }

  /** `rewind()` empties the page, unsets the total and the executed flag, and keeps the query and fields. */
  lemma RewindClears(c: Cursor)
    ensures var d := RewindOf(c);
            && d.issues == [] && d.total.None? && !d.executed && Key(d) == 0
            && d.query == c.query && d.fields == c.fields && d.perPage == c.perPage
  {
  }

  function Min(a: int, b: int): int {
    if a <= b then a else b
  }

  /** The page a server holding `all` answers for start `s`: up to `perPage` records from `s`, and the full total. */
  function Slice(all: seq<Value>, s: int, perPage: int): (p: UsersPage)
    requires 0 <= s <= |all| && perPage > 0
    ensures p.total == Some(|all|) && p.count == Some(|p.issues|)
    ensures p.issues == all[s..s + Min(perPage, |all| - s)]
  {
    var m := Min(perPage, |all| - s);
    UsersPage(Some(|all|), Some(m), all[s..s + m])
  }

  /** The search answers every start within `all` with the slice of `all` there. */
  predicate Serves(search: Search, query: Value, fields: Value, all: seq<Value>, perPage: int) {
    perPage > 0 && forall s {:trigger Slice(all, s, perPage)} :: 0 <= s <= |all| ==> search(query, s, perPage, fields) == Page(Slice(all, s, perPage))
  }

  /** The starts of the pages after the one at `s`, while they are below `n`. */
  function Later(s: int, n: int, perPage: int): (r: seq<int>)
    requires perPage > 0
    decreases n - s
  {
    if s + perPage < n then [s + perPage] + Later(s + perPage, n, perPage) else []
  }

  /** The later pages start at `s + P`, `s + 2P`, …, each below `n`. */
  lemma {:induction false} LaterStrides(s: int, n: int, perPage: int)
    requires perPage > 0
    ensures forall i :: 0 <= i < |Later(s, n, perPage)| ==>
              Later(s, n, perPage)[i] == s + (i + 1) * perPage && Later(s, n, perPage)[i] < n
    decreases n - s
  {
    if s + perPage < n {
      var rest := Later(s + perPage, n, perPage);
      LaterStrides(s + perPage, n, perPage);
      forall i | 1 <= i < |Later(s, n, perPage)|
        ensures Later(s, n, perPage)[i] == s + (i + 1) * perPage
      {
        assert Later(s, n, perPage)[i] == rest[i - 1];
        assert s + perPage + i * perPage == s + (i + 1) * perPage;
      }
    }
  }

  /** The walker is on the page at `s` of a server holding `all`, at some offset within it. */
  predicate OnPage(c: Cursor, all: seq<Value>, s: int) {
    var m := Min(c.perPage, |all| - s);
    && c.perPage > 0 && c.query != Null && c.executed
    && 0 <= s < |all| && (c.startAt - 1) * c.perPage == s && c.startAt >= 1
    && c.total == Some(|all|) && c.max == Some(m) && c.issues == all[s..s + m]
    && 0 <= c.offset <= m
  }

  /** The step from the end of a full page to the next one. */
  lemma {:induction false} TurnPage(c: Cursor, search: Search, all: seq<Value>, s: int)
    requires OnPage(c, all, s) && Serves(search, c.query, c.fields, all, c.perPage)
    requires c.offset == Min(c.perPage, |all| - s) && s + c.offset < |all|
    ensures c.offset == c.perPage
    ensures var d := WithResult(c, Slice(all, s + c.perPage, c.perPage));
            && ValidStep(c, search) == Step(Answer(true, false), d, Some(s + c.perPage))
            && OnPage(d, all, s + c.perPage) && CurrentOf(d) == Some(all[s + c.perPage])
  {
    var P := c.perPage;
    assert Key(c) == s + P;
    var d := WithResult(c, Slice(all, s + P, P));
    assert (d.startAt - 1) * P == (c.startAt - 1) * P + P;
  }

  /** A `valid()` that answers true: the walk yields the current record and goes on after `next()`. */
  lemma RunGoesOn(c: Cursor, search: Search, fuel: nat)
    requires fuel > 0 && ValidStep(c, search).verdict == Answer(true, false)
    ensures var s := ValidStep(c, search);
            Run(c, search, fuel) == Prepend(CurrentOf(s.next), CallsOf(s.call), Run(NextOf(s.next), search, fuel - 1))
  {
  }

  /** A `valid()` that answers false ends the walk. */
  lemma RunStops(c: Cursor, search: Search, fuel: nat)
    requires fuel > 0 && ValidStep(c, search).verdict == Answer(false, false)
    ensures var s := ValidStep(c, search);
            Run(c, search, fuel) == Some(Pass([], CallsOf(s.call), s.verdict, s.next))
  {
  }

  /** Within a page, `valid()` answers true without searching and the walk yields the record at the offset. */
  lemma {:induction false} WithinPage(c: Cursor, search: Search, all: seq<Value>, s: int, fuel: nat)
    requires OnPage(c, all, s) && c.offset < Min(c.perPage, |all| - s) && fuel > 0
    ensures Run(c, search, fuel) == Prepend(Some(all[s + c.offset]), [], Run(NextOf(c), search, fuel - 1))
  {
    assert Key(c) == s + c.offset;
    assert ValidStep(c, search) == Step(Answer(true, false), c, None);
    RunGoesOn(c, search, fuel);
  }

  /** At the end of a full page short of the total, `valid()` fetches the next page and the walk yields its first record. */
  lemma {:induction false} AcrossPages(c: Cursor, search: Search, all: seq<Value>, s: int, fuel: nat)
    requires OnPage(c, all, s) && Serves(search, c.query, c.fields, all, c.perPage)
    requires c.offset == Min(c.perPage, |all| - s) && s + c.offset < |all| && fuel > 0
    ensures Run(c, search, fuel)
            == Prepend(Some(all[s + c.perPage]), [s + c.perPage],
                       Run(NextOf(WithResult(c, Slice(all, s + c.perPage, c.perPage))), search, fuel - 1))
  {
    TurnPage(c, search, all, s);
    RunGoesOn(c, search, fuel);
  }

  /** At the end of the last page, `valid()` answers false without searching. */
  lemma {:induction false} EndOfWalk(c: Cursor, search: Search, all: seq<Value>, s: int, fuel: nat)
    requires OnPage(c, all, s) && c.offset == Min(c.perPage, |all| - s) && s + c.offset == |all| && fuel > 0
    ensures Run(c, search, fuel) == Some(Pass([], [], Answer(false, false), c))
  {
    assert Key(c) == s + c.offset;
    assert ValidStep(c, search) == Step(Answer(false, false), c, None);
    RunStops(c, search, fuel);
  }

  /** The rest of the walk from `c` yields `ys`, searches `calls` and ends with `valid()` answering false. */
  predicate Walks(c: Cursor, search: Search, fuel: nat, ys: seq<Option<Value>>, calls: seq<int>) {
    var r := Run(c, search, fuel);
    r.Some? && r.value.yielded == ys && r.value.calls == calls && r.value.end == Answer(false, false)
  }

  /** A step that yields `y` and searches `first` in front of a walk from `d` gives a walk from `c`. */
  lemma WalkCons(c: Cursor, d: Cursor, search: Search, fuel: nat, y: Option<Value>, first: seq<int>,
                 ys: seq<Option<Value>>, calls: seq<int>, allYs: seq<Option<Value>>, allCalls: seq<int>)
    requires fuel > 0 && Walks(d, search, fuel - 1, ys, calls)
    requires Run(c, search, fuel) == Prepend(y, first, Run(d, search, fuel - 1))
    requires allYs == [y] + ys && allCalls == first + calls
    ensures Walks(c, search, fuel, allYs, allCalls)
  {
  }

  lemma SomesFrom(all: seq<Value>, i: int, j: int)
    requires 0 <= i < |all| && j == i + 1
    ensures Somes(all[i..]) == [Some(all[i])] + Somes(all[j..])
  {
    assert all[i..] == [all[i]] + all[i + 1..];
    SomesCons(all[i..]);
  }

  lemma LaterStep(s: int, n: int, perPage: int)
    requires perPage > 0 && s + perPage < n
    ensures Later(s, n, perPage) == [s + perPage] + Later(s + perPage, n, perPage)
  {
  }

  /** A step that yields the record at `i` without a search, in front of the walk from `i + 1`, walks from `i`. */
  lemma WalkInPage(c: Cursor, d: Cursor, search: Search, fuel: nat, all: seq<Value>, i: int, calls: seq<int>)
    requires 0 <= i < |all| && fuel > 0
    requires Walks(d, search, fuel - 1, Somes(all[i + 1..]), calls)
    requires Run(c, search, fuel) == Prepend(Some(all[i]), [], Run(d, search, fuel - 1))
    ensures Walks(c, search, fuel, Somes(all[i..]), calls)
  {
    SomesFrom(all, i, i + 1);
    assert [] + calls == calls;
    WalkCons(c, d, search, fuel, Some(all[i]), [], Somes(all[i + 1..]), calls, Somes(all[i..]), calls);
  }

  /**
   * A step that searches the page at `s + perPage` and yields its first
   * record, in front of the walk from the record after it, walks from there.
   */
  lemma WalkNewPage(c: Cursor, d: Cursor, search: Search, fuel: nat, all: seq<Value>, s: int, perPage: int, k: int)
    requires perPage > 0 && 0 <= s && s + perPage < |all| && fuel > 0 && k == perPage
    requires Walks(d, search, fuel - 1, Somes(all[s + perPage + 1..]), Later(s + perPage, |all|, perPage))
    requires Run(c, search, fuel) == Prepend(Some(all[s + perPage]), [s + perPage], Run(d, search, fuel - 1))
    ensures Walks(c, search, fuel, Somes(all[s + k..]), Later(s, |all|, perPage))
  {
    var i := s + perPage;
    SomesFrom(all, i, i + 1);
    LaterStep(s, |all|, perPage);
    WalkCons(c, d, search, fuel, Some(all[i]), [i], Somes(all[i + 1..]), Later(i, |all|, perPage),
             Somes(all[i..]), Later(s, |all|, perPage));
  }

  /**
   * From any position on a page, the rest of the walk yields every record
   * from that position to the end, and searches exactly the later pages.
   */
  lemma {:induction false} RestOfWalk(c: Cursor, search: Search, all: seq<Value>, s: int, fuel: nat)
    requires OnPage(c, all, s) && Serves(search, c.query, c.fields, all, c.perPage)
    requires fuel > |all| - (s + c.offset)
    ensures Walks(c, search, fuel, Somes(all[s + c.offset..]), Later(s, |all|, c.perPage))
    decreases |all| - (s + c.offset), 2
  {
    var m := Min(c.perPage, |all| - s);
    if c.offset < m {
      RestWithinPage(c, search, all, s, fuel);
    } else if s + m < |all| {
      RestAcrossPages(c, search, all, s, fuel);
    } else {
      EndOfWalk(c, search, all, s, fuel);
      assert all[s + c.offset..] == [];
    }
  }

  /** `RestOfWalk` inside a page: the record at the offset, then the rest of the walk after `next()`. */
  lemma {:induction false} RestWithinPage(c: Cursor, search: Search, all: seq<Value>, s: int, fuel: nat)
    requires OnPage(c, all, s) && Serves(search, c.query, c.fields, all, c.perPage)
    requires fuel > |all| - (s + c.offset) && c.offset < Min(c.perPage, |all| - s)
    ensures Walks(c, search, fuel, Somes(all[s + c.offset..]), Later(s, |all|, c.perPage))
    decreases |all| - (s + c.offset), 0
  {
    var d := NextOf(c);
    StepOnPage(c, all, s);
    WithinPage(c, search, all, s, fuel);
    RestOfWalk(d, search, all, s, fuel - 1);
    WalkInPage(c, d, search, fuel, all, s + c.offset, Later(s, |all|, c.perPage));
  }

  /** `next()` inside a page stays on the page. */
  lemma StepOnPage(c: Cursor, all: seq<Value>, s: int)
    requires OnPage(c, all, s) && c.offset < Min(c.perPage, |all| - s)
    ensures var d := NextOf(c);
            && OnPage(d, all, s) && d.offset == c.offset + 1
            && d.query == c.query && d.fields == c.fields && d.perPage == c.perPage
  {
  }

  /** `RestOfWalk` at the end of a page that is not the last: the next page's first record and its search, then the rest. */
  lemma {:induction false} RestAcrossPages(c: Cursor, search: Search, all: seq<Value>, s: int, fuel: nat)
    requires OnPage(c, all, s) && Serves(search, c.query, c.fields, all, c.perPage)
    requires fuel > |all| - (s + c.offset)
    requires c.offset == Min(c.perPage, |all| - s) && s + c.offset < |all|
    ensures Walks(c, search, fuel, Somes(all[s + c.offset..]), Later(s, |all|, c.perPage))
    decreases |all| - (s + c.offset), 1
  {
    var d := RestOfNextPage(c, search, all, s, fuel);
    WalkNewPage(c, d, search, fuel, all, s, c.perPage, c.offset);
  }

  /**
   * Turning the page yields its first record and leaves the walker at `d`,
   * one into the new page, from where the rest of the walk goes on.
   */
  lemma {:induction false} RestOfNextPage(c: Cursor, search: Search, all: seq<Value>, s: int, fuel: nat) returns (d: Cursor)
    requires OnPage(c, all, s) && Serves(search, c.query, c.fields, all, c.perPage)
    requires fuel > |all| - (s + c.offset)
    requires c.offset == Min(c.perPage, |all| - s) && s + c.offset < |all|
    ensures c.offset == c.perPage
    ensures Walks(d, search, fuel - 1, Somes(all[s + c.perPage + 1..]), Later(s + c.perPage, |all|, c.perPage))
    ensures Run(c, search, fuel) == Prepend(Some(all[s + c.perPage]), [s + c.perPage], Run(d, search, fuel - 1))
    decreases |all| - (s + c.offset), 0
  {
    var i := s + c.perPage;
    d := NextOf(WithResult(c, Slice(all, i, c.perPage)));
    TurnPage(c, search, all, s);
    PastFirstOfPage(c, all, s);
    RestOfWalk(d, search, all, i, fuel - 1);
    AcrossPages(c, search, all, s, fuel);
  }

  /** After turning the page and yielding its first record, the walker is one into the next page. */
  lemma PastFirstOfPage(c: Cursor, all: seq<Value>, s: int)
    requires c.perPage > 0 && 0 <= s + c.perPage <= |all|
    requires OnPage(WithResult(c, Slice(all, s + c.perPage, c.perPage)), all, s + c.perPage)
    ensures var d := NextOf(WithResult(c, Slice(all, s + c.perPage, c.perPage)));
            && d.query == c.query && d.fields == c.fields && d.perPage == c.perPage
            && d.offset == 1 && OnPage(d, all, s + c.perPage)
  {
  }

  /** The first `valid()` of a pass searches from 0 and lands on the first page. */
  lemma {:induction false} FirstPage(c: Cursor, search: Search, all: seq<Value>)
    requires c.query != Null && Serves(search, c.query, c.fields, all, c.perPage)
    ensures var c1 := WithResult(RewindOf(c), Slice(all, 0, c.perPage)).(executed := true);
            && ValidStep(RewindOf(c), search) == Step(Answer(|all| != 0, false), c1, Some(0))
            && (|all| != 0 ==> OnPage(NextOf(c1), all, 0) && CurrentOf(c1) == Some(all[0]))
  {
    assert Key(RewindOf(c)) == 0;
  }

  /** The first record and the search from 0 go in front of the rest of the walk. */
  lemma {:induction false} WalkFirstPage(c: Cursor, search: Search, all: seq<Value>, fuel: nat)
    requires c.query != Null && Serves(search, c.query, c.fields, all, c.perPage) && 0 < |all| < fuel
    ensures Walks(RewindOf(c), search, fuel, Somes(all), [0] + Later(0, |all|, c.perPage))
  {
    var c1 := WithResult(RewindOf(c), Slice(all, 0, c.perPage)).(executed := true);
    FirstPage(c, search, all);
    assert Walks(NextOf(c1), search, fuel - 1, Somes(all[1..]), Later(0, |all|, c.perPage)) by {
      var d := NextOf(c1);
      RestOfWalk(d, search, all, 0, fuel - 1);
      assert all[0 + d.offset..] == all[1..];
    }
    RunGoesOn(RewindOf(c), search, fuel);
    SomesCons(all);
    WalkCons(RewindOf(c), NextOf(c1), search, fuel, Some(all[0]), [0], Somes(all[1..]), Later(0, |all|, c.perPage),
             Somes(all), [0] + Later(0, |all|, c.perPage));
  }

  /**
   * A whole `foreach` after `push`, against a server that hands out pages
   * of `perPage` records of `all`, yields every record of `all` in order
   * and searches from 0, perPage, 2·perPage, … up to the last page.
   */
  lemma FullPassYieldsAll(c: Cursor, search: Search, all: seq<Value>, fuel: nat)
    requires c.query != Null && Serves(search, c.query, c.fields, all, c.perPage)
    requires fuel > |all|
    ensures Foreach(c, search, fuel).Some?
    ensures var p := Foreach(c, search, fuel).value;
            && p.yielded == Somes(all)
            && p.calls == [0] + Later(0, |all|, c.perPage)
            && p.end == Answer(false, false)
  {
    var c0 := RewindOf(c);
    var c1 := WithResult(c0, Slice(all, 0, c.perPage)).(executed := true);
    FirstPage(c, search, all);
    if |all| != 0 {
      assert Walks(c0, search, fuel, Somes(all), [0] + Later(0, |all|, c.perPage)) by {
        WalkFirstPage(c, search, all, fuel);
      }
    } else {
      assert Walks(c0, search, fuel, Somes(all), [0] + Later(0, |all|, c.perPage)) by {
        RunStops(c0, search, fuel);
        assert Later(0, 0, c.perPage) == [];
      }
    }
  }
}
