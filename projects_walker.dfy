/**
 * The project walker (src/Projects/Walker.php): an iterator over the
 * projects a query finds. It fetches a page of projects with the API's
 * `search` on the first `valid()`, answers from that page while it lasts,
 * and fetches again when the page is used up and the total says more are
 * to come. The refetch asks for start 0 again, and a projects result's
 * count always equals its total, so in practice a pass never refetches and
 * yields exactly the first page.
 */
module ProjectsWalker {
  import opened Wrappers
  import opened Json
  import opened Paging
  import ProjectsEntity
  import ProjectsResult
  import ProjectsApi
  import Http

  /** The page size unless the constructor is given a number. */
  const DefaultPerPage: int := 1000000

  /** The walker's fields, apart from the API object and the callback. */
  datatype Cursor = Cursor(
    query: Value,                           // null until `push`
    fields: Value,
    offset: int,                            // position in the current page
    current: int,                           // reset by `rewind`, otherwise unused
    total: Option<int>,                     // null until a page is set
    max: Option<int>,                       // the current page's count
    startAt: int,                           // the number of pages set so far
    perPage: int,
    executed: bool,
    entities: seq<ProjectsEntity.Entity>)   // the current page

  /** `$api->search($query, $startAt, $perPage)` as the walker sees it. */
  type Search = (Value, int, int) -> Fetched<ProjectsResult.Result>

  /**
   * What `valid()` meets when the search is the API's `search`: a result is a
   * page; `false` (an empty body) or a raw array fails `setResult(Result
   * $result)` with a `TypeError`; the client's exceptions arrive as they are;
   * a `TypeError` raised inside `api()` is a PHP `Error` as well.
   */
  function Observed(o: Http.Outcome<ProjectsApi.Answer>): (f: Fetched<ProjectsResult.Result>)
    ensures f.Page? <==> o.Returned? && o.value.Wrapped?
    ensures f.Page? ==> f.page == o.value.result
    ensures f.Unauthorized? <==> o == Http.Raised(Http.Failure.Unauthorized)
    ensures f.OtherError? <==> o == Http.Raised(Http.ClientError)
    ensures f.Fatal? <==> o.NoContent? || (o.Returned? && o.value.Raw?)
                          || o == Http.Raised(Http.TypeError) || o == Http.Raised(Http.UndefinedMethod)
  {
    match o
    case Returned(answer) => if answer.Wrapped? then Page(answer.result) else Fatal
    case NoContent => Fatal
    case Raised(failure) =>
      match failure
      case Unauthorized => Unauthorized
      case ClientError => OtherError
      case TypeError => Fatal
      case UndefinedMethod => Fatal
  }

  /** The callable given to `setDelegate`, applied to what `current()` finds (None for a missing offset). */
  type Delegate = Option<ProjectsEntity.Entity> -> Value

  /** What `current()` returns: the page entry itself, or what the delegate made of it. */
  datatype Shown = Element(entity: Option<ProjectsEntity.Entity>) | Delegated(value: Value)

  /** A fresh walker; a numeric constructor argument replaces the default page size. */
  function Initial(perPage: Option<int>): (c: Cursor)
    ensures c.query == Null && c.total.None? && !c.executed && c.startAt == 0 && c.offset == 0
    ensures c.perPage == if perPage.Some? then perPage.value else DefaultPerPage
  {
    Cursor(Null, Null, 0, 0, None, Some(0), 0,
           if perPage.Some? then perPage.value else DefaultPerPage, false, [])
  }

  /** `key()`: 0 before the first page, then the offset plus the pages already passed. */
  function Key(c: Cursor): (k: int)
    ensures c.startAt <= 0 ==> k == 0
    ensures c.startAt > 0 ==> k == c.offset + (c.startAt - 1) * c.perPage
  {
    KeyOf(c.startAt, c.offset, c.perPage)
  }

  /** The page entry at the offset; PHP reads a missing one as null. */
  function CurrentOf(c: Cursor): (e: Option<ProjectsEntity.Entity>)
    ensures e.Some? <==> 0 <= c.offset < |c.entities|
    ensures e.Some? ==> e.value == c.entities[c.offset]
  {
    if 0 <= c.offset < |c.entities| then Some(c.entities[c.offset]) else None
  }

  /** `next()`: only the offset moves. */
  function NextOf(c: Cursor): (d: Cursor)
    ensures d == c.(offset := c.offset + 1)
  {
    c.(offset := c.offset + 1)
  }

  /**
   * `setResult`: total, count and entities come from the result, the offset
   * goes back to 0 and one more page has been seen.
   */
  function WithResult(c: Cursor, r: ProjectsResult.Result): (d: Cursor)
    ensures d.total == ProjectsResult.GetTotal(r) && d.max == d.total
    ensures d.entities == ProjectsResult.GetEntities(r)
    ensures d.offset == 0 && d.startAt == c.startAt + 1
    ensures d.query == c.query && d.fields == c.fields && d.perPage == c.perPage && d.executed == c.executed
  {
    c.(total := ProjectsResult.GetTotal(r), offset := 0, max := ProjectsResult.GetCount(r),
       entities := ProjectsResult.GetEntities(r), startAt := c.startAt + 1)
  }

  /** The search of `valid()` and what it makes of the answer; `first` marks the first fetch. */
  function Fetch(c: Cursor, search: Search, first: bool): (s: Step<Cursor>)
  {
    match search(c.query, 0, c.perPage)
    case Page(r) =>
      if first then Step(Answer(!LooselyZero(ProjectsResult.GetTotal(r)), false), WithResult(c, r).(executed := true), Some(0))
      else Step(Answer(true, false), WithResult(c, r), Some(0))
    case Unauthorized => Step(Rethrown, c, Some(0))
    case OtherError => Step(Answer(false, true), c, Some(0))
    case Fatal => Step(Escaped, c, Some(0))
  }

  /**
   * `valid()`: a usage error before `push`; the first call fetches; later
   * calls refetch when the page is used up and the total is not reached,
   * and otherwise compare the position with the total.
   */
  function ValidStep(c: Cursor, search: Search): (s: Step<Cursor>)
    ensures s.verdict == UsageError <==> c.query == Null
    ensures s.call.Some? ==> s.call.value == 0
    ensures s.call.None? ==> s.next == c && (s.verdict.Answer? || s.verdict == UsageError)
    ensures !(s.verdict.Answer? && !s.verdict.logged) ==> s.next == c
  {
    if c.query == Null then Step(UsageError, c, None)
    else if !c.executed then Fetch(c, search, true)
    else if AtLeast(c.offset, c.max) && Below(Key(c), c.total) then Fetch(c, search, false)
    else Step(Answer(Below((c.startAt - 1) * c.perPage + c.offset, c.total), false), c, None)
  }

  /** `rewind()`: everything but the query, the fields and the page size is reset. */
  function RewindOf(c: Cursor): (d: Cursor)
    ensures d == Initial(Some(c.perPage)).(query := c.query, fields := c.fields)
  {
    c.(offset := 0, startAt := 0, current := 0, max := Some(0), total := None, executed := false, entities := [])
  }

  /** `count()`: `valid()` runs only while the total is unset. */
  function CountOf(c: Cursor, search: Search): (t: Tally<Cursor>)
    ensures c.total.Some? ==> t == Tally(Counted(c.total), c, None)
    ensures t.result.Counted? ==> t.result.total == t.next.total
    ensures t.result.Aborted? ==> t.next == c && !t.result.verdict.Answer?
  {
    if c.total.None? then
      var s := ValidStep(c, search);
      if s.verdict.Answer? then Tally(Counted(s.next.total), s.next, s.call)
      else Tally(Aborted(s.verdict), s.next, s.call)
    else Tally(Counted(c.total), c, None)
  }

  /**
   * The `while (valid()) { current(); next(); }` part of a `foreach`, for at
   * most `fuel` calls of `valid()`; None when the fuel runs out.
   */
  function Run(c: Cursor, search: Search, fuel: nat): (r: Option<Pass<ProjectsEntity.Entity, Cursor>>)
    ensures r.Some? ==> |r.value.yielded| < fuel && |r.value.calls| <= |r.value.yielded| + 1
    ensures r.Some? ==> !(r.value.end.Answer? && r.value.end.valid)
    decreases fuel
  {
    if fuel == 0 then None
    else
      var s := ValidStep(c, search);
      if s.verdict.Answer? && s.verdict.valid then
        Prepend(CurrentOf(s.next), CallsOf(s.call), Run(NextOf(s.next), search, fuel - 1))
      else Some(Pass([], CallsOf(s.call), s.verdict, s.next))
  }

  /** A whole `foreach`: `rewind()`, then the loop. */
  function Foreach(c: Cursor, search: Search, fuel: nat): (r: Option<Pass<ProjectsEntity.Entity, Cursor>>)
    ensures r == Run(Initial(Some(c.perPage)).(query := c.query, fields := c.fields), search, fuel)
  {
    Run(RewindOf(c), search, fuel)
  }

  class Walker {
    var query: Value
    var fields: Value
    var offset: int
    var current: int
    var total: Option<int>
    var max: Option<int>
    var startAt: int
    var perPage: int
    var executed: bool
    var entities: seq<ProjectsEntity.Entity>
    var callback: Option<Delegate>

    /** The walker's state as a value. */
    function State(): Cursor
      reads this
    {
      Cursor(query, fields, offset, current, total, max, startAt, perPage, executed, entities)
    }

    /** `new Walker($api, $perPage)`: only a numeric page size is taken. */
    constructor (perPage: Option<int>)
      ensures State() == Initial(perPage) && callback.None?
    {
      query, fields, offset, current := Null, Null, 0, 0;
      total, max, startAt, executed, entities := None, Some(0), 0, false, [];
      this.perPage := if perPage.Some? then perPage.value else DefaultPerPage;
      callback := None;
    }

    /** `push`: stores the query and the fields. */
    method Push(query: Value, fields: Value := Null)
      modifies this
      ensures State() == old(State()).(query := query, fields := fields) && callback == old(callback)
    {
      this.query, this.fields := query, fields;
    }

    /** `current()`: the entry at the offset, handed to the delegate when one is set. */
    function Current(): (r: Shown)
      reads this
      ensures callback.None? ==> r == Element(CurrentOf(State()))
      ensures callback.Some? ==> r == Delegated(callback.value(CurrentOf(State())))
    {
      match callback
      case None => Element(CurrentOf(State()))
      case Some(f) => Delegated(f(CurrentOf(State())))
    }

    /** `next()`. */
    method Next()
      modifies this
      ensures State() == NextOf(old(State())) && callback == old(callback)
    {
      offset := offset + 1;
    }

    /** `key()`. */
    function GetKey(): (k: int)
      reads this
      ensures k == Key(State())
    {
      if startAt > 0 then offset + (startAt - 1) * perPage else 0
    }

    /** `setResult`. */
    method SetResult(r: ProjectsResult.Result)
      modifies this
      ensures State() == WithResult(old(State()), r) && callback == old(callback)
    {
      total := ProjectsResult.GetTotal(r);
      offset := 0;
      max := ProjectsResult.GetCount(r);
      entities := ProjectsResult.GetEntities(r);
      startAt := startAt + 1;
    }

    /** `valid()`. */
    method Valid(search: Search) returns (v: Verdict, call: Option<int>)
      modifies this
      ensures var s := ValidStep(old(State()), search);
              v == s.verdict && State() == s.next && call == s.call
      ensures callback == old(callback)
    {
      if query == Null {
        return UsageError, None;
      }
      if !executed {
        call := Some(0);
        var answer := search(query, 0, perPage);
        match answer {
          case Page(r) =>
            SetResult(r);
            executed := true;
            v := Answer(!LooselyZero(ProjectsResult.GetTotal(r)), false);
          case Unauthorized =>
            v := Rethrown;
          case OtherError =>
            v := Answer(false, true);
          case Fatal =>
            v := Escaped;
        }
        return;
      }
      var key := GetKey();
      if AtLeast(offset, max) && Below(key, total) {
        call := Some(0);
        var answer := search(query, 0, perPage);
        match answer {
          case Page(r) =>
            SetResult(r);
            v := Answer(true, false);
          case Unauthorized =>
            v := Rethrown;
          case OtherError =>
            v := Answer(false, true);
          case Fatal =>
            v := Escaped;
        }
        return;
      }
      return Answer(Below((startAt - 1) * perPage + offset, total), false), None;
    }

    /** `rewind()`: the query, the fields, the page size and the callback are kept. */
    method Rewind()
      modifies this
      ensures State() == RewindOf(old(State())) && callback == old(callback)
    {
      offset, startAt, current, max, total, executed, entities := 0, 0, 0, Some(0), None, false, [];
    }

    /** `count()`. */
    method Count(search: Search) returns (n: Counted, call: Option<int>)
      modifies this
      ensures var t := CountOf(old(State()), search);
              n == t.result && State() == t.next && call == t.call
      ensures callback == old(callback)
    {
      if total.None? {
        var v;
        v, call := Valid(search);
        if v.Answer? {
          n := Counted(total);
        } else {
          n := Aborted(v);
        }
      } else {
        n, call := Counted(total), None;
      }
    }

    /** `setDelegate`: a callable (Some) is stored; anything else (None) is refused with an exception. */
    method SetDelegate(callable: Option<Delegate>) returns (refused: bool)
      modifies this
      ensures refused <==> callable.None?
      ensures callable.Some? ==> callback == callable
      ensures callable.None? ==> callback == old(callback)
      ensures State() == old(State())
    {
      if callable.None? {
        return true;
      }
      callback := callable;
      return false;
    }
  }

  /** Before `push` every `valid()`, and so every `count()` with no total yet, throws the usage error and changes nothing. */
  lemma UsageErrorBeforePush(c: Cursor, search: Search)
    requires c.query == Null
    ensures ValidStep(c, search) == Step(UsageError, c, None)
    ensures c.total.None? ==> CountOf(c, search) == Tally(Aborted(UsageError), c, None)
  {
  }

  /**
   * The first `valid()` after `push` searches from 0 with the page size,
   * takes the page, marks the query executed, and answers false exactly
   * when the total is 0 (or null).
   */
  lemma FirstValid(c: Cursor, search: Search)
    requires c.query != Null && !c.executed
    requires search(c.query, 0, c.perPage).Page?
    ensures var s := ValidStep(c, search);
            var r := search(c.query, 0, c.perPage).page;
            && s.call == Some(0)
            && s.next == WithResult(c, r).(executed := true)
            && s.next.executed && s.next.startAt == c.startAt + 1 && s.next.offset == 0
            && s.verdict == Answer(ProjectsResult.GetTotal(r).Some? && ProjectsResult.GetTotal(r).value != 0, false)
  {
  }

  /** Whatever the state, a search made by `valid()` asks for start 0. */
  lemma AlwaysFromZero(c: Cursor, search: Search)
    ensures ValidStep(c, search).call.Some? ==> ValidStep(c, search).call.value == 0
  {
  }

  /**
   * A failed search: an `UnauthorizedException` is rethrown, any other
   * exception is logged and makes `valid()` false, and a PHP `Error` passes
   * through `valid()` and `count()` uncaught; the state is unchanged.
   */
  lemma Failures(c: Cursor, search: Search)
    requires c.query != Null
    ensures var s := ValidStep(c, search);
            && (s.call.Some? && search(c.query, 0, c.perPage).Unauthorized? ==> s == Step(Rethrown, c, Some(0)))
            && (s.call.Some? && search(c.query, 0, c.perPage).OtherError? ==> s == Step(Answer(false, true), c, Some(0)))
            && (s.call.Some? && search(c.query, 0, c.perPage).Fatal? ==> s == Step(Escaped, c, Some(0)))
    ensures c.total.None? && !c.executed && search(c.query, 0, c.perPage).Fatal? ==>
              CountOf(c, search) == Tally(Aborted(Escaped), c, Some(0))
  {
  }

  /** When no search is due, `valid()` compares the position with the total and changes nothing. */
  lemma AnswerFromPage(c: Cursor, search: Search)
    requires c.query != Null && c.executed
    requires !(AtLeast(c.offset, c.max) && Below(Key(c), c.total))
    ensures ValidStep(c, search) == Step(Answer(Below((c.startAt - 1) * c.perPage + c.offset, c.total), false), c, None)
  {
  }

  /** `key()` is 0 before the first page; after it, `next()` moves it by one. */
  lemma KeyMoves(c: Cursor)
    ensures c.startAt == 0 ==> Key(c) == 0
    ensures c.startAt > 0 ==> Key(NextOf(c)) == Key(c) + 1
  {
  }

  /** Rewinding forgets everything but the query, the fields and the page size. */
  lemma RewindForgets(c: Cursor, d: Cursor)
    requires c.query == d.query && c.fields == d.fields && c.perPage == d.perPage
    ensures RewindOf(c) == RewindOf(d)
  {
  }

  /** A `foreach` keeps the query, the fields and the page size. */
  lemma {:induction false} RunKeeps(c: Cursor, search: Search, fuel: nat)
    requires Run(c, search, fuel).Some?
    ensures var d := Run(c, search, fuel).value.last;
            d.query == c.query && d.fields == c.fields && d.perPage == c.perPage
    decreases fuel
  {
    var s := ValidStep(c, search);
    if s.verdict.Answer? && s.verdict.valid {
      RunKeeps(NextOf(s.next), search, fuel - 1);
    }
  }

  /** A second `foreach` over the same walker repeats the first exactly. */
  lemma SecondPassRepeats(c: Cursor, search: Search, fuel: nat)
    requires Foreach(c, search, fuel).Some?
    ensures Foreach(Foreach(c, search, fuel).value.last, search, fuel) == Foreach(c, search, fuel)
  {
    RunKeeps(RewindOf(c), search, fuel);
    RewindForgets(Foreach(c, search, fuel).value.last, c);
  }

  /** `count()` with a total already set returns it and searches nothing. */
  lemma CountKnown(c: Cursor, search: Search)
    requires c.total.Some?
    ensures CountOf(c, search) == Tally(Counted(c.total), c, None)
  {
  }

  /**
   * Once a `count()` has fetched a page, a second `count()` searches
   * nothing and returns the same total.
   */
  lemma SecondCountNoFetch(c: Cursor, search: Search)
    requires c.query != Null && search(c.query, 0, c.perPage).Page?
    requires !c.executed || c.total.Some?
    ensures var t := CountOf(c, search);
            CountOf(t.next, search).call == None && CountOf(t.next, search).result == Counted(t.next.total)
  {
  }

  /** With a consistent page and no search due, the walk from offset `k` yields the rest of the page. */
  lemma {:induction false} RestOfPage(c: Cursor, search: Search, n: nat, fuel: nat)
    requires c.query != Null && c.executed && c.startAt == 1
    requires c.total == Some(n) && c.max == Some(n) && |c.entities| == n
    requires 0 <= c.offset <= n && fuel > n - c.offset
    ensures Run(c, search, fuel) == Some(Pass(Somes(c.entities[c.offset..]), [], Answer(false, false), c.(offset := n)))
    decreases n - c.offset
  {
    if c.offset < n {
      PageStep(c, search, n, fuel);
      RestOfPage(NextOf(c), search, n, fuel - 1);
      var es := c.entities;
      assert es[c.offset..] == [es[c.offset]] + es[c.offset + 1..];
      SomesCons(es[c.offset..]);
    } else {
      PageEnd(c, search, n, fuel);
      assert c.entities[c.offset..] == [];
    }
  }

  /** Inside the page, `valid()` answers true without a search and the walk yields the entity at the offset. */
  lemma PageStep(c: Cursor, search: Search, n: nat, fuel: nat)
    requires c.query != Null && c.executed && c.startAt == 1
    requires c.total == Some(n) && c.max == Some(n) && |c.entities| == n
    requires 0 <= c.offset < n && fuel > 0
    ensures Run(c, search, fuel) == Prepend(Some(c.entities[c.offset]), [], Run(NextOf(c), search, fuel - 1))
  {
    assert (c.startAt - 1) * c.perPage == 0;
    assert ValidStep(c, search) == Step(Answer(true, false), c, None);
  }

  /** At the end of the page, `valid()` answers false without a search. */
  lemma PageEnd(c: Cursor, search: Search, n: nat, fuel: nat)
    requires c.query != Null && c.executed && c.startAt == 1
    requires c.total == Some(n) && c.max == Some(n) && c.offset == n && fuel > 0
    ensures Run(c, search, fuel) == Some(Pass([], [], Answer(false, false), c))
  {
    assert (c.startAt - 1) * c.perPage == 0;
    assert ValidStep(c, search) == Step(Answer(false, false), c, None);
  }

  /**
   * A whole `foreach` after `push` yields exactly the entities of the first
   * page, in order, and makes exactly one search, from start 0: the page
   * count equals the total, so the refetch branch is never taken.
   */
  lemma FullPassYieldsFirstPage(c: Cursor, search: Search, fuel: nat)
    requires c.query != Null
    requires search(c.query, 0, c.perPage).Page? && ProjectsResult.Consistent(search(c.query, 0, c.perPage).page)
    requires fuel > |search(c.query, 0, c.perPage).page.entities|
    ensures Foreach(c, search, fuel).Some?
    ensures var p := Foreach(c, search, fuel).value;
            && p.yielded == Somes(ProjectsResult.GetEntities(search(c.query, 0, c.perPage).page))
            && p.calls == [0] && p.end == Answer(false, false)
  {
    var r := search(c.query, 0, c.perPage).page;
    var c0 := RewindOf(c);
    var c1 := WithResult(c0, r).(executed := true);
    assert ValidStep(c0, search) == Step(Answer(!LooselyZero(r.total), false), c1, Some(0));
    if !LooselyZero(r.total) {
      var n := r.total.value;
      RestOfPage(NextOf(c1), search, n, fuel - 1);
      SomesCons(c1.entities);
      assert c1.entities[1..] == c1.entities[0 + 1..];
    }
  }
}
