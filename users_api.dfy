/**
 * The users API client (src/Jira/Users/Api.php): an endpoint and an options
 * word, the requests `getUsers` and `search` send, the mapping of the reply
 * in `api()`, and the field renaming of `automapFields`.
 */
module UsersApi {
  import opened Wrappers
  import opened Json
  import opened PhpStrings
  import opened Http
  import UsersResult

  /** The path `search` requests. */
  const SearchPath: string := "/rest/api/latest/users/search"

  /** The `expand` value `search` always sends. */
  const SearchExpand: string := "groups,applicationRoles,name"

  /** The arguments `search` takes when called with the user name alone: `0`, `1000` and `'*'`. */
  const DefaultStartAt: Value := Num(0)
  const DefaultMaxResults: Value := Num(1000)
  const DefaultFields: Value := Str("*")

  /** The `expand` value `getUsers` sends when called without one: `$expand = ''`. */
  const DefaultExpand: Value := Str("")

  class Api {
    var endpoint: Option<string>
    var options: Value

    /** The object as PHP creates it, before the constructor's first statement: no endpoint, options 0. */
    constructor Blank()
      ensures endpoint == None && options == Num(0)
    {
      endpoint := None;
      options := Num(0);
    }

    /**
     * `new Api($endpoint, ...)`. The constructor starts with `setEndpoint`,
     * and since the endpoint is still null the trimmed URL always differs
     * from it: the endpoint is stored and then the missing `clearLocalCaches`
     * is called, so construction always ends in an error.
     */
    static method New(url: string) returns (api: Api, failure: Option<Failure>)
      ensures fresh(api) && api.endpoint == Some(RtrimSlashes(url)) && api.options == Num(0)
      ensures failure == Some(UndefinedMethod)
    {
      api := new Api.Blank();
      failure := api.SetEndpoint(url);
    }

    /** `setOptions`: stores the argument as it is. */
    method SetOptions(options: Value)
      modifies this
      ensures this.options == options && endpoint == old(endpoint)
    {
      this.options := options;
    }

    /** `getEndpoint`. */
    function GetEndpoint(): (r: Option<string>)
      reads this
      ensures r == endpoint
    {
      endpoint
    }

    /**
     * `setEndpoint`: trailing slashes are stripped; an unchanged endpoint is
     * left alone, a changed one is stored and then the call to the missing
     * `clearLocalCaches` fails.
     */
    method SetEndpoint(url: string) returns (failure: Option<Failure>)
      modifies this
      ensures endpoint == Some(RtrimSlashes(url)) && options == old(options)
      ensures failure.Some? <==> old(endpoint) != Some(RtrimSlashes(url))
      ensures failure.Some? ==> failure.value == UndefinedMethod
    {
      var trimmed := RtrimSlashes(url);
      if Some(trimmed) != endpoint {
        endpoint := Some(trimmed);
        return Some(UndefinedMethod);
      }
      return None;
    }

    /** What `api()` hands the client for a request: no file upload, no debugging. */
    function Sending(req: Request): (s: Sent)
      reads this
      ensures s.request == req && s.endpoint == endpoint && !s.isFile && !s.debug
    {
      Sent(req, endpoint, false, false)
    }

    /**
     * `api()`: an empty body is PHP's `false`; a non-empty one is decoded
     * and wrapped in a users result, whose constructor takes only an array.
     */
    function Respond(client: Client, decode: Decoder, req: Request): (r: Outcome<UsersResult.Result>)
      reads this
      ensures r.NoContent? <==> client(Sending(req)) == Body("")
      ensures client(Sending(req)).Thrown? ==> r == Raised(client(Sending(req)).failure)
      ensures r.Returned? ==>
                client(Sending(req)).Body? && r.value.result == decode(client(Sending(req)).text)
                && r.value.total == |Values(r.value.result)|
      ensures r.Raised? && client(Sending(req)).Body? ==>
                r.failure == TypeError && !IsArray(decode(client(Sending(req)).text))
    {
      match client(Sending(req))
      case Thrown(f) => Raised(f)
      case Body(text) =>
        if |text| == 0 then NoContent
        else
          var json := decode(text);
          if IsArray(json) then
            UsersResult.PayloadKept(json);
            Returned(UsersResult.FromPayload(json))
          else Raised(TypeError)
    }

    /**
     * `automapFields`: the `fields` entry, when set, is rebuilt with each key
     * renamed by the field-name cache; everything else is returned as it is.
     * The cache is `$this->fields`, which this class never assigns.
     */
    method AutomapFields(user: Record, names: map<string, string>) returns (r: Record)
      ensures r == Automapped(user, names)
    {
      var fields := LookupOrNull(user, "fields");
      if fields == Null {
        return user;
      }
      var entries := FieldEntries(fields);
      var x: Record := [];
      for i := 0 to |entries|
        invariant x == Renamed(entries[..i], names)
      {
        var (kk, vv) := entries[i];
        assert entries[..i + 1][..i] == entries[..i];
        x := Put(x, NewName(kk, names), vv);
      }
      assert entries[..|entries|] == entries;
      r := Put(user, "fields", Object(x));
    }
  }

  /**
   * The request `getUsers` sends: GET /rest/api/latest/users/<key>, with
   * only the `expand` parameter.
   */
  function UsersRequest(userKey: string, expand: Value := DefaultExpand): (q: Request)
    ensures q.verb == GET && q.path == "/rest/api/latest/users/" + userKey
    ensures Keys(q.params) == {"expand"} && Lookup(q.params, "expand") == Some(expand)
  {
    var params := [("expand", expand)];
    assert params[0].0 == "expand";
    Request(GET, "/rest/api/latest/users/" + userKey, params)
  }

  /**
   * The request `search` sends: GET /rest/api/latest/users/search with the
   * user name, the paging parameters and a fixed `expand`. The `fields`
   * argument is accepted and never sent.
   */
  function SearchRequest(username: Value, startAt: Value := DefaultStartAt, maxResults: Value := DefaultMaxResults,
                         fields: Value := DefaultFields): (q: Request)
    ensures q.verb == GET && q.path == SearchPath
    ensures Keys(q.params) == {"username", "startAt", "maxResults", "expand"} && UniqueKeys(q.params)
    ensures Lookup(q.params, "username") == Some(username)
    ensures Lookup(q.params, "startAt") == Some(startAt)
    ensures Lookup(q.params, "maxResults") == Some(maxResults)
    ensures Lookup(q.params, "expand") == Some(Str(SearchExpand))
  {
    var params := [("username", username), ("startAt", startAt), ("maxResults", maxResults), ("expand", Str(SearchExpand))];
    assert params[0].0 == "username" && params[1].0 == "startAt" && params[2].0 == "maxResults" && params[3].0 == "expand";
    assert Keys(params) == {"username", "startAt", "maxResults", "expand"} by {
      assert forall k :: k in Keys(params) ==> k == params[0].0 || k == params[1].0 || k == params[2].0 || k == params[3].0;
    }
    LookupUnique(params, 0);
    LookupUnique(params, 1);
    LookupUnique(params, 2);
    LookupUnique(params, 3);
    Request(GET, SearchPath, params)
  }

  /** The `fields` argument of `search` has no effect on what is sent. */
  lemma SearchIgnoresFields(username: Value, startAt: Value, maxResults: Value, f: Value, g: Value)
    ensures SearchRequest(username, startAt, maxResults, f) == SearchRequest(username, startAt, maxResults, g)
  {
  }

  /**
   * Called with the user name alone, `search` asks for `startAt` 0 and
   * `maxResults` 1000, and `getUsers` without an `expand` sends an empty one.
   */
  lemma DefaultArguments(username: Value, userKey: string)
    ensures Lookup(SearchRequest(username).params, "startAt") == Some(Num(0))
    ensures Lookup(SearchRequest(username).params, "maxResults") == Some(Num(1000))
    ensures forall f :: SearchRequest(username) == SearchRequest(username, Num(0), Num(1000), f)
    ensures Lookup(UsersRequest(userKey).params, "expand") == Some(Str(""))
  {
  }

  /** The cache entry a field key is renamed to, or the key itself when the cache has none. */
  function NewName(k: string, names: map<string, string>): (n: string)
    ensures k in names ==> n == names[k]
    ensures k !in names ==> n == k
  {
    if k in names then names[k] else k
  }

  /** The pairs `foreach` visits in the `fields` entry; a scalar yields none. */
  function FieldEntries(fields: Value): Record {
    if IsArray(fields) then Entries(fields) else []
  }

  /** The array `$x` the renaming loop builds: each pair assigned under its new name, in order. */
  function Renamed(fs: Record, names: map<string, string>): Record {
    if fs == [] then []
    else
      var last := fs[|fs| - 1];
      Put(Renamed(fs[..|fs| - 1], names), NewName(last.0, names), last.1)
  }

  /** Every pair with its key renamed, duplicates and all: the reference the loop is read against. */
  function Relabel(fs: Record, names: map<string, string>): (r: Record)
    ensures |r| == |fs|
    ensures forall i :: 0 <= i < |fs| ==> r[i] == (NewName(fs[i].0, names), fs[i].1)
  {
    seq(|fs|, i requires 0 <= i < |fs| => (NewName(fs[i].0, names), fs[i].1))
  }

  /** What `automapFields` returns for a user record. */
  function Automapped(user: Record, names: map<string, string>): (r: Record)
    ensures LookupOrNull(user, "fields") == Null ==> r == user
    ensures LookupOrNull(user, "fields") != Null ==>
              Lookup(r, "fields") == Some(Object(Renamed(FieldEntries(LookupOrNull(user, "fields")), names)))
  {
    var fields := LookupOrNull(user, "fields");
    if fields == Null then user
    else
      var fs := Object(Renamed(FieldEntries(fields), names));
      LookupPut(user, "fields", fs, "fields");
      Put(user, "fields", fs)
  }

  /**
   * Each name of the rebuilt array reads as the value of the last pair
   * renamed to it: when two keys map to the same name, the later one wins.
   */
  lemma {:induction false} RenamedLookup(fs: Record, names: map<string, string>, n: string)
    ensures Lookup(Renamed(fs, names), n) == Lookup(Relabel(fs, names), n)
  {
    if fs != [] {
      var pre := fs[..|fs| - 1];
      var last := fs[|fs| - 1];
      RenamedLookup(pre, names, n);
      LookupPut(Renamed(pre, names), NewName(last.0, names), last.1, n);
      assert Relabel(fs, names)[..|fs| - 1] == Relabel(pre, names);
    }
  }

  /** The rebuilt array never holds a name twice. */
  lemma {:induction false} RenamedUnique(fs: Record, names: map<string, string>)
    ensures UniqueKeys(Renamed(fs, names))
  {
    if fs != [] {
      var last := fs[|fs| - 1];
      RenamedUnique(fs[..|fs| - 1], names);
      PutUnique(Renamed(fs[..|fs| - 1], names), NewName(last.0, names), last.1);
    }
  }

  /** With an empty cache the rebuilt array reads exactly as the original `fields` pairs. */
  lemma EmptyCacheKeepsFields(fs: Record, n: string)
    ensures Lookup(Renamed(fs, map[]), n) == Lookup(fs, n)
  {
    RenamedLookup(fs, map[], n);
    assert Relabel(fs, map[]) == fs;
  }

  /**
   * Otherwise only `fields` changes: every other top-level key reads as
   * before, and `fields` becomes the renamed array.
   */
  lemma AutomapRewritesFields(user: Record, names: map<string, string>, k: string)
    requires LookupOrNull(user, "fields") != Null
    ensures Keys(Automapped(user, names)) == Keys(user)
    ensures k != "fields" ==> Lookup(Automapped(user, names), k) == Lookup(user, k)
    ensures Lookup(Automapped(user, names), "fields") == Some(Object(Renamed(FieldEntries(LookupOrNull(user, "fields")), names)))
  {
    var fs := Object(Renamed(FieldEntries(LookupOrNull(user, "fields")), names));
    PutKeys(user, "fields", fs);
    LookupPut(user, "fields", fs, k);
  }
}
