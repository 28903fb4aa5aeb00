/**
 * The groups API client (src/Jira/Groups/Api.php): an endpoint and an
 * options word, the requests `getEntities`, `search` and `getMembers` send,
 * and the mapping of the reply in `api()`. The groups result class is not
 * part of this model: a successful call is represented by the decoded
 * payload handed to its constructor.
 */
module GroupsApi {
  import opened Wrappers
  import opened Json
  import opened PhpStrings
  import opened Http

  const SearchPath: string := "/rest/api/latest/groups/picker"
  const MembersPath: string := "/rest/api/latest/group/member"

  /** The `expand` value `search` and `getMembers` always send. */
  const QueryExpand: string := "groups,applicationRoles,name"

  /** The paging window the query methods send when called without one: `$start_at = 0`, `$max_results = 1000`. */
  const DefaultStartAt: Value := Num(0)
  const DefaultMaxResults: Value := Num(1000)

  /** The `expand` value `getEntities` sends when called without one: `$expand = ''`. */
  const DefaultExpand: Value := Str("")

  /** `new Result($json)` of the groups namespace, kept as the payload it was given. */
  datatype Result = Result(payload: Value)

  class Api {
    var endpoint: Option<string>
    var options: Value

    /** `new Api($endpoint, ...)`: the endpoint starts null, so the trimmed URL is always stored. */
    constructor (url: string)
      ensures endpoint == Some(RtrimSlashes(url)) && options == Num(0)
    {
      endpoint := Some(RtrimSlashes(url));
      options := Num(0);
    }

    /** `setOptions`: stores the argument as it is. */
    method SetOptions(options: Value)
      modifies this
      ensures this.options == options && endpoint == old(endpoint)
    {
      this.options := options;
    }

    /** `getEndpoint`. */
    function GetEndpoint(): (r: Option<string>)
      reads this
      ensures r == endpoint
    {
      endpoint
    }

    /** `setEndpoint`: trailing slashes are stripped and the endpoint updated when it changed; no cache is cleared. */
    method SetEndpoint(url: string)
      modifies this
      ensures endpoint == Some(RtrimSlashes(url)) && options == old(options)
    {
      var trimmed := RtrimSlashes(url);
      if Some(trimmed) != endpoint {
        endpoint := Some(trimmed);
      }
    }

    /** What `api()` hands the client for a request: no file upload, no debugging. */
    function Sending(req: Request): (s: Sent)
      reads this
      ensures s.request == req && s.endpoint == endpoint && !s.isFile && !s.debug
    {
      Sent(req, endpoint, false, false)
    }

    /** `api()`: an empty body is PHP's `false`; a non-empty one is decoded and handed to a groups result. */
    function Respond(client: Client, decode: Decoder, req: Request): (r: Outcome<Result>)
      reads this
      ensures r.NoContent? <==> client(Sending(req)) == Body("")
      ensures r.Raised? <==> client(Sending(req)).Thrown?
      ensures r.Raised? ==> r.failure == client(Sending(req)).failure
      ensures r.Returned? ==> client(Sending(req)).Body? && r.value.payload == decode(client(Sending(req)).text)
    {
      match client(Sending(req))
      case Thrown(f) => Raised(f)
      case Body(text) => if |text| == 0 then NoContent else Returned(Result(decode(text)))
    }
  }

  /** The request `getEntities` sends: GET /rest/api/latest/groups/<key> with `expand`. */
  function EntitiesRequest(entityKey: string, expand: Value := DefaultExpand): (q: Request)
    ensures q.verb == GET && q.path == "/rest/api/latest/groups/" + entityKey
    ensures Keys(q.params) == {"expand"} && Lookup(q.params, "expand") == Some(expand)
  {
    var params := [("expand", expand)];
    assert params[0].0 == "expand";
    Request(GET, "/rest/api/latest/groups/" + entityKey, params)
  }

  /** The parameters of a query: the query under `name`, then the paging window and the fixed `expand`. */
  function QueryParams(name: string, query: Value, startAt: Value, maxResults: Value): (ps: Record)
    requires name !in {"startAt", "maxResults", "expand"}
    ensures Keys(ps) == {name, "startAt", "maxResults", "expand"} && UniqueKeys(ps)
    ensures Lookup(ps, name) == Some(query)
    ensures Lookup(ps, "startAt") == Some(startAt) && Lookup(ps, "maxResults") == Some(maxResults)
    ensures Lookup(ps, "expand") == Some(Str(QueryExpand))
  {
    var ps := [(name, query), ("startAt", startAt), ("maxResults", maxResults), ("expand", Str(QueryExpand))];
    assert ps[0].0 == name && ps[1].0 == "startAt" && ps[2].0 == "maxResults" && ps[3].0 == "expand";
    assert Keys(ps) == {name, "startAt", "maxResults", "expand"} by {
      assert forall k :: k in Keys(ps) ==> k == ps[0].0 || k == ps[1].0 || k == ps[2].0 || k == ps[3].0;
    }
    LookupUnique(ps, 0);
    LookupUnique(ps, 1);
    LookupUnique(ps, 2);
    LookupUnique(ps, 3);
    ps
  }

  /** The request `search` sends: the query travels as `username`. */
  function SearchRequest(query: Value, startAt: Value := DefaultStartAt, maxResults: Value := DefaultMaxResults): (q: Request)
    ensures q.verb == GET && q.path == SearchPath
    ensures Keys(q.params) == {"username", "startAt", "maxResults", "expand"} && UniqueKeys(q.params)
    ensures Lookup(q.params, "username") == Some(query) && "groupname" !in Keys(q.params)
    ensures Lookup(q.params, "startAt") == Some(startAt) && Lookup(q.params, "maxResults") == Some(maxResults)
    ensures Lookup(q.params, "expand") == Some(Str(QueryExpand))
  {
    Request(GET, SearchPath, QueryParams("username", query, startAt, maxResults))
  }

  /** The request `getMembers` sends: the query travels as `groupname`. */
  function MembersRequest(query: Value, startAt: Value := DefaultStartAt, maxResults: Value := DefaultMaxResults): (q: Request)
    ensures q.verb == GET && q.path == MembersPath
    ensures Keys(q.params) == {"groupname", "startAt", "maxResults", "expand"} && UniqueKeys(q.params)
    ensures Lookup(q.params, "groupname") == Some(query) && "username" !in Keys(q.params)
    ensures Lookup(q.params, "startAt") == Some(startAt) && Lookup(q.params, "maxResults") == Some(maxResults)
    ensures Lookup(q.params, "expand") == Some(Str(QueryExpand))
  {
    Request(GET, MembersPath, QueryParams("groupname", query, startAt, maxResults))
  }

  /**
   * `search` and `getMembers` send the same paging and `expand`; they differ
   * only in the path and in the name the query travels under.
   */
  lemma SearchAndMembersDiffer(query: Value, startAt: Value, maxResults: Value, k: string)
    requires k != "username" && k != "groupname"
    ensures Lookup(SearchRequest(query, startAt, maxResults).params, k)
            == Lookup(MembersRequest(query, startAt, maxResults).params, k)
    ensures SearchRequest(query, startAt, maxResults).path != MembersRequest(query, startAt, maxResults).path
  {
    var s := QueryParams("username", query, startAt, maxResults);
    var m := QueryParams("groupname", query, startAt, maxResults);
    if k !in {"startAt", "maxResults", "expand"} {
      assert k !in Keys(s) && k !in Keys(m);
    }
    assert |SearchPath| != |MembersPath|;
  }

  /**
   * Called without a window, `search` and `getMembers` ask for `startAt` 0
   * and `maxResults` 1000, and `getEntities` sends an empty `expand`.
   */
  lemma DefaultArguments(query: Value, entityKey: string)
    ensures Lookup(SearchRequest(query).params, "startAt") == Some(Num(0))
    ensures Lookup(SearchRequest(query).params, "maxResults") == Some(Num(1000))
    ensures Lookup(MembersRequest(query).params, "startAt") == Some(Num(0))
    ensures Lookup(MembersRequest(query).params, "maxResults") == Some(Num(1000))
    ensures Lookup(EntitiesRequest(entityKey).params, "expand") == Some(Str(""))
  {
  }
}
