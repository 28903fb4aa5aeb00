/**
 * The projects API client (src/Projects/Api.php): an endpoint and an options
 * word, the requests its query methods send, and the mapping of the reply in
 * `api()`, which hands back either the decoded JSON itself or a projects
 * result built from it.
 */
module ProjectsApi {
  import opened Wrappers
  import opened Json
  import opened PhpStrings
  import opened Http
  import ProjectsResult

  const SearchPath: string := "/rest/api/latest/project/search"
  const AllPath: string := "/rest/api/latest/project"
  const MembersPath: string := "/rest/api/latest/project/member"

  /** The `expand` value the query methods always send. */
  const QueryExpand: string := "groups,applicationRoles,name"

  /** The paging window the query methods send when called without one: `$start_at = 0`, `$max_results = 1000`. */
  const DefaultStartAt: Value := Num(0)
  const DefaultMaxResults: Value := Num(1000)

  /** The `expand` value `getEntities` sends when called without one: `$expand = ''`. */
  const DefaultExpand: Value := Str("")

  /** The `expand` value `getProject` sends. */
  const ProjectExpand: string := "description,lead,url,projectKeys"

  /** What a successful `api()` call hands back: the decoded JSON when asked for raw, a result otherwise. */
  datatype Answer = Raw(json: Value) | Wrapped(result: ProjectsResult.Result)

  class Api {
    var endpoint: Option<string>
    var options: Value

    /** `new Api($endpoint, ...)`: the endpoint starts null, so the trimmed URL is always stored. */
    constructor (url: string)
      ensures endpoint == Some(RtrimSlashes(url)) && options == Num(0)
    {
      endpoint := Some(RtrimSlashes(url));
      options := Num(0);
    }

    /** `setOptions`: stores the argument as it is. */
    method SetOptions(options: Value)
      modifies this
      ensures this.options == options && endpoint == old(endpoint)
    {
      this.options := options;
    }

    /** `getEndpoint`. */
    function GetEndpoint(): (r: Option<string>)
      reads this
      ensures r == endpoint
    {
      endpoint
    }

    /** `setEndpoint`: trailing slashes are stripped and the endpoint updated when it changed; nothing is cleared. */
    method SetEndpoint(url: string)
      modifies this
      ensures endpoint == Some(RtrimSlashes(url)) && options == old(options)
    {
      var trimmed := RtrimSlashes(url);
      if Some(trimmed) != endpoint {
        endpoint := Some(trimmed);
      }
    }

    /** What `api()` hands the client for a request: no file upload, no debugging. */
    function Sending(req: Request): (s: Sent)
      reads this
      ensures s.request == req && s.endpoint == endpoint && !s.isFile && !s.debug
    {
      Sent(req, endpoint, false, false)
    }

    /**
     * `api()`: an empty body is PHP's `false`. A non-empty body is decoded;
     * with `raw` the decoded value is returned as it is (null for a body that
     * is not JSON), otherwise it is wrapped in a projects result, whose
     * constructor takes only an array.
     */
    function Respond(client: Client, decode: Decoder, req: Request, raw: bool): (r: Outcome<Answer>)
      reads this
      ensures r.NoContent? <==> client(Sending(req)) == Body("")
      ensures client(Sending(req)).Thrown? ==> r == Raised(client(Sending(req)).failure)
      ensures raw && client(Sending(req)).Body? && client(Sending(req)).text != "" ==>
                r == Returned(Raw(decode(client(Sending(req)).text)))
      ensures !raw && r.Returned? ==>
                client(Sending(req)).Body? && r.value.Wrapped?
                && var json := decode(client(Sending(req)).text);
                   IsArray(json) && ProjectsResult.FromPayload(json) == Some(r.value.result)
      ensures r.Raised? && client(Sending(req)).Body? ==>
                !raw && r.failure == TypeError
                && var json := decode(client(Sending(req)).text);
                   !IsArray(json) || ProjectsResult.Rejects(json)
    {
      match client(Sending(req))
      case Thrown(f) => Raised(f)
      case Body(text) =>
        if |text| == 0 then NoContent
        else
          var json := decode(text);
          if raw then Returned(Raw(json))
          else if !IsArray(json) then Raised(TypeError)
          else
            match ProjectsResult.FromPayload(json)
            case Some(result) => Returned(Wrapped(result))
            case None => Raised(TypeError)
    }
  }

  /** The request `getEntities` sends: GET /rest/api/latest/groups/<key> with `expand`. */
  function EntitiesRequest(entityKey: string, expand: Value := DefaultExpand): (q: Request)
    ensures q.verb == GET && q.path == "/rest/api/latest/groups/" + entityKey
    ensures Keys(q.params) == {"expand"} && Lookup(q.params, "expand") == Some(expand)
  {
    var params := [("expand", expand)];
    assert params[0].0 == "expand";
    Request(GET, "/rest/api/latest/groups/" + entityKey, params)
  }

  /** The parameters `all` sends: the paging window and the fixed `expand`. */
  function PagingParams(startAt: Value, maxResults: Value): (ps: Record)
    ensures Keys(ps) == {"startAt", "maxResults", "expand"} && UniqueKeys(ps)
    ensures Lookup(ps, "startAt") == Some(startAt) && Lookup(ps, "maxResults") == Some(maxResults)
    ensures Lookup(ps, "expand") == Some(Str(QueryExpand))
  {
    var ps := [("startAt", startAt), ("maxResults", maxResults), ("expand", Str(QueryExpand))];
    assert ps[0].0 == "startAt" && ps[1].0 == "maxResults" && ps[2].0 == "expand";
    assert Keys(ps) == {"startAt", "maxResults", "expand"} by {
      assert forall k :: k in Keys(ps) ==> k == ps[0].0 || k == ps[1].0 || k == ps[2].0;
    }
    LookupUnique(ps, 0);
    LookupUnique(ps, 1);
    LookupUnique(ps, 2);
    ps
  }

  /** The parameters `search` and `getMembers` send: the JQL query first, then the paging window and `expand`. */
  function QueryParams(query: Value, startAt: Value, maxResults: Value): (ps: Record)
    ensures Keys(ps) == {"jql", "startAt", "maxResults", "expand"} && UniqueKeys(ps)
    ensures Lookup(ps, "jql") == Some(query)
    ensures forall k :: k != "jql" ==> Lookup(ps, k) == Lookup(PagingParams(startAt, maxResults), k)
  {
    var rest := PagingParams(startAt, maxResults);
    var ps := [("jql", query)] + rest;
    KeysCons(("jql", query), rest);
    assert "jql" !in Keys(rest);
    forall i, j | 0 <= i < j < |ps| ensures ps[i].0 != ps[j].0 {
      if i == 0 {
        assert ps[j].0 == rest[j - 1].0 && rest[j - 1].0 in Keys(rest);
      } else {
        assert ps[i] == rest[i - 1] && ps[j] == rest[j - 1];
      }
    }
    LookupUnique(ps, 0);
    forall k | k != "jql" ensures Lookup(ps, k) == Lookup(rest, k) {
      LookupUnderPrefix(("jql", query), rest, k);
    }
    ps
  }

  /** The request `search` sends. */
  function SearchRequest(query: Value, startAt: Value := DefaultStartAt, maxResults: Value := DefaultMaxResults): (q: Request)
    ensures q.verb == GET && q.path == SearchPath && q.params == QueryParams(query, startAt, maxResults)
    ensures Keys(q.params) == {"jql", "startAt", "maxResults", "expand"}
    ensures Lookup(q.params, "jql") == Some(query)
    ensures Lookup(q.params, "startAt") == Some(startAt) && Lookup(q.params, "maxResults") == Some(maxResults)
    ensures Lookup(q.params, "expand") == Some(Str(QueryExpand))
  {
    Request(GET, SearchPath, QueryParams(query, startAt, maxResults))
  }

  /** The request `all` sends. */
  function AllRequest(startAt: Value := DefaultStartAt, maxResults: Value := DefaultMaxResults): (q: Request)
    ensures q.verb == GET && q.path == AllPath && q.params == PagingParams(startAt, maxResults)
    ensures Keys(q.params) == {"startAt", "maxResults", "expand"}
    ensures Lookup(q.params, "startAt") == Some(startAt) && Lookup(q.params, "maxResults") == Some(maxResults)
  {
    Request(GET, AllPath, PagingParams(startAt, maxResults))
  }

  /** The request `getMembers` sends. */
  function MembersRequest(query: Value, startAt: Value := DefaultStartAt, maxResults: Value := DefaultMaxResults): (q: Request)
    ensures q.verb == GET && q.path == MembersPath && q.params == QueryParams(query, startAt, maxResults)
    ensures Keys(q.params) == {"jql", "startAt", "maxResults", "expand"}
    ensures Lookup(q.params, "jql") == Some(query)
    ensures Lookup(q.params, "startAt") == Some(startAt) && Lookup(q.params, "maxResults") == Some(maxResults)
  {
    Request(GET, MembersPath, QueryParams(query, startAt, maxResults))
  }

  /** The request `getProject` sends: GET /rest/api/2/project/<key> with a fixed `expand`. */
  function ProjectRequest(key: string): (q: Request)
    ensures q.verb == GET && q.path == "/rest/api/2/project/" + key
    ensures Keys(q.params) == {"expand"} && Lookup(q.params, "expand") == Some(Str(ProjectExpand))
  {
    var params := [("expand", Str(ProjectExpand))];
    assert params[0].0 == "expand";
    Request(GET, "/rest/api/2/project/" + key, params)
  }

  /**
   * `all` sends what `search` sends, without the query: the same path
   * family, the same paging and `expand`, and no `jql` key.
   */
  lemma AllIsSearchWithoutQuery(query: Value, startAt: Value, maxResults: Value)
    ensures "jql" !in Keys(AllRequest(startAt, maxResults).params)
    ensures Keys(SearchRequest(query, startAt, maxResults).params) == Keys(AllRequest(startAt, maxResults).params) + {"jql"}
    ensures forall k :: k != "jql" ==>
              Lookup(SearchRequest(query, startAt, maxResults).params, k) == Lookup(AllRequest(startAt, maxResults).params, k)
  {
  }

  /** `getMembers` sends exactly the parameters `search` sends, to another path. */
  lemma MembersIsSearchElsewhere(query: Value, startAt: Value, maxResults: Value)
    ensures MembersRequest(query, startAt, maxResults).params == SearchRequest(query, startAt, maxResults).params
    ensures MembersRequest(query, startAt, maxResults).path != SearchRequest(query, startAt, maxResults).path
  {
    assert MembersPath[25] != SearchPath[25];
  }

  /**
   * Called without a window, `search`, `all` and `getMembers` ask for
   * `startAt` 0 and `maxResults` 1000, and `getEntities` sends an empty
   * `expand`.
   */
  lemma DefaultArguments(query: Value, entityKey: string)
    ensures Lookup(SearchRequest(query).params, "startAt") == Some(Num(0))
    ensures Lookup(SearchRequest(query).params, "maxResults") == Some(Num(1000))
    ensures Lookup(AllRequest().params, "startAt") == Some(Num(0))
    ensures Lookup(AllRequest().params, "maxResults") == Some(Num(1000))
    ensures Lookup(MembersRequest(query).params, "startAt") == Some(Num(0))
    ensures Lookup(MembersRequest(query).params, "maxResults") == Some(Num(1000))
    ensures Lookup(EntitiesRequest(entityKey).params, "expand") == Some(Str(""))
  {
  }
}
