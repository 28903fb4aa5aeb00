/**
 * The raw-fetch API client (src/Jira/AuthenticatedFetch/Api.php): an
 * endpoint, an options word and four client-side caches that are emptied
 * whenever the endpoint changes; `fetch` returns the response body as it
 * is, without decoding it.
 */
module FetchApi {
  import opened Wrappers
  import opened Json
  import opened PhpStrings
  import opened Http

  class Api {
    var endpoint: Option<string>
    var options: Value
    /** The caches of fields, priorities, statuses and resolutions: null until something is loaded. */
    var fields: Value
    var priorities: Value
    var statuses: Value
    var resolutions: Value

    /** All four caches are empty. */
    predicate CachesCleared()
      reads this
    {
      fields == Null && priorities == Null && statuses == Null && resolutions == Null
    }

    /**
     * `new Api($endpoint, ...)`: the endpoint starts null, so the constructor's
     * `setEndpoint` always stores the trimmed URL and clears the caches.
     */
    constructor (url: string)
      ensures endpoint == Some(RtrimSlashes(url)) && options == Num(0) && CachesCleared()
    {
      endpoint := Some(RtrimSlashes(url));
      options := Num(0);
      fields, priorities, statuses, resolutions := Null, Null, Null, Null;
    }

    /** `setOptions`: stores its argument as it is and touches nothing else. */
    method SetOptions(options: Value)
      modifies this
      ensures this.options == options && endpoint == old(endpoint)
      ensures fields == old(fields) && priorities == old(priorities)
      ensures statuses == old(statuses) && resolutions == old(resolutions)
    {
      this.options := options;
    }

    /** `getEndpoint`. */
    function GetEndpoint(): (r: Option<string>)
      reads this
      ensures r == endpoint
    {
      endpoint
    }

    /** `clearLocalCaches`: all four caches become null; the endpoint and options are kept. */
    method ClearLocalCaches()
      modifies this
      ensures CachesCleared() && endpoint == old(endpoint) && options == old(options)
    {
      fields, priorities, statuses, resolutions := Null, Null, Null, Null;
    }

    /**
     * `setEndpoint`: trailing slashes are stripped before comparing; an
     * unchanged endpoint leaves the object as it was, a changed one is
     * stored and the caches are cleared.
     */
    method SetEndpoint(url: string)
      modifies this
      ensures endpoint == Some(RtrimSlashes(url)) && options == old(options)
      ensures old(endpoint) == Some(RtrimSlashes(url)) ==>
                fields == old(fields) && priorities == old(priorities)
                && statuses == old(statuses) && resolutions == old(resolutions)
      ensures old(endpoint) != Some(RtrimSlashes(url)) ==> CachesCleared()
    {
      var trimmed := RtrimSlashes(url);
      if Some(trimmed) != endpoint {
        endpoint := Some(trimmed);
        ClearLocalCaches();
      }
    }

    /**
     * `fetch`: sends the request with the caller's file and debug flags and
     * returns the body itself, or `false` when it is empty. The
     * `$return_as_array` flag is accepted and has no effect.
     */
    function Fetch(client: Client, verb: Verb, url: string, data: Record,
                   returnAsArray: bool, isFile: bool, debug: bool): (r: Outcome<string>)
      reads this
      ensures var reply := client(Sent(Request(verb, url, data), endpoint, isFile, debug));
              && (r.NoContent? <==> reply == Body(""))
              && (reply.Thrown? <==> r.Raised?)
              && (reply.Thrown? ==> r.failure == reply.failure)
              && (r.Returned? <==> reply.Body? && reply.text != "")
              && (r.Returned? ==> r.value == reply.text)
    {
      match client(Sent(Request(verb, url, data), endpoint, isFile, debug))
      case Thrown(f) => Raised(f)
      case Body(text) => if |text| > 0 then Returned(text) else NoContent
    }

    /** `getHtml`: a plain GET of the URL with no data. */
    function GetHtml(client: Client, url: string): (r: Outcome<string>)
      reads this
      ensures r == Fetch(client, GET, url, [], true, false, false)
    {
      Fetch(client, GET, url, [], true, false, false)
    }

    /** The `$return_as_array` flag of `fetch` changes nothing. */
    lemma ReturnAsArrayIgnored(client: Client, verb: Verb, url: string, data: Record, isFile: bool, debug: bool)
      ensures Fetch(client, verb, url, data, true, isFile, debug) == Fetch(client, verb, url, data, false, isFile, debug)
    {
    }

    /** `getHtml` hands back the page exactly as the client received it. */
    lemma HtmlIsRawBody(client: Client, url: string)
      requires client(Sent(Request(GET, url, []), endpoint, false, false)).Body?
      ensures var text := client(Sent(Request(GET, url, []), endpoint, false, false)).text;
              GetHtml(client, url) == if text == "" then NoContent else Returned(text)
    {
    }
  }
}
