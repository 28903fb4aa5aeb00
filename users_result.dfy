/**
 * A users search result (src/Jira/Users/Result.php): the decoded payload is
 * kept as it is, its number of top-level entries is the total, and the user
 * records are built on demand.
 */
module UsersResult {
  import opened Wrappers
  import opened Json
  import JiraUser

  /** A constructed result: the payload and its entry count. */
  datatype Result = Result(total: int, result: Value)

  /** `new Result($payload)`: the total is `count($payload)`. */
  function FromPayload(payload: Value): (r: Result)
    requires IsArray(payload)
    ensures r.total == |Values(payload)| && r.result == payload
  {
    Result(|Values(payload)|, payload)
  }

  function GetTotal(r: Result): (n: int)
    ensures n == r.total
  {
    r.total
  }

  function GetResult(r: Result): (v: Value)
    ensures v == r.result
  {
    r.result
  }

  /** `getResult()` hands back the payload unchanged, and `getTotal()` its number of entries. */
  lemma PayloadKept(payload: Value)
    requires IsArray(payload)
    ensures GetResult(FromPayload(payload)) == payload
    ensures GetTotal(FromPayload(payload)) == |Values(payload)|
  {
  }

  /**
   * The users `getUsers()` returns: one user per payload entry, in order, or
   * None when an entry is not an array (the user constructor rejects it).
   */
  function Users(r: Result): (us: Option<seq<JiraUser.User>>)
    ensures us.None? <==> exists i :: 0 <= i < |Values(r.result)| && !IsArray(Values(r.result)[i])
    ensures us.Some? ==> |us.value| == |Values(r.result)|
  {
    var items := Values(r.result);
    if exists i :: 0 <= i < |items| && !IsArray(items[i]) then None
    else Some(seq(|items|, i requires 0 <= i < |items| => JiraUser.Construct(Entries(items[i]))))
  }

  /** `getUsers()`: a fresh user for every entry of the payload. */
  method GetUsers(r: Result) returns (us: Option<seq<JiraUser.User>>)
    ensures us == Users(r)
  {
    var items := Values(r.result);
    var built: seq<JiraUser.User> := [];
    for i := 0 to |items|
      invariant |built| == i
      invariant forall j :: 0 <= j < i ==> IsArray(items[j]) && built[j] == JiraUser.Construct(Entries(items[j]))
    {
      if !IsArray(items[i]) {
        return None;
      }
      var user := JiraUser.New(Entries(items[i]));
      built := built + [user];
    }
    assert built == seq(|items|, i requires 0 <= i < |items| => JiraUser.Construct(Entries(items[i])));
    return Some(built);
  }

  /** `getCount()`: `count($this->getUsers())`, failing where `getUsers()` fails. */
  method GetCount(r: Result) returns (n: Option<int>)
    ensures n.Some? <==> Users(r).Some?
    ensures n.Some? ==> n.value == |Values(r.result)|
  {
    var us := GetUsers(r);
    if us.None? {
      return None;
    }
    return Some(|us.value|);
  }

  /** On a constructed result the count and the total agree whenever the count succeeds. */
  lemma CountIsTotal(payload: Value)
    requires IsArray(payload)
    ensures Users(FromPayload(payload)).Some? ==> |Users(FromPayload(payload)).value| == GetTotal(FromPayload(payload))
  {
  }

  /** The i-th user holds exactly the keys and values of the i-th payload entry. */
  lemma UsersFollowEntries(payload: Value, i: nat)
    requires IsArray(payload) && Users(FromPayload(payload)).Some? && i < |Values(payload)|
    ensures IsArray(Values(payload)[i])
    ensures var u := Users(FromPayload(payload)).value[i];
            && u.attributes.Keys == Keys(Entries(Values(payload)[i]))
            && forall k :: k in Keys(Entries(Values(payload)[i])) ==>
                 u.attributes[k] == Lookup(Entries(Values(payload)[i]), k).value
  {
    CopyAllLookup(Entries(Values(payload)[i]));
  }

  /** An empty payload gives total 0 and no users. */
  lemma EmptyPayload()
    ensures GetTotal(FromPayload(List([]))) == 0 && Users(FromPayload(List([]))) == Some([])
  {
  }
}
