/**
 * One page of project search results (src/Jira/Projects/Result.php): the
 * decoded payload's `projects` list turned into project entities, with a
 * running total.
 */
module ProjectsResult {
  import opened Wrappers
  import opened Json
  import ProjectsEntity

  /**
   * A constructed result. `total` is None when the constructor never
   * assigned it: a non-empty payload whose `projects` is missing or empty.
   */
  datatype Result = Result(total: Option<int>, entities: seq<ProjectsEntity.Entity>)

  /** The `projects` entry of a payload, null when missing. */
  function ProjectsOf(payload: Value): Value
    requires IsArray(payload)
  {
    LookupOrNull(Entries(payload), "projects")
  }

  /**
   * The constructor fails with a `TypeError` when `projects` is non-empty but
   * not an array (`count` refuses it) or holds a non-array entry (the
   * entity constructor refuses it).
   */
  predicate Rejects(payload: Value)
    requires IsArray(payload)
  {
    var projects := ProjectsOf(payload);
    && !Empty(payload) && !Empty(projects)
    && (!IsArray(projects) || exists i :: 0 <= i < |Values(projects)| && !IsArray(Values(projects)[i]))
  }

  /** What `new Result($payload)` builds, or None when it throws. */
  function FromPayload(payload: Value): (r: Option<Result>)
    requires IsArray(payload)
    ensures r.None? <==> Rejects(payload)
  {
    if Empty(payload) then Some(Result(Some(0), []))
    else
      var projects := ProjectsOf(payload);
      if Empty(projects) then Some(Result(None, []))
      else if Rejects(payload) then None
      else
        var items := Values(projects);
        Some(Result(Some(|items|), EntitiesOf(items).value))
  }

  /** A result's total is either unset with no entities, or the number of entities. */
  predicate Consistent(r: Result) {
    match r.total
    case None => r.entities == []
    case Some(n) => n == |r.entities|
  }

  /** Every result the constructor builds is consistent. */
  lemma FromPayloadConsistent(payload: Value)
    requires IsArray(payload)
    ensures FromPayload(payload).Some? ==> Consistent(FromPayload(payload).value)
  {
  }

  /** The entities built from `projects`, or None when an entry is not an array. */
  function EntitiesOf(items: seq<Value>): (es: Option<seq<ProjectsEntity.Entity>>)
    ensures es.None? <==> exists i :: 0 <= i < |items| && !IsArray(items[i])
    ensures es.Some? ==> |es.value| == |items|
  {
    if exists i :: 0 <= i < |items| && !IsArray(items[i]) then None
    else Some(seq(|items|, i requires 0 <= i < |items| => ProjectsEntity.Construct(Entries(items[i]))))
  }

  /** The constructor: one entity per entry of `projects`, in order, counting as it goes. */
  method New(payload: Value) returns (r: Option<Result>)
    requires IsArray(payload)
    ensures r == FromPayload(payload)
  {
    if Empty(payload) {
      return Some(Result(Some(0), []));
    }
    var projects := ProjectsOf(payload);
    if Empty(projects) {
      return Some(Result(None, []));
    }
    if !IsArray(projects) {
      return None;
    }
    var entities, total := Collect(Values(projects));
    if entities.None? {
      return None;
    }
    return Some(Result(Some(total), entities.value));
  }

  /** The constructor's `foreach`: append an entity and increment the total for each entry. */
  method Collect(items: seq<Value>) returns (es: Option<seq<ProjectsEntity.Entity>>, total: int)
    ensures es == EntitiesOf(items)
    ensures es.Some? ==> total == |items|
  {
    var built: seq<ProjectsEntity.Entity> := [];
    total := 0;
    for i := 0 to |items|
      invariant total == i && |built| == i
      invariant forall j :: 0 <= j < i ==> IsArray(items[j]) && built[j] == ProjectsEntity.Construct(Entries(items[j]))
    {
      if !IsArray(items[i]) {
        return None, total;
      }
      var entity := ProjectsEntity.New(Entries(items[i]));
      built := built + [entity];
      total := total + 1;
    }
    assert built == seq(|items|, i requires 0 <= i < |items| => ProjectsEntity.Construct(Entries(items[i])));
    return Some(built), total;
  }

  /** An empty payload gives total 0 and no entities. */
  lemma EmptyPayload()
    ensures FromPayload(List([])) == Some(Result(Some(0), []))
    ensures FromPayload(Object([])) == Some(Result(Some(0), []))
  {
  }

  /**
   * A non-empty list of project records gives one entity per record, in
   * order, each holding exactly that record's keys and values.
   */
  lemma EntitiesFollowRecords(payload: Value, i: nat)
    requires IsArray(payload) && !Empty(payload) && !Rejects(payload)
    requires ProjectsOf(payload).List? && i < |ProjectsOf(payload).items|
    ensures FromPayload(payload).Some?
    ensures var r := FromPayload(payload).value;
            var item := ProjectsOf(payload).items[i];
            && r.total == Some(|ProjectsOf(payload).items|)
            && |r.entities| == |ProjectsOf(payload).items|
            && IsArray(item)
            && r.entities[i].attributes.Keys == Keys(Entries(item))
            && forall k :: k in Keys(Entries(item)) ==> r.entities[i].attributes[k] == Lookup(Entries(item), k).value
  {
    var items := ProjectsOf(payload).items;
    assert Values(ProjectsOf(payload)) == items;
    assert IsArray(items[i]);
    CopyAllLookup(Entries(items[i]));
  }

  /** A non-empty payload without a usable `projects` entry gives no entities and leaves the total unset. */
  lemma MissingProjects(payload: Value)
    requires IsArray(payload) && !Empty(payload) && Empty(ProjectsOf(payload))
    ensures FromPayload(payload) == Some(Result(None, []))
  {
  }

  function GetTotal(r: Result): (n: Option<int>)
    ensures n == r.total
  {
    r.total
  }

  /** `getCount()` returns the same field as `getTotal()`. */
  function GetCount(r: Result): (n: Option<int>)
    ensures n == GetTotal(r)
  {
    r.total
  }

  function GetEntities(r: Result): (es: seq<ProjectsEntity.Entity>)
    ensures es == r.entities
  {
    r.entities
  }

  /** `getResult()` returns the same array as `getEntities()`. */
  function GetResult(r: Result): (es: seq<ProjectsEntity.Entity>)
    ensures es == GetEntities(r)
  {
    r.entities
  }
}
