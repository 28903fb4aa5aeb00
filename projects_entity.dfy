/**
 * A project (src/Jira/Projects/Entity.php): an object whose constructor copies
 * every key of the decoded record onto itself and derives nothing.
 */
module ProjectsEntity {
  import opened Json

  /** A project: the dynamic properties the constructor left on the object. */
  datatype Entity = Entity(attributes: map<string, Value>)

  /** The object `new Entity($record)` builds. */
  function Construct(record: Record): (e: Entity)
    ensures e.attributes.Keys == Keys(record)
  {
    CopyAllLookup(record);
    Entity(CopyAll(record))
  }

  /** The constructor's `foreach`: every key becomes a property holding the record's (last) value. */
  method New(record: Record) returns (e: Entity)
    ensures e == Construct(record)
    ensures e.attributes.Keys == Keys(record)
    ensures forall k :: k in Keys(record) ==> e.attributes[k] == Lookup(record, k).value
  {
    var attrs := Assign(record);
    CopyAllLookup(record);
    e := Entity(attrs);
  }

  /** `getId()`: the `projectId` property, null when the record had none. */
  function GetId(e: Entity): (r: Value)
    ensures "projectId" in e.attributes ==> r == e.attributes["projectId"]
    ensures "projectId" !in e.attributes ==> r == Null
  {
    Prop(e.attributes, "projectId")
  }

  /** The id of a constructed project is the record's `projectId`. */
  lemma IdIsProjectId(record: Record)
    ensures GetId(Construct(record)) == LookupOrNull(record, "projectId")
  {
    CopyAllProp(record, "projectId");
  }

  /** `getMembers($api)`: the API is never consulted; the project id is returned. */
  function GetMembers<A>(e: Entity, api: A): (r: Value)
    ensures r == GetId(e)
  {
    Prop(e.attributes, "projectId")
  }

  /** An empty record gives a project with no properties. */
  lemma EmptyRecord()
    ensures Construct([]).attributes == map[]
  {
  }
}
