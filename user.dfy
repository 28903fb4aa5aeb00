/**
 * The issue-shaped user record (src/Jira/User.php): every key of the decoded
 * record becomes a property, and fields are read by their human-readable
 * names from the `fields` property.
 */
module JiraUser {
  import opened Wrappers
  import opened Json

  /** A user record: the dynamic properties the constructor left on the object. */
  datatype User = User(attributes: map<string, Value>)

  /** The object `new User($record)` builds. */
  function Construct(record: Record): (u: User)
    ensures u.attributes.Keys == Keys(record)
  {
    CopyAllLookup(record);
    User(CopyAll(record))
  }

  /** The constructor's `foreach`: every key becomes a property holding the record's (last) value. */
  method New(record: Record) returns (u: User)
    ensures u == Construct(record)
    ensures u.attributes.Keys == Keys(record)
    ensures forall k :: k in Keys(record) ==> u.attributes[k] == Lookup(record, k).value
  {
    var attrs := Assign(record);
    CopyAllLookup(record);
    u := User(attrs);
  }

  /** `getId()`, `getKey()`, `getSelf()`, `getFields()`, `getExpandedInformation()`: the property, null when undefined. */
  function GetId(u: User): (r: Value)
    ensures "id" in u.attributes ==> r == u.attributes["id"]
    ensures "id" !in u.attributes ==> r == Null
  {
    Prop(u.attributes, "id")
  }

  function GetKey(u: User): (r: Value)
    ensures "key" in u.attributes ==> r == u.attributes["key"]
    ensures "key" !in u.attributes ==> r == Null
  {
    Prop(u.attributes, "key")
  }

  function GetSelf(u: User): (r: Value)
    ensures "self" in u.attributes ==> r == u.attributes["self"]
    ensures "self" !in u.attributes ==> r == Null
  {
    Prop(u.attributes, "self")
  }

  function GetFields(u: User): (r: Value)
    ensures "fields" in u.attributes ==> r == u.attributes["fields"]
    ensures "fields" !in u.attributes ==> r == Null
  {
    Prop(u.attributes, "fields")
  }

  function GetExpandedInformation(u: User): (r: Value)
    ensures "expandedInformation" in u.attributes ==> r == u.attributes["expandedInformation"]
    ensures "expandedInformation" !in u.attributes ==> r == Null
  {
    Prop(u.attributes, "expandedInformation")
  }

  /** The plain getters hand back what the record held under their key, null when absent. */
  lemma PlainGetters(record: Record)
    ensures GetId(Construct(record)) == LookupOrNull(record, "id")
    ensures GetKey(Construct(record)) == LookupOrNull(record, "key")
    ensures GetSelf(Construct(record)) == LookupOrNull(record, "self")
    ensures GetFields(Construct(record)) == LookupOrNull(record, "fields")
    ensures GetExpandedInformation(Construct(record)) == LookupOrNull(record, "expandedInformation")
  {
    CopyAllProp(record, "id");
    CopyAllProp(record, "key");
    CopyAllProp(record, "self");
    CopyAllProp(record, "fields");
    CopyAllProp(record, "expandedInformation");
  }

  /** The whitespace PHP allows around a numeric string. */
  predicate IsNumericSpace(ch: char) {
    ch == ' ' || ch == '\t' || ch == '\n' || ch == '\r' || ch == '\U{0B}' || ch == '\U{0C}'
  }

  predicate IsDecimalDigit(ch: char) {
    '0' <= ch <= '9'
  }

  predicate AllDigits(ds: string) {
    forall i :: 0 <= i < |ds| ==> IsDecimalDigit(ds[i])
  }

  /** The string without the numeric whitespace at either end. */
  function TrimSpace(s: string): (r: string)
    ensures |r| <= |s|
    ensures s != [] && !IsNumericSpace(s[0]) && !IsNumericSpace(s[|s| - 1]) ==> r == s
    decreases |s|
  {
    if s == [] then []
    else if IsNumericSpace(s[0]) then TrimSpace(s[1..])
    else if IsNumericSpace(s[|s| - 1]) then TrimSpace(s[..|s| - 1])
    else s
  }

  /** The number a string of decimal digits spells. */
  function DigitsValue(ds: string): nat
    requires AllDigits(ds)
  {
    if ds == [] then 0 else 10 * DigitsValue(ds[..|ds| - 1]) + (ds[|ds| - 1] as int - '0' as int)
  }

  /**
   * The integer a key stands for when it indexes a string: PHP takes an
   * integer numeric string (whitespace around it, an optional sign, at least
   * one digit) and refuses every other key.
   */
  function IntegerOffset(key: string): (r: Option<int>)
    ensures r.Some? ==> TrimSpace(key) != []
  {
    var core := TrimSpace(key);
    if core == [] then None
    else if (core[0] == '-' || core[0] == '+') && |core| > 1 && AllDigits(core[1..]) then
      Some(if core[0] == '-' then -(DigitsValue(core[1..]) as int) else DigitsValue(core[1..]))
    else if AllDigits(core) then Some(DigitsValue(core))
    else None
  }

  /**
   * `isset($s[$key]) ? $s[$key] : null` on a string: the one-character
   * string at the offset the key names, a negative offset counting from the
   * end; null when the key is no integer or the offset is outside the string.
   */
  function StringOffset(s: string, key: string): (r: Value)
    ensures r != Null <==> IntegerOffset(key).Some? && -|s| <= IntegerOffset(key).value < |s|
    ensures r != Null ==> r.Str? && |r.s| == 1
  {
    match IntegerOffset(key)
    case None => Null
    case Some(n) =>
      if 0 <= n < |s| then Str([s[n]])
      else if -|s| <= n < 0 then Str([s[n + |s|]])
      else Null
  }

  /** Every decimal digit string reads back as its value. */
  lemma {:induction false} NatDigits(n: nat)
    ensures AllDigits(NatToString(n)) && DigitsValue(NatToString(n)) == n
  {
    var ds := NatToString(n);
    if n < 10 {
      assert ds == [Digit(n)];
      assert "0123456789"[n] as int - '0' as int == n by {
        assert n == 0 || n == 1 || n == 2 || n == 3 || n == 4 || n == 5 || n == 6 || n == 7 || n == 8 || n == 9;
      }
      assert ds[..0] == [];
    } else {
      var d := n % 10;
      NatDigits(n / 10);
      assert ds == NatToString(n / 10) + [Digit(d)];
      assert ds[..|ds| - 1] == NatToString(n / 10);
      assert "0123456789"[d] as int - '0' as int == d by {
        assert d == 0 || d == 1 || d == 2 || d == 3 || d == 4 || d == 5 || d == 6 || d == 7 || d == 8 || d == 9;
      }
    }
  }

  /** The decimal spelling of `n`, or `-` followed by it, is the offset `n` or `-n`. */
  lemma OffsetSpelling(n: nat)
    ensures IntegerOffset(NatToString(n)) == Some(n)
    ensures n > 0 ==> IntegerOffset("-" + NatToString(n)) == Some(-(n as int))
  {
    var ds := NatToString(n);
    NatDigits(n);
    assert !IsNumericSpace(ds[0]) && !IsNumericSpace(ds[|ds| - 1]) by {
      assert IsDecimalDigit(ds[0]) && IsDecimalDigit(ds[|ds| - 1]);
    }
    var neg := "-" + ds;
    assert neg[1..] == ds && neg[|neg| - 1] == ds[|ds| - 1];
  }

  /**
   * `get($key)`: `$this->fields[$key]` when that is set and not null, null
   * otherwise. An array is read by key; a string by integer offset, giving
   * one character; any other `fields` gives null.
   */
  function Get(u: User, key: string): (r: Value)
    ensures r != Null <==>
      || (IsArray(GetFields(u)) && Lookup(Entries(GetFields(u)), key).Some? && Lookup(Entries(GetFields(u)), key).value != Null)
      || (GetFields(u).Str? && StringOffset(GetFields(u).s, key) != Null)
    ensures r != Null && IsArray(GetFields(u)) ==> r == Lookup(Entries(GetFields(u)), key).value
    ensures GetFields(u).Str? ==> r == StringOffset(GetFields(u).s, key)
  {
    var fields := Prop(u.attributes, "fields");
    if IsArray(fields) then
      match Lookup(Entries(fields), key)
      case Some(v) => v
      case None => Null
    else if fields.Str? then StringOffset(fields.s, key)
    else Null
  }

  /**
   * On a user whose `fields` is a string, `get` of an index's decimal
   * spelling is the character there, and `get("-i")` the i-th from the end.
   */
  lemma StringFieldsByOffset(record: Record, s: string, i: nat)
    requires LookupOrNull(record, "fields") == Str(s) && i < |s|
    ensures Get(Construct(record), NatToString(i)) == Str([s[i]])
    ensures Get(Construct(record), "-" + NatToString(i + 1)) == Str([s[|s| - 1 - i]])
  {
    CopyAllProp(record, "fields");
    OffsetSpelling(i);
    OffsetSpelling(i + 1);
  }

  /** The fields read by a named getter. */
  datatype NamedField =
    | Summary | IssueType | Reporter | Created | Assignee | Updated | Priority
    | Description | Status | Labels | Project | FixVersions | Resolution
    | ResolutionDate | Watchers | DueDate

  /** The human-readable key each named getter asks `get` for. */
  function Label(f: NamedField): string {
    match f
    case Summary => "Summary"
    case IssueType => "Issue Type"
    case Reporter => "Reporter"
    case Created => "Created"
    case Assignee => "Assignee"
    case Updated => "Updated"
    case Priority => "Priority"
    case Description => "Description"
    case Status => "Status"
    case Labels => "Labels"
    case Project => "Project"
    case FixVersions => "Fix Version/s"
    case Resolution => "Resolution"
    case ResolutionDate => "Resolutiondate"
    case Watchers => "Watchers"
    case DueDate => "Due Date"
  }

  /** `getSummary()`, `getIssueType()`, ... `getDueDate()`. */
  function GetNamed(u: User, f: NamedField): (r: Value)
    ensures r == Get(u, Label(f))
  {
    Get(u, Label(f))
  }

  /** Different getters read different keys. */
  lemma LabelsDistinct(f: NamedField, g: NamedField)
    requires f != g
    ensures Label(f) != Label(g)
  {
  }

  /**
   * A named getter on a user built from a record whose `fields` is the object
   * `members` reads that object's value under the getter's label, null when
   * the label is missing or holds null.
   */
  lemma NamedGetterReadsFields(record: Record, members: seq<(string, Value)>, f: NamedField)
    requires LookupOrNull(record, "fields") == Object(members)
    ensures GetNamed(Construct(record), f) == LookupOrNull(members, Label(f))
  {
    CopyAllProp(record, "fields");
  }

  /** A label that starts and ends with a letter is no integer offset. */
  lemma WordIsNoOffset(name: string)
    requires |name| > 0 && 'A' <= name[0] <= 'Z' && 'a' <= name[|name| - 1] <= 'z'
    ensures IntegerOffset(name) == None
  {
    assert !IsDecimalDigit(name[0]);
  }

  /**
   * Without an array under `fields`, every named getter gives null: a
   * string is read only by integer offset, and no label is one. Neither
   * array nor string gives null for every key.
   */
  lemma NoFieldsNoValues(record: Record, key: string, f: NamedField)
    requires !IsArray(LookupOrNull(record, "fields"))
    ensures GetNamed(Construct(record), f) == Null
    ensures !LookupOrNull(record, "fields").Str? ==> Get(Construct(record), key) == Null
  {
    CopyAllProp(record, "fields");
    WordIsNoOffset(Label(f));
  }
}
