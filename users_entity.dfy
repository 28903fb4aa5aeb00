/**
 * The user record of the `Users` namespace (src/Users/Entity.php). Its
 * constructor copies every key of the decoded record onto the object and
 * derives a display name, an address and a `mode` label from `displayName`.
 * When no address can be derived it falls back to `unknown@example.com`.
 */
module UsersEntity {
  import opened Wrappers
  import opened Json
  import opened PhpStrings
  import opened DisplayName

  /** The fallback address of this constructor. */
  const UnknownAddress: string := "unknown@example.com"

  /** A user: the dynamic properties the constructor left on the object. */
  datatype Entity = Entity(attributes: map<string, Value>)

  /**
   * What the constructor derives from a display name `v`. An address keeps
   * `v` as the address and names the person after the part in front of the
   * domain. A name with a space keeps its display name and gets
   * first.last@ from its first and last words, lower-cased. Any other name
   * is read as "first.last": the display name becomes "First Last". A name
   * of fewer than two words gets the fallback address.
   */
  function Inferred(v: string): (r: Inference)
    ensures r.mode == "email" <==> Stripos(v, Domain).Some?
    ensures r.mode == "email" ==> r.email == v
    ensures r.email == UnknownAddress || Stripos(r.email, Domain).Some?
  {
    match BranchOf(v)
    case ByAddress(p) => FromAddress(v, p)
    case BySpace => FromSpacedName(Tokens(v))
    case ByDots => FromDottedName(Tokens(v))
  }

  /** The space branch, given the token list. */
  function FromSpacedName(ts: seq<string>): (r: Inference)
    ensures r.mode == "name+space" && r.rename.None?
    ensures r.email == UnknownAddress || Stripos(r.email, Domain).Some?
  {
    if |ts| >= 2 then
      var local := ts[0] + "." + ts[|ts| - 1];
      DomainFound(local);
      Inference(None, local + Domain, "name+space")
    else
      Inference(None, UnknownAddress, "name+space")
  }

  /** The dots branch, given the token list. */
  function FromDottedName(ts: seq<string>): (r: Inference)
    ensures r.mode == "name+dots"
    ensures r.email == UnknownAddress || Stripos(r.email, Domain).Some?
  {
    if |ts| >= 2 then
      var local := ts[0] + "." + ts[|ts| - 1];
      DomainFound(local);
      Inference(Some(Ucfirst(ts[0]) + " " + Ucfirst(ts[|ts| - 1])), local + Domain, "name+dots")
    else
      Inference(None, UnknownAddress, "name+dots")
  }

  /**
   * The three modes: a space not at the start selects "name+space" (the
   * display name is kept), everything else "name+dots"; outside the address
   * branch the fallback address is used exactly for fewer than two words.
   */
  lemma Modes(v: string)
    ensures var r := Inferred(v);
            && (r.mode == "email" || r.mode == "name+space" || r.mode == "name+dots")
            && (r.mode == "name+space" <==> Stripos(v, Domain).None? && ' ' in v && v[0] != ' ')
            && (r.mode == "name+space" ==> r.rename.None?)
            && (r.mode != "email" ==> (r.email == UnknownAddress <==> |Tokens(v)| < 2))
  {
    var ts := Tokens(v);
    if |ts| >= 2 && !BranchOf(v).ByAddress? {
      var local := ts[0] + "." + ts[|ts| - 1];
      assert |UnknownAddress| == 19 && |Domain| == 17;
      assert |local + Domain| > |UnknownAddress|;
    }
  }

  /** The `displayName` branch of the constructor, step by step. */
  method Infer(v: string) returns (inf: Inference)
    ensures inf == Inferred(v)
  {
    var pos := Stripos(v, Domain);
    if pos.Some? {
      var name := Ucwords(DotsToSpaces(v[..pos.value]));
      return Inference(Some(name), v, "email");
    }
    var space := Strpos(v, ' ');
    var res := Tokenize(v);
    if space.Some? && space.value != 0 {
      inf := SpacedName(res);
    } else {
      inf := DottedName(res);
    }
  }

  /** The space branch after the token loop: pop the last name, address first.last@ when a word is left. */
  method SpacedName(res: seq<string>) returns (inf: Inference)
    requires forall k :: 0 <= k < |res| ==> IsToken(res[k])
    ensures inf == FromSpacedName(res)
  {
    var popped := Pop(res);
    var lastName := Trim(popped.1);
    var rest := popped.0;
    var address := UnknownAddress;
    if |rest| >= 1 {
      TokenIsNormal(rest[0]);
      TokenIsNormal(popped.1);
      address := Lower(rest[0]) + "." + Lower(lastName);
      address := address + Domain;
    }
    inf := Inference(None, address, "name+space");
  }

  /** The dots branch after the token loop: with a word left after popping, rename and address first.last@. */
  method DottedName(res: seq<string>) returns (inf: Inference)
    requires forall k :: 0 <= k < |res| ==> IsToken(res[k])
    ensures inf == FromDottedName(res)
  {
    var popped := Pop(res);
    var lastName := Trim(popped.1);
    var rest := popped.0;
    if |rest| >= 1 {
      TokenIsNormal(rest[0]);
      TokenIsNormal(popped.1);
      var name := Ucfirst(rest[0]) + " " + Ucfirst(lastName);
      JoinIsNormal(rest[0], lastName);
      var address := Trim(Lower(rest[0]) + "." + Lower(lastName)) + Domain;
      inf := Inference(Some(name), address, "name+dots");
    } else {
      inf := Inference(None, UnknownAddress, "name+dots");
    }
  }

  /** The object `new Entity($user)` builds, or None when the constructor throws. */
  function Construct(user: Record): (r: Option<Entity>)
    ensures r.Some? <==> !Throws(user)
    ensures r.Some? ==> r.value.attributes == Fold(user, Writes(Inferred))
  {
    match Build(user, Inferred)
    case Some(attrs) => Some(Entity(attrs))
    case None => None
  }

  /** One pass of the constructor's loop: copy the pair, then derive from a `displayName`. */
  method Apply(attrs: map<string, Value>, key: string, value: Value) returns (r: Option<map<string, Value>>)
    ensures Rejected(key, value) ==> r == None
    ensures !Rejected(key, value) ==> r == Some(attrs + Write(Inferred, key, value))
  {
    if key == "displayName" {
      var text := StringOf(value);
      if text.None? {
        return None;
      }
      var inf := Infer(text.value);
      var shown := if inf.rename.Some? then Str(inf.rename.value) else value;
      WriteDisplayName(Inferred, value, attrs);
      return Some(attrs["displayName" := shown]["email" := Str(inf.email)]["mode" := Str(inf.mode)]);
    }
    WriteOther(Inferred, key, value, attrs);
    return Some(attrs[key := value]);
  }

  /** The constructor: copy each pair, and derive the three properties from `displayName`. */
  method New(user: Record) returns (r: Option<Entity>)
    ensures r == Construct(user)
  {
    var attrs: map<string, Value> := map[];
    for i := 0 to |user|
      invariant !Throws(user[..i])
      invariant attrs == Fold(user[..i], Writes(Inferred))
    {
      var step := Apply(attrs, user[i].0, user[i].1);
      if step.None? {
        BuildStopped(user, Inferred, i);
        return None;
      }
      NoThrowStep(user, i);
      FoldStep(user, i, Inferred);
      attrs := step.value;
    }
    BuildCompleted(user, Inferred, attrs);
    return Some(Entity(attrs));
  }

  /** `getId()`: the `accountId` property, null when the record had none. */
  function GetId(e: Entity): (r: Value)
    ensures "accountId" in e.attributes ==> r == e.attributes["accountId"]
    ensures "accountId" !in e.attributes ==> r == Null
  {
    Prop(e.attributes, "accountId")
  }

  /** The id of a constructed user is the record's `accountId`. */
  lemma IdIsAccountId(user: Record)
    requires !Throws(user)
    ensures GetId(Construct(user).value) == LookupOrNull(user, "accountId")
  {
    OtherPropertiesVerbatim(user, Inferred, "accountId");
  }

  /**
   * One person spelled three ways: "first last", "first.last" and
   * "first.last@redflaggroup.com" all get the address first.last@redflaggroup.com;
   * the last two are renamed "First Last".
   */
  lemma SpellingsAgree(a: string, b: string)
    requires SimpleName(a) && SimpleName(b)
    ensures Inferred(a + " " + b) == Inference(None, a + "." + b + Domain, "name+space")
    ensures Inferred(a + "." + b) == Inference(Some(Ucfirst(a) + " " + Ucfirst(b)), a + "." + b + Domain, "name+dots")
    ensures Inferred(a + "." + b + Domain) == Inference(Some(Ucfirst(a) + " " + Ucfirst(b)), a + "." + b + Domain, "email")
  {
    SpacedSpelling(a, b);
    DottedSpelling(a, b);
    AddressSpelling(a, b);
    assert a + "." + b + Domain == (a + "." + b) + Domain;
  }

  /** A derived address read back as a display name is kept as it is. */
  lemma AddressIsStable(v: string)
    requires Inferred(v).email != UnknownAddress
    ensures Inferred(Inferred(v).email).email == Inferred(v).email
    ensures Inferred(Inferred(v).email).mode == "email"
  {
  }

  /** A single word gets the fallback address and keeps its display name. */
  lemma SingleWord(a: string)
    requires SimpleName(a)
    ensures Inferred(a) == Inference(None, UnknownAddress, "name+dots")
  {
    TokensOfWord(a);
    assert forall i :: 0 <= i < |a| ==> a[i] != '@' && a[i] != ' ' by {
      assert forall i :: 0 <= i < |a| ==> IsTokenChar(a[i]);
    }
    NoAtNoDomain(a);
  }

  /** Only the first and the last word count: words in between never reach the outputs. */
  lemma OnlyFirstAndLast(ts: seq<string>, us: seq<string>)
    requires |ts| >= 2 && |us| >= 2 && ts[0] == us[0] && ts[|ts| - 1] == us[|us| - 1]
    ensures FromSpacedName(ts) == FromSpacedName(us)
    ensures FromDottedName(ts) == FromDottedName(us)
  {
  }
}
