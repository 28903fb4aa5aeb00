/**
 * The user record of the `Jira\Users` namespace (src/Jira/Users/Entity.php),
 * the one the users API builds from search results. Its constructor differs
 * from the one in the `Users` namespace only in how it builds addresses: the
 * fallback is unknown@redflaggroup.com, and in the dots branch the address
 * is built after the last word has already been popped.
 */
module JiraUsersEntity {
  import opened Wrappers
  import opened Json
  import opened PhpStrings
  import opened DisplayName
  import UsersEntity

  /** The local part used when a spaced name has fewer than two words. */
  const UnknownLocal: string := "unknown"

  /** A user: the dynamic properties the constructor left on the object. */
  datatype Entity = Entity(attributes: map<string, Value>)

  /**
   * What the constructor derives from a display name `v`. An address keeps
   * `v`, as in the other namespace. A name with a space gets first.last@
   * from its first and last words, or unknown@ with fewer than two words. Any
   * other name of two or more words is renamed "First Last" but addressed as
   * first.<second-to-last word>@; one word `w` gives w.w@, no word at all .@.
   */
  function Inferred(v: string): (r: Inference)
    ensures r.mode == "email" <==> Stripos(v, Domain).Some?
    ensures r.mode == "email" ==> r.email == v
    ensures Stripos(r.email, Domain).Some?
  {
    match BranchOf(v)
    case ByAddress(p) => FromAddress(v, p)
    case BySpace => FromSpacedName(Tokens(v))
    case ByDots => FromDottedName(Tokens(v))
  }

  /** The space branch, given the token list. */
  function FromSpacedName(ts: seq<string>): (r: Inference)
    ensures r.mode == "name+space" && r.rename.None? && Stripos(r.email, Domain).Some?
  {
    var local := if |ts| >= 2 then ts[0] + "." + ts[|ts| - 1] else UnknownLocal;
    DomainFound(local);
    Inference(None, local + Domain, "name+space")
  }

  /** The dots branch, given the token list. */
  function FromDottedName(ts: seq<string>): (r: Inference)
    ensures r.mode == "name+dots" && Stripos(r.email, Domain).Some?
  {
    var local :=
      if |ts| >= 2 then ts[0] + "." + ts[|ts| - 2]
      else if |ts| == 1 then ts[0] + "." + ts[0]
      else ".";
    DomainFound(local);
    Inference(if |ts| >= 2 then Some(Ucfirst(ts[0]) + " " + Ucfirst(ts[|ts| - 1])) else None,
              local + Domain, "name+dots")
  }

  /** The three modes, chosen exactly as in the other namespace. */
  lemma Modes(v: string)
    ensures var r := Inferred(v);
            && (r.mode == "email" || r.mode == "name+space" || r.mode == "name+dots")
            && (r.mode == "name+space" <==> Stripos(v, Domain).None? && ' ' in v && v[0] != ' ')
            && (r.mode == "name+space" ==> r.rename.None?)
            && (r.mode == UsersEntity.Inferred(v).mode)
  {
  }

  /** The `displayName` branch of the constructor, step by step. */
  method Infer(v: string) returns (inf: Inference)
    ensures inf == Inferred(v)
  {
    var pos := Stripos(v, Domain);
    if pos.Some? {
      var name := Ucwords(DotsToSpaces(v[..pos.value]));
      return Inference(Some(name), v, "email");
    }
    var space := Strpos(v, ' ');
    var res := Tokenize(v);
    if space.Some? && space.value != 0 {
      inf := SpacedName(res);
    } else {
      inf := DottedName(res);
    }
  }

  /** The space branch after the token loop. */
  method SpacedName(res: seq<string>) returns (inf: Inference)
    ensures inf == FromSpacedName(res)
  {
    var address := UnknownLocal;
    if |res| >= 2 {
      address := res[0] + "." + Pop(res).1;
    }
    address := address + Domain;
    return Inference(None, address, "name+space");
  }

  /** The dots branch after the token loop: rename, then build the address from what is left. */
  method DottedName(res: seq<string>) returns (inf: Inference)
    requires forall k :: 0 <= k < |res| ==> IsToken(res[k])
    ensures inf == FromDottedName(res)
  {
    var rest := res;
    var rename: Option<string> := None;
    if |rest| >= 2 {
      var head := rest[0];
      var popped := Pop(rest);
      rest := popped.0;
      rename := Some(Ucfirst(head) + " " + Ucfirst(popped.1));
    }
    var first := First(rest);
    var lastName := Trim(Pop(rest).1);
    DottedLocal(rest);
    var address := Trim(Lower(first + "." + lastName)) + Domain;
    inf := Inference(rename, address, "name+dots");
  }

  /** The local part the dots branch builds from the tokens left after the rename pop. */
  lemma DottedLocal(rest: seq<string>)
    requires forall k :: 0 <= k < |rest| ==> IsToken(rest[k])
    ensures Trim(Lower(First(rest) + "." + Trim(Pop(rest).1)))
            == if rest == [] then "." else rest[0] + "." + rest[|rest| - 1]
  {
    if rest != [] {
      TokenIsNormal(rest[|rest| - 1]);
      JoinIsNormal(rest[0], rest[|rest| - 1]);
    } else {
      assert Lower(".") == ".";
    }
  }

  /** The object `new Entity($user)` builds, or None when the constructor throws. */
  function Construct(user: Record): (r: Option<Entity>)
    ensures r.Some? <==> !Throws(user)
    ensures r.Some? ==> r.value.attributes == Fold(user, Writes(Inferred))
  {
    match Build(user, Inferred)
    case Some(attrs) => Some(Entity(attrs))
    case None => None
  }

  /** One pass of the constructor's loop: copy the pair, then derive from a `displayName`. */
  method Apply(attrs: map<string, Value>, key: string, value: Value) returns (r: Option<map<string, Value>>)
    ensures Rejected(key, value) ==> r == None
    ensures !Rejected(key, value) ==> r == Some(attrs + Write(Inferred, key, value))
  {
    if key == "displayName" {
      var text := StringOf(value);
      if text.None? {
        return None;
      }
      var inf := Infer(text.value);
      var shown := if inf.rename.Some? then Str(inf.rename.value) else value;
      WriteDisplayName(Inferred, value, attrs);
      return Some(attrs["displayName" := shown]["email" := Str(inf.email)]["mode" := Str(inf.mode)]);
    }
    WriteOther(Inferred, key, value, attrs);
    return Some(attrs[key := value]);
  }

  /** The constructor: copy each pair, and derive the three properties from `displayName`. */
  method New(user: Record) returns (r: Option<Entity>)
    ensures r == Construct(user)
  {
    var attrs: map<string, Value> := map[];
    for i := 0 to |user|
      invariant !Throws(user[..i])
      invariant attrs == Fold(user[..i], Writes(Inferred))
    {
      var step := Apply(attrs, user[i].0, user[i].1);
      if step.None? {
        BuildStopped(user, Inferred, i);
        return None;
      }
      NoThrowStep(user, i);
      FoldStep(user, i, Inferred);
      attrs := step.value;
    }
    BuildCompleted(user, Inferred, attrs);
    return Some(Entity(attrs));
  }

  /** `getId()`: the `accountId` property, null when the record had none. */
  function GetId(e: Entity): (r: Value)
    ensures "accountId" in e.attributes ==> r == e.attributes["accountId"]
    ensures "accountId" !in e.attributes ==> r == Null
  {
    Prop(e.attributes, "accountId")
  }

  /** The id of a constructed user is the record's `accountId`. */
  lemma IdIsAccountId(user: Record)
    requires !Throws(user)
    ensures GetId(Construct(user).value) == LookupOrNull(user, "accountId")
  {
    OtherPropertiesVerbatim(user, Inferred, "accountId");
  }

  /**
   * One person spelled three ways. "first last" and the full address get
   * first.last@ as in the other namespace, but "first.last" gets first.first@:
   * the address is built from what is left after the rename popped the last word.
   */
  lemma Spellings(a: string, b: string)
    requires SimpleName(a) && SimpleName(b)
    ensures Inferred(a + " " + b) == Inference(None, a + "." + b + Domain, "name+space")
    ensures Inferred(a + "." + b) == Inference(Some(Ucfirst(a) + " " + Ucfirst(b)), a + "." + a + Domain, "name+dots")
    ensures Inferred(a + "." + b + Domain) == Inference(Some(Ucfirst(a) + " " + Ucfirst(b)), a + "." + b + Domain, "email")
  {
    SpacedSpelling(a, b);
    DottedSpelling(a, b);
    AddressSpelling(a, b);
    assert a + "." + b + Domain == (a + "." + b) + Domain;
  }

  /** A single word `w` is addressed as w.w@ and keeps its display name. */
  lemma SingleWord(a: string)
    requires SimpleName(a)
    ensures Inferred(a) == Inference(None, a + "." + a + Domain, "name+dots")
  {
    TokensOfWord(a);
    assert forall i :: 0 <= i < |a| ==> a[i] != '@' && a[i] != ' ' by {
      assert forall i :: 0 <= i < |a| ==> IsTokenChar(a[i]);
    }
    NoAtNoDomain(a);
  }

  /** An empty display name (also what a null one reads as) gets the address .@redflaggroup.com. */
  lemma EmptyName()
    ensures Inferred("") == Inference(None, "." + Domain, "name+dots")
    ensures UsersEntity.Inferred("") == Inference(None, UsersEntity.UnknownAddress, "name+dots")
  {
    assert Tokens("") == [];
    assert Stripos("", Domain) == None by {
      NoAtNoDomain("");
    }
  }

  /** The two constructors derive the same from an address and from a spaced name of two or more words. */
  lemma AgreeWithUsersEntity(v: string)
    requires Stripos(v, Domain).Some? || (BranchOf(v).BySpace? && |Tokens(v)| >= 2)
    ensures Inferred(v) == UsersEntity.Inferred(v)
  {
  }

  /**
   * They differ elsewhere: a spaced name of fewer than two words, and a
   * dotted name "a.b" of two different words, which only this constructor
   * addresses as a.a@.
   */
  lemma DisagreeWithUsersEntity(v: string, a: string, b: string)
    requires SimpleName(a) && SimpleName(b) && a != b
    ensures BranchOf(v).BySpace? && |Tokens(v)| < 2 ==>
              Inferred(v).email == UnknownLocal + Domain && UsersEntity.Inferred(v).email == UsersEntity.UnknownAddress
    ensures Inferred(a + "." + b).email != UsersEntity.Inferred(a + "." + b).email
  {
    if BranchOf(v).BySpace? && |Tokens(v)| < 2 {
      ShortSpacedName(v);
    }
    Spellings(a, b);
    UsersEntity.SpellingsAgree(a, b);
    OtherSecondWord(a, b, a);
  }

  /** A spaced name of fewer than two words falls back to each constructor's unknown address. */
  lemma ShortSpacedName(v: string)
    requires BranchOf(v).BySpace? && |Tokens(v)| < 2
    ensures Inferred(v).email == UnknownLocal + Domain
    ensures UsersEntity.Inferred(v).email == UsersEntity.UnknownAddress
  {
  }

  /** Addresses a.b@ and a.c@ differ when b and c do. */
  lemma OtherSecondWord(a: string, b: string, c: string)
    requires b != c
    ensures a + "." + b + Domain != a + "." + c + Domain
  {
    var x := a + "." + b + Domain;
    var y := a + "." + c + Domain;
    if |b| == |c| {
      var k :| 0 <= k < |b| && b[k] != c[k];
      assert x[|a| + 1 + k] == b[k];
      assert y[|a| + 1 + k] == c[k];
    } else {
      assert |x| != |y|;
    }
  }

  /** A dotted display name without any word, "..." say, gets the address .@redflaggroup.com and keeps its name. */
  lemma NoWords(v: string)
    requires BranchOf(v) == ByDots && Tokens(v) == []
    ensures Inferred(v) == Inference(None, "." + Domain, "name+dots")
  {
  }
}
