/**
 * What the two user entity constructors share: the company mail domain, the
 * choice between the three ways a `displayName` is read (as an address, as a
 * "First Last" name, as a "first.last" name), and the property loop that
 * copies every key of the record and, for `displayName`, writes the derived
 * `displayName`, `email` and `mode` properties.
 */
module DisplayName {
  import opened Wrappers
  import opened Json
  import opened PhpStrings

  /** The suffix searched for case-insensitively and appended to derived addresses. */
  const Domain: string := "@redflaggroup.com"

  /** Which branch of the constructor a display name takes. */
  datatype Branch =
    | ByAddress(pos: nat)  // the domain occurs, first at `pos`
    | BySpace              // `strpos($value, " ") != false`
    | ByDots               // everything else, a leading space included

  /**
   * The branch taken: the address branch when the domain occurs anywhere
   * (case-insensitively); otherwise the space branch when a space occurs
   * and the first one is not at position 0 (PHP's loose `!= false` reads
   * position 0 as "not found"); otherwise the dots branch.
   */
  function BranchOf(v: string): (b: Branch)
    ensures b.ByAddress? <==> Stripos(v, Domain).Some?
    ensures b.ByAddress? ==> Stripos(v, Domain) == Some(b.pos) && b.pos + |Domain| <= |v|
    ensures b.BySpace? <==> Stripos(v, Domain).None? && ' ' in v && v[0] != ' '
  {
    match Stripos(v, Domain)
    case Some(p) => ByAddress(p)
    case None =>
      match Strpos(v, ' ')
      case Some(p) => if p != 0 then BySpace else ByDots
      case None => ByDots
  }

  /** What a constructor derives from one display name. */
  datatype Inference = Inference(
    rename: Option<string>,  // the new `displayName`, or None when the value is kept
    email: string,
    mode: string)

  /** `ucwords(strtr(substr($value, 0, $pos), ".", " "))`: the name in front of the domain. */
  function NameFromAddress(v: string, pos: nat): string
    requires pos <= |v|
  {
    Ucwords(DotsToSpaces(v[..pos]))
  }

  /** The address branch: the value is the address, the name in front of the domain the display name. */
  function FromAddress(v: string, pos: nat): (r: Inference)
    requires pos <= |v|
    ensures r.email == v && r.mode == "email" && r.rename.Some?
  {
    Inference(Some(NameFromAddress(v, pos)), v, "email")
  }

  /** `array_pop`: the shortened list and the popped entry; popping an empty list yields null, read as "". */
  function Pop(res: seq<string>): (r: (seq<string>, string))
    ensures res == [] ==> r == ([], "")
    ensures res != [] ==> r.0 == res[..|res| - 1] && r.1 == res[|res| - 1]
  {
    if res == [] then ([], "") else (res[..|res| - 1], res[|res| - 1])
  }

  /** `$res[0]`: a missing entry reads as null, that is "" in a concatenation. */
  function First(res: seq<string>): (r: string)
    ensures res != [] ==> r == res[0]
  {
    if res == [] then "" else res[0]
  }

  /** The properties one pair of the record writes, given a display-name reading. */
  function Write(infer: string -> Inference, key: string, value: Value): (m: map<string, Value>)
    ensures key in m
  {
    if key == "displayName" && StringOf(value).Some? then
      var inf := infer(StringOf(value).value);
      map["displayName" := (if inf.rename.Some? then Str(inf.rename.value) else value),
          "email" := Str(inf.email),
          "mode" := Str(inf.mode)]
    else
      map[key := value]
  }

  /** What a `displayName` pair writes, spelled out. */
  lemma WriteDisplayName(infer: string -> Inference, value: Value, attrs: map<string, Value>)
    requires StringOf(value).Some?
    ensures var inf := infer(StringOf(value).value);
            var shown := if inf.rename.Some? then Str(inf.rename.value) else value;
            attrs + Write(infer, "displayName", value)
            == attrs["displayName" := shown]["email" := Str(inf.email)]["mode" := Str(inf.mode)]
  {
  }

  /** What any other pair writes: the value under its key. */
  lemma WriteOther(infer: string -> Inference, key: string, value: Value, attrs: map<string, Value>)
    requires key != "displayName"
    ensures attrs + Write(infer, key, value) == attrs[key := value]
  {
  }

  function Writes(infer: string -> Inference): (string, Value) -> map<string, Value> {
    (key: string, value: Value) => Write(infer, key, value)
  }

  /** One more pair of the record: its writes land on top of the earlier ones. */
  lemma FoldStep(user: Record, i: nat, infer: string -> Inference)
    requires i < |user|
    ensures Fold(user[..i + 1], Writes(infer)) == Fold(user[..i], Writes(infer)) + Write(infer, user[i].0, user[i].1)
  {
    assert user[..i + 1][..i] == user[..i];
  }

  /** A `displayName` holding an array: `stripos` rejects it with a `TypeError`. */
  predicate Rejected(key: string, value: Value) {
    key == "displayName" && IsArray(value)
  }

  /** Some pair of the record is rejected, so the constructor throws. */
  predicate Throws(user: Record) {
    exists i :: 0 <= i < |user| && Rejected(user[i].0, user[i].1)
  }

  /**
   * The properties a constructor leaves: None when it throws, which is
   * exactly when some `displayName` holds an array; otherwise every key of
   * the record is a property.
   */
  function Build(user: Record, infer: string -> Inference): (r: Option<map<string, Value>>)
    ensures r.None? <==> exists i :: 0 <= i < |user| && user[i].0 == "displayName" && IsArray(user[i].1)
    ensures r.Some? ==> Keys(user) <= r.value.Keys
  {
    if Throws(user) then None
    else
      var attrs := Fold(user, Writes(infer));
      assert Keys(user) <= attrs.Keys by {
        forall k | k in Keys(user) ensures k in attrs {
          FoldKeys(user, Writes(infer), k);
          var i :| 0 <= i < |user| && user[i].0 == k;
          assert k in Writes(infer)(user[i].0, user[i].1);
        }
      }
      Some(attrs)
  }

  /** A pass that is not rejected extends a prefix that does not throw. */
  lemma NoThrowStep(user: Record, i: nat)
    requires i < |user| && !Throws(user[..i]) && !Rejected(user[i].0, user[i].1)
    ensures !Throws(user[..i + 1])
  {
    var longer := user[..i + 1];
    forall j | 0 <= j < |longer|
      ensures !Rejected(longer[j].0, longer[j].1)
    {
      if j < i {
        assert longer[j] == user[..i][j];
      }
    }
  }

  /** A loop that met no array `displayName` and folded every pair leaves `Build`'s properties. */
  lemma BuildCompleted(user: Record, infer: string -> Inference, attrs: map<string, Value>)
    requires !Throws(user[..|user|])
    requires attrs == Fold(user[..|user|], Writes(infer))
    ensures Build(user, infer) == Some(attrs)
  {
    assert user[..|user|] == user;
  }

  /** A loop that meets an array `displayName` stops where `Build` fails. */
  lemma BuildStopped(user: Record, infer: string -> Inference, i: nat)
    requires i < |user| && Rejected(user[i].0, user[i].1)
    ensures Build(user, infer) == None
  {
  }

  /**
   * The object has a property for every key of the record, plus `email` and
   * `mode` exactly when the record has a `displayName`; nothing else.
   */
  lemma PropertyNames(user: Record, infer: string -> Inference)
    requires !Throws(user)
    ensures Build(user, infer).value.Keys
         == Keys(user) + (if "displayName" in Keys(user) then {"email", "mode"} else {})
  {
    var attrs := Build(user, infer).value;
    var extra := if "displayName" in Keys(user) then {"email", "mode"} else {};
    forall k | k in attrs ensures k in Keys(user) + extra {
      FoldKeys(user, Writes(infer), k);
      var i :| 0 <= i < |user| && k in Writes(infer)(user[i].0, user[i].1);
      assert user[i].0 in Keys(user);
    }
    forall k | k in Keys(user) + extra ensures k in attrs {
      FoldKeys(user, Writes(infer), k);
      if k in Keys(user) {
        var i :| 0 <= i < |user| && user[i].0 == k;
        assert k in Writes(infer)(user[i].0, user[i].1);
      } else {
        var i :| 0 <= i < |user| && user[i].0 == "displayName";
        assert StringOf(user[i].1).Some?;
        assert k in Writes(infer)(user[i].0, user[i].1);
      }
    }
  }

  /** Every property other than the three derived ones is the record's value, or null when absent. */
  lemma OtherPropertiesVerbatim(user: Record, infer: string -> Inference, k: string)
    requires !Throws(user)
    requires k != "displayName" && k != "email" && k != "mode"
    ensures Prop(Build(user, infer).value, k) == LookupOrNull(user, k)
  {
    FoldCopiesKey(user, Writes(infer), k);
  }

  /**
   * A display name that no later pair touches determines the three derived
   * properties, whatever `email` or `mode` the record held before it.
   */
  lemma DerivedWhenLast(pre: Record, v: Value, post: Record, infer: string -> Inference)
    requires !Throws(pre + [("displayName", v)] + post)
    requires forall i :: 0 <= i < |post| ==> post[i].0 != "displayName" && post[i].0 != "email" && post[i].0 != "mode"
    ensures StringOf(v).Some?
    ensures var attrs := Build(pre + [("displayName", v)] + post, infer).value;
            var inf := infer(StringOf(v).value);
            && "email" in attrs && "mode" in attrs && "displayName" in attrs
            && attrs["email"] == Str(inf.email)
            && attrs["mode"] == Str(inf.mode)
            && attrs["displayName"] == (if inf.rename.Some? then Str(inf.rename.value) else v)
  {
    var user := pre + [("displayName", v)] + post;
    assert user[|pre|] == ("displayName", v);
    var w := Writes(infer);
    forall i | 0 <= i < |post| ensures "email" !in w(post[i].0, post[i].1) {}
    forall i | 0 <= i < |post| ensures "mode" !in w(post[i].0, post[i].1) {}
    forall i | 0 <= i < |post| ensures "displayName" !in w(post[i].0, post[i].1) {}
    LastWriterWins(pre, ("displayName", v), post, w, "email");
    LastWriterWins(pre, ("displayName", v), post, w, "mode");
    LastWriterWins(pre, ("displayName", v), post, w, "displayName");
  }

  /** A display name made of plain words: a token free of `@` and of `ucwords` separators. */
  predicate SimpleName(t: string) {
    && IsToken(t)
    && forall i :: 0 <= i < |t| ==> t[i] != '@' && !IsWordSeparator(t[i])
  }

  /** A case-insensitive match of the domain starts with an `@`. */
  lemma MatchStartsWithAt(hay: string, j: nat)
    ensures MatchesAt(hay, Domain, j) ==> j < |hay| && hay[j] == '@'
  {
    assert Domain[0] == '@';
  }

  /** Without an `@`, the domain is never found. */
  lemma NoAtNoDomain(s: string)
    requires forall i :: 0 <= i < |s| ==> s[i] != '@'
    ensures Stripos(s, Domain) == None
  {
    forall j | 0 <= j ensures !MatchesAt(s, Domain, j) {
      MatchStartsWithAt(s, j);
    }
  }

  /** Appending the domain to text without an `@` makes it found exactly there. */
  lemma DomainAtEnd(x: string)
    requires forall i :: 0 <= i < |x| ==> x[i] != '@'
    ensures Stripos(x + Domain, Domain) == Some(|x|)
  {
    var h := x + Domain;
    assert MatchesAt(h, Domain, |x|) by {
      assert forall k :: 0 <= k < |Domain| ==> h[|x| + k] == Domain[k];
    }
    forall j | 0 <= j < |x| ensures !MatchesAt(h, Domain, j) {
      MatchStartsWithAt(h, j);
      assert h[j] == x[j];
    }
  }

  /** Any text followed by the domain contains it. */
  lemma DomainFound(x: string)
    ensures Stripos(x + Domain, Domain).Some?
  {
    var h := x + Domain;
    assert forall k :: 0 <= k < |Domain| ==> h[|x| + k] == Domain[k];
    assert MatchesAt(h, Domain, |x|);
  }

  /** Two simple names joined by another character contain neither `@` nor a space besides that character. */
  lemma PairLacks(a: string, sep: char, b: string, c: char)
    requires SimpleName(a) && SimpleName(b) && sep != c && (c == '@' || c == ' ')
    ensures forall i :: 0 <= i < |a + [sep] + b| ==> (a + [sep] + b)[i] != c
  {
    var s := a + [sep] + b;
    forall i | 0 <= i < |s| ensures s[i] != c {
      if i < |a| {
        assert s[i] == a[i];
      } else if i > |a| {
        assert s[i] == b[i - |a| - 1];
      }
    }
  }

  /** "first last" takes the space branch and splits into its two words. */
  lemma SpacedSpelling(a: string, b: string)
    requires SimpleName(a) && SimpleName(b)
    ensures BranchOf(a + " " + b) == BySpace
    ensures Tokens(a + " " + b) == [a, b]
  {
    TokensOfPair(a, ' ', b);
    SpacedBranch(a, b);
  }

  lemma SpacedBranch(a: string, b: string)
    requires SimpleName(a) && SimpleName(b)
    ensures BranchOf(a + " " + b) == BySpace
  {
    var s := a + " " + b;
    PairLacks(a, ' ', b, '@');
    NoAtNoDomain(s);
    assert s[|a|] == ' ';
    assert s[0] == a[0] && IsTokenChar(a[0]);
  }

  /** "first.last" takes the dots branch and splits into its two words. */
  lemma DottedSpelling(a: string, b: string)
    requires SimpleName(a) && SimpleName(b)
    ensures BranchOf(a + "." + b) == ByDots
    ensures Tokens(a + "." + b) == [a, b]
  {
    TokensOfPair(a, '.', b);
    DottedBranch(a, b);
  }

  lemma DottedBranch(a: string, b: string)
    requires SimpleName(a) && SimpleName(b)
    ensures BranchOf(a + "." + b) == ByDots
  {
    var s := a + "." + b;
    PairLacks(a, '.', b, '@');
    PairLacks(a, '.', b, ' ');
    NoAtNoDomain(s);
    assert ' ' !in s;
  }

  /** The period between two simple names reads as a space. */
  lemma SpacedDots(a: string, b: string)
    requires SimpleName(a) && SimpleName(b)
    ensures DotsToSpaces(a + "." + b) == a + " " + b
  {
    var x := a + "." + b;
    var y := a + " " + b;
    var spaced := DotsToSpaces(x);
    forall i | 0 <= i < |x| ensures spaced[i] == y[i] {
      if i < |a| {
        assert x[i] == a[i] && y[i] == a[i];
        assert IsTokenChar(a[i]);
      } else if i > |a| {
        assert x[i] == b[i - |a| - 1] && y[i] == b[i - |a| - 1];
        assert IsTokenChar(b[i - |a| - 1]);
      }
    }
  }

  /** `ucwords` on "first last" capitalises exactly the two initials. */
  lemma CapitalisedPair(a: string, b: string)
    requires SimpleName(a) && SimpleName(b)
    ensures Ucwords(a + " " + b) == Ucfirst(a) + " " + Ucfirst(b)
  {
    var y := a + " " + b;
    var u := Ucwords(y);
    var want := Ucfirst(a) + " " + Ucfirst(b);
    forall i | 0 <= i < |y| ensures u[i] == want[i] {
      if i == 0 {
        assert y[0] == a[0] && want[0] == Ucfirst(a)[0];
      } else if i < |a| {
        assert y[i - 1] == a[i - 1] && y[i] == a[i];
        assert Ucfirst(a)[i] == a[i] && want[i] == Ucfirst(a)[i];
      } else if i == |a| {
        assert y[i - 1] == a[|a| - 1] && y[i] == ' ' && want[i] == ' ';
      } else if i == |a| + 1 {
        assert y[i - 1] == ' ' && y[i] == b[0] && want[i] == Ucfirst(b)[0];
      } else {
        assert y[i - 1] == b[i - |a| - 2] && y[i] == b[i - |a| - 1];
        assert Ucfirst(b)[i - |a| - 1] == b[i - |a| - 1] && want[i] == Ucfirst(b)[i - |a| - 1];
      }
    }
  }

  /**
   * "first.last@redflaggroup.com" takes the address branch, and the name in
   * front of the domain reads back as "First Last".
   */
  lemma AddressSpelling(a: string, b: string)
    requires SimpleName(a) && SimpleName(b)
    ensures BranchOf(a + "." + b + Domain) == ByAddress(|a| + 1 + |b|)
    ensures NameFromAddress(a + "." + b + Domain, |a| + 1 + |b|) == Ucfirst(a) + " " + Ucfirst(b)
  {
    var x := a + "." + b;
    assert forall i :: 0 <= i < |x| ==> x[i] != '@' by {
      assert forall i :: 0 <= i < |a| ==> x[i] == a[i];
      assert forall i :: |a| < i < |x| ==> x[i] == b[i - |a| - 1];
    }
    DomainAtEnd(x);
    assert (x + Domain)[..|x|] == x;
    SpacedDots(a, b);
    CapitalisedPair(a, b);
  }

  /** Two tokens joined by a period are already lower-case and trimmed. */
  lemma JoinIsNormal(a: string, b: string)
    requires IsToken(a) && IsToken(b)
    ensures Lower(a + "." + b) == a + "." + b
    ensures Trim(a + "." + b) == a + "." + b
  {
    JoinLower(a, b);
    JoinTrim(a, b);
  }

  lemma JoinLower(a: string, b: string)
    requires AllTokenChars(a) && AllTokenChars(b)
    ensures Lower(a + "." + b) == a + "." + b
  {
    var x := a + "." + b;
    var y := Lower(x);
    forall i | 0 <= i < |x| ensures y[i] == x[i] {
      if i < |a| {
        assert x[i] == a[i] && IsTokenChar(a[i]);
      } else if i > |a| {
        assert x[i] == b[i - |a| - 1] && IsTokenChar(b[i - |a| - 1]);
      }
    }
  }

  lemma JoinTrim(a: string, b: string)
    requires IsToken(a) && IsToken(b)
    ensures Trim(a + "." + b) == a + "." + b
  {
    var x := a + "." + b;
    assert x[0] == a[0] && x[|x| - 1] == b[|b| - 1];
  }
}
