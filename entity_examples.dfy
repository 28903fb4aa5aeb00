/**
 * Worked display names for the two user entity constructors: an address,
 * a spaced name with capitals, and a dotted name, which the two
 * constructors address differently.
 */
module EntityExamples {
  import opened Wrappers
  import opened PhpStrings
  import opened DisplayName
  import UsersEntity
  import JiraUsersEntity

  /** The names the John Doe examples start from, and their capitalised form. */
  lemma JohnAndDoe()
    ensures SimpleName("john") && SimpleName("doe")
    ensures Ucfirst("john") + " " + Ucfirst("doe") == "John Doe"
  {
    assert Ucfirst("john") == "John" && Ucfirst("doe") == "Doe";
  }

  /** The addresses the John Doe examples compare against. */
  lemma JohnDoeAddresses()
    ensures "john" + "." + "doe" == "john.doe"
    ensures "john" + "." + "doe" + Domain == "john.doe@redflaggroup.com"
    ensures "john" + "." + "john" + Domain == "john.john@redflaggroup.com"
  {
  }

  /** An address is kept and the person is named after the part before the domain. */
  lemma AddressExample()
    ensures UsersEntity.Inferred("john.doe@redflaggroup.com")
            == Inference(Some("John Doe"), "john.doe@redflaggroup.com", "email")
    ensures JiraUsersEntity.Inferred("john.doe@redflaggroup.com")
            == Inference(Some("John Doe"), "john.doe@redflaggroup.com", "email")
  {
    JohnAndDoe();
    JohnDoeAddresses();
    UsersEntity.SpellingsAgree("john", "doe");
  }

  /** A dotted name is renamed "First Last"; only the jira namespace addresses it as first.first@. */
  lemma DottedExample()
    ensures UsersEntity.Inferred("john.doe") == Inference(Some("John Doe"), "john.doe@redflaggroup.com", "name+dots")
    ensures JiraUsersEntity.Inferred("john.doe") == Inference(Some("John Doe"), "john.john@redflaggroup.com", "name+dots")
  {
    JohnAndDoe();
    JohnDoeAddresses();
    UsersEntity.SpellingsAgree("john", "doe");
    JiraUsersEntity.Spellings("john", "doe");
  }

  lemma JaneSmithWords()
    ensures Words("Jane Smith") == ["Jane", "Smith"]
  {
    var s := "Jane Smith";
    assert RunEnd(s, 0) == 4;
    assert RunEnd(s, 5) == 10;
    assert WordsFrom(s, 10) == [];
    assert s[5..10] == "Smith";
    assert WordsFrom(s, 5) == ["Smith"];
    assert WordsFrom(s, 4) == ["Smith"];
    assert s[0..4] == "Jane";
  }

  lemma NormalizedPair(w1: string, w2: string, t1: string, t2: string)
    requires Lower(w1) == t1 && Trim(t1) == t1 && !IsEmptyString(t1)
    requires Lower(w2) == t2 && Trim(t2) == t2 && !IsEmptyString(t2)
    ensures Normalized([w1, w2]) == [t1, t2]
  {
    assert [w1, w2][1..] == [w2];
    assert [w2][1..] == [];
  }

  lemma JaneSmithTokens()
    ensures Tokens("Jane Smith") == ["jane", "smith"]
  {
    assert Lower("Jane") == "jane" && Lower("Smith") == "smith";
    TokenIsNormal("jane");
    TokenIsNormal("smith");
    JaneSmithWords();
    NormalizedPair("Jane", "Smith", "jane", "smith");
  }

  /** A spaced name keeps its display name and is addressed by its words, lower-cased. */
  lemma SpacedExample()
    ensures UsersEntity.Inferred("Jane Smith") == Inference(None, "jane.smith@redflaggroup.com", "name+space")
    ensures JiraUsersEntity.Inferred("Jane Smith") == UsersEntity.Inferred("Jane Smith")
  {
    assert "jane" + "." + "smith" + Domain == "jane.smith@redflaggroup.com";
    assert Stripos("Jane Smith", Domain) == None;
    assert Strpos("Jane Smith", ' ') == Some(4);
    assert BranchOf("Jane Smith") == BySpace;
    JaneSmithTokens();
    JiraUsersEntity.AgreeWithUsersEntity("Jane Smith");
  }

  /** One word is addressed as word.word@ in the jira namespace and gets the fallback in the other. */
  lemma OneWordExample()
    ensures JiraUsersEntity.Inferred("onlyoneword")
            == Inference(None, "onlyoneword.onlyoneword@redflaggroup.com", "name+dots")
    ensures UsersEntity.Inferred("onlyoneword") == Inference(None, "unknown@example.com", "name+dots")
  {
    assert "onlyoneword" + "." + "onlyoneword" + Domain == "onlyoneword.onlyoneword@redflaggroup.com";
    assert SimpleName("onlyoneword");
    JiraUsersEntity.SingleWord("onlyoneword");
    UsersEntity.SingleWord("onlyoneword");
  }

  /** Periods only: no word survives, and the jira namespace addresses it as .@redflaggroup.com. */
  lemma DotsOnlyExample()
    ensures JiraUsersEntity.Inferred("...") == Inference(None, ".@redflaggroup.com", "name+dots")
  {
    assert "." + Domain == ".@redflaggroup.com";
    var s := "...";
    assert RunEnd(s, 0) == 0 && RunEnd(s, 1) == 1 && RunEnd(s, 2) == 2;
    assert WordsFrom(s, 3) == [];
    assert WordsFrom(s, 0) == [];
    assert Tokens(s) == [];
    assert Stripos(s, Domain) == None;
    assert Strpos(s, ' ') == None;
    assert BranchOf(s) == ByDots;
    JiraUsersEntity.NoWords(s);
  }

}
