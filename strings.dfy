/**
 * The PHP string functions the entity constructors and endpoint setters use,
 * as byte-wise ASCII operations: `strtolower`, `ucfirst`, `ucwords`, `strtr`,
 * `stripos`, `strpos`, `trim`, `rtrim` and the `strtok` tokenising loop.
 */
module PhpStrings {
  import opened Wrappers

  function LowerChar(c: char): char {
    if 'A' <= c <= 'Z' then (c as int + 32) as char else c
  }

  function UpperChar(c: char): char {
    if 'a' <= c <= 'z' then (c as int - 32) as char else c
  }

  /** `strtolower` */
  function Lower(s: string): (r: string)
    ensures |r| == |s|
    ensures forall i :: 0 <= i < |s| ==> r[i] == LowerChar(s[i])
  {
    if s == [] then [] else [LowerChar(s[0])] + Lower(s[1..])
  }

  /** `ucfirst` */
  function Ucfirst(s: string): (r: string)
    ensures |r| == |s|
    ensures s != [] ==> r[0] == UpperChar(s[0]) && r[1..] == s[1..]
  {
    if s == [] then [] else [UpperChar(s[0])] + s[1..]
  }

  /** The characters after which `ucwords` starts a new word. */
  predicate IsWordSeparator(c: char) {
    c == ' ' || c == '\t' || c == '\r' || c == '\n' || c == '\U{0C}' || c == '\U{0B}'
  }

  /** `ucwords`: upper-case the first character and every character after a separator. */
  function Ucwords(s: string): (r: string)
    ensures |r| == |s|
    ensures s != [] ==> r[0] == UpperChar(s[0])
    ensures forall i :: 0 < i < |s| ==> r[i] == if IsWordSeparator(s[i - 1]) then UpperChar(s[i]) else s[i]
  {
    UcwordsAfter(s, true)
  }

  function UcwordsAfter(s: string, atStart: bool): (r: string)
    ensures |r| == |s|
    ensures s != [] ==> r[0] == if atStart then UpperChar(s[0]) else s[0]
    ensures forall i :: 0 < i < |s| ==> r[i] == if IsWordSeparator(s[i - 1]) then UpperChar(s[i]) else s[i]
  {
    if s == [] then []
    else [if atStart then UpperChar(s[0]) else s[0]] + UcwordsAfter(s[1..], IsWordSeparator(s[0]))
  }

  /** `strtr($s, ".", " ")` */
  function DotsToSpaces(s: string): (r: string)
    ensures |r| == |s|
    ensures forall i :: 0 <= i < |s| ==> r[i] == if s[i] == '.' then ' ' else s[i]
  {
    if s == [] then [] else [if s[0] == '.' then ' ' else s[0]] + DotsToSpaces(s[1..])
  }

  /** The characters `trim` strips by default. */
  predicate IsTrimChar(c: char) {
    c == ' ' || c == '\t' || c == '\n' || c == '\r' || c == '\0' || c == '\U{0B}'
  }

  /** A character the token loop can leave in a token: already lower-case, not a delimiter. */
  predicate IsTokenChar(c: char) {
    LowerChar(c) == c && !IsTokenDelimiter(c)
  }

  function TrimLeft(s: string): (r: string)
    ensures |r| <= |s|
    ensures r == [] || !IsTrimChar(r[0])
    ensures r != [] ==> r[|r| - 1] == s[|s| - 1]
    ensures AllTokenChars(s) ==> AllTokenChars(r)
    ensures s == [] || !IsTrimChar(s[0]) ==> r == s
  {
    if s != [] && IsTrimChar(s[0]) then TrimLeft(s[1..]) else s
  }

  function TrimRight(s: string): (r: string)
    ensures |r| <= |s|
    ensures r == [] || !IsTrimChar(r[|r| - 1])
    ensures r != [] ==> r[0] == s[0]
    ensures AllTokenChars(s) ==> AllTokenChars(r)
    ensures s == [] || !IsTrimChar(s[|s| - 1]) ==> r == s
  {
    if s != [] && IsTrimChar(s[|s| - 1]) then TrimRight(s[..|s| - 1]) else s
  }

  /** `trim`: no strippable character is left at either end, and nothing new appears. */
  function Trim(s: string): (r: string)
    ensures r == [] || (!IsTrimChar(r[0]) && !IsTrimChar(r[|r| - 1]))
    ensures AllTokenChars(s) ==> AllTokenChars(r)
    ensures s == [] || (!IsTrimChar(s[0]) && !IsTrimChar(s[|s| - 1])) ==> r == s
  {
    TrimRight(TrimLeft(s))
  }

  predicate AllTokenChars(s: string) {
    forall i :: 0 <= i < |s| ==> IsTokenChar(s[i])
  }

  /** `rtrim($s, '/')`: drop every trailing slash. */
  function RtrimSlashes(s: string): (r: string)
    ensures |r| <= |s| && r == s[..|r|]
    ensures r == [] || r[|r| - 1] != '/'
    ensures forall i :: |r| <= i < |s| ==> s[i] == '/'
  {
    if s != [] && s[|s| - 1] == '/' then RtrimSlashes(s[..|s| - 1]) else s
  }

  /** `n` slashes. */
  function Slashes(n: nat): (r: string)
    ensures |r| == n && forall i :: 0 <= i < n ==> r[i] == '/'
  {
    if n == 0 then "" else Slashes(n - 1) + "/"
  }

  /** Trailing slashes do not matter: a URL with any number of them trims to the same string. */
  lemma {:induction false} RtrimIgnoresSlashes(s: string, n: nat)
    ensures RtrimSlashes(s + Slashes(n)) == RtrimSlashes(s)
  {
    if n > 0 {
      var t := s + Slashes(n);
      assert t[..|t| - 1] == s + Slashes(n - 1);
      RtrimIgnoresSlashes(s, n - 1);
    } else {
      assert s + Slashes(0) == s;
    }
  }

  /** Trimming a trimmed URL changes nothing. */
  lemma RtrimIdempotent(s: string)
    ensures RtrimSlashes(RtrimSlashes(s)) == RtrimSlashes(s)
  {
  }

  /** `empty($s)` on a string: the empty string and "0". */
  predicate IsEmptyString(s: string) {
    s == "" || s == "0"
  }

  /** A case-insensitive match of `needle` at position `i` of `hay`. */
  predicate MatchesAt(hay: string, needle: string, i: nat) {
    i + |needle| <= |hay| && forall k :: 0 <= k < |needle| ==> LowerChar(hay[i + k]) == LowerChar(needle[k])
  }

  function StriposFrom(hay: string, needle: string, i: nat): (r: Option<nat>)
    ensures r.Some? ==> i <= r.value && MatchesAt(hay, needle, r.value)
    ensures r.Some? ==> forall j :: i <= j < r.value ==> !MatchesAt(hay, needle, j)
    ensures r.None? ==> forall j :: i <= j ==> !MatchesAt(hay, needle, j)
    decreases |hay| - i
  {
    if i + |needle| > |hay| then None
    else if MatchesAt(hay, needle, i) then Some(i)
    else StriposFrom(hay, needle, i + 1)
  }

  /** `stripos`: the first case-insensitive occurrence, or PHP's `false`. */
  function Stripos(hay: string, needle: string): (r: Option<nat>)
    ensures r.Some? ==> MatchesAt(hay, needle, r.value) && forall j :: 0 <= j < r.value ==> !MatchesAt(hay, needle, j)
    ensures r.None? <==> forall j :: 0 <= j ==> !MatchesAt(hay, needle, j)
  {
    StriposFrom(hay, needle, 0)
  }

  function StrposFrom(s: string, c: char, i: nat): (r: Option<nat>)
    ensures r.Some? ==> i <= r.value < |s| && s[r.value] == c && forall j :: i <= j < r.value ==> s[j] != c
    ensures r.None? ==> forall j :: i <= j < |s| ==> s[j] != c
    decreases |s| - i
  {
    if i >= |s| then None
    else if s[i] == c then Some(i)
    else StrposFrom(s, c, i + 1)
  }

  /** `strpos` for one character: the first occurrence, or PHP's `false`. */
  function Strpos(s: string, c: char): (r: Option<nat>)
    ensures r.Some? <==> c in s
    ensures r.Some? ==> r.value < |s| && s[r.value] == c && forall j :: 0 <= j < r.value ==> s[j] != c
  {
    StrposFrom(s, c, 0)
  }

  /** The delimiters the entity constructors hand to `strtok`: space, comma, period, newline, tab. */
  predicate IsTokenDelimiter(c: char) {
    c == ' ' || c == ',' || c == '.' || c == '\n' || c == '\t'
  }

  /** The end of the delimiter-free run that starts at `i`. */
  function RunEnd(s: string, i: nat): (j: nat)
    requires i <= |s|
    ensures i <= j <= |s|
    ensures j == |s| || IsTokenDelimiter(s[j])
    ensures forall k :: i <= k < j ==> !IsTokenDelimiter(s[k])
    decreases |s| - i
  {
    if i == |s| || IsTokenDelimiter(s[i]) then i else RunEnd(s, i + 1)
  }

  /** The pieces successive `strtok` calls return from position `i` on: maximal delimiter-free runs. */
  function WordsFrom(s: string, i: nat): (ws: seq<string>)
    requires i <= |s|
    ensures forall k :: 0 <= k < |ws| ==> ws[k] != [] && forall c :: c in ws[k] ==> c in s && !IsTokenDelimiter(c)
    decreases |s| - i
  {
    if i == |s| then []
    else if IsTokenDelimiter(s[i]) then WordsFrom(s, i + 1)
    else
      var j := RunEnd(s, i);
      var rest := WordsFrom(s, j);
      assert forall c :: c in s[i..j] ==> c in s && !IsTokenDelimiter(c);
      [s[i..j]] + rest
  }

  function Words(s: string): seq<string> {
    WordsFrom(s, 0)
  }

  /** `trim(strtolower($tok))`, kept unless `empty()` drops it. */
  function Normalized(words: seq<string>): (ts: seq<string>)
    ensures |ts| <= |words|
  {
    if words == [] then []
    else
      var t := Trim(Lower(words[0]));
      if IsEmptyString(t) then Normalized(words[1..]) else [t] + Normalized(words[1..])
  }

  /**
   * The list `$res` the entity constructors build with their `strtok` loop:
   * at most one entry per piece, each a token.
   */
  function Tokens(s: string): (ts: seq<string>)
    ensures |ts| <= |Words(s)|
    ensures forall k :: 0 <= k < |ts| ==> IsToken(ts[k])
  {
    NormalizedAreTokens(Words(s));
    Normalized(Words(s))
  }

  /** A token as the loop leaves it: non-empty, not "0", trimmed, lower-case and delimiter-free. */
  predicate IsToken(t: string) {
    && t != [] && !IsEmptyString(t)
    && !IsTrimChar(t[0]) && !IsTrimChar(t[|t| - 1])
    && AllTokenChars(t)
  }

  /** Lower-casing and trimming a token again changes nothing. */
  lemma TokenIsNormal(t: string)
    requires IsToken(t)
    ensures Lower(t) == t && Trim(t) == t
  {
    assert forall i :: 0 <= i < |t| ==> Lower(t)[i] == t[i];
  }

  lemma NormalizedWordIsToken(w: string)
    requires forall c :: c in w ==> !IsTokenDelimiter(c)
    requires !IsEmptyString(Trim(Lower(w)))
    ensures IsToken(Trim(Lower(w)))
  {
    LowerWordChars(w);
  }

  /** Lower-casing a delimiter-free word leaves only token characters. */
  lemma LowerWordChars(w: string)
    requires forall c :: c in w ==> !IsTokenDelimiter(c)
    ensures AllTokenChars(Lower(w))
  {
    var l := Lower(w);
    forall i | 0 <= i < |l| ensures IsTokenChar(l[i]) {
      assert w[i] in w;
    }
  }

  lemma {:induction false} NormalizedAreTokens(ws: seq<string>)
    requires forall k :: 0 <= k < |ws| ==> forall c :: c in ws[k] ==> !IsTokenDelimiter(c)
    ensures forall k :: 0 <= k < |Normalized(ws)| ==> IsToken(Normalized(ws)[k])
  {
    if ws != [] {
      NormalizedAreTokens(ws[1..]);
      var t := Trim(Lower(ws[0]));
      if !IsEmptyString(t) {
        NormalizedWordIsToken(ws[0]);
      }
    }
  }

  /**
   * The `strtok` loop of the entity constructors: scan for the next
   * delimiter-free run, lower-case and trim it, keep it unless `empty()`.
   */
  method Tokenize(s: string) returns (res: seq<string>)
    ensures res == Tokens(s)
  {
    res := [];
    var i := 0;
    while i < |s|
      invariant 0 <= i <= |s|
      invariant Tokens(s) == res + Normalized(WordsFrom(s, i))
      decreases |s| - i
    {
      if IsTokenDelimiter(s[i]) {
        i := i + 1;
      } else {
        var j := ScanRun(s, i);
        var word := s[i..j];
        RunThenWords(s, i);
        PushToken(res, word, WordsFrom(s, j));
        var val := Trim(Lower(word));
        if !IsEmptyString(val) {
          res := res + [val];
        }
        i := j;
      }
    }
  }

  /** `strtok` scanning one token: move on while the character is not a delimiter. */
  method ScanRun(s: string, i: nat) returns (j: nat)
    requires i <= |s|
    ensures j == RunEnd(s, i)
  {
    j := i;
    while j < |s| && !IsTokenDelimiter(s[j])
      invariant i <= j <= |s|
      invariant RunEnd(s, i) == RunEnd(s, j)
      decreases |s| - j
    {
      j := j + 1;
    }
  }

  /** A run that starts at `i` is the next word, and the words after it start where it ends. */
  lemma RunThenWords(s: string, i: nat)
    requires i < |s| && !IsTokenDelimiter(s[i])
    ensures WordsFrom(s, i) == [s[i..RunEnd(s, i)]] + WordsFrom(s, RunEnd(s, i))
  {
  }

  /** One pass of the token loop over a word `w`: its token, unless `empty()` drops it, joins `res`. */
  lemma PushToken(res: seq<string>, w: string, ws: seq<string>)
    ensures var t := Trim(Lower(w));
            res + Normalized([w] + ws) == (if IsEmptyString(t) then res else res + [t]) + Normalized(ws)
  {
    var t := Trim(Lower(w));
    NormalizedCons(w, ws);
    if !IsEmptyString(t) {
      assert res + ([t] + Normalized(ws)) == res + [t] + Normalized(ws);
    }
  }

  /** The token list of `[w] + ws`: the normalized `w` unless `empty()` drops it, then the rest. */
  lemma NormalizedCons(w: string, ws: seq<string>)
    ensures var t := Trim(Lower(w));
            Normalized([w] + ws) == (if IsEmptyString(t) then [] else [t]) + Normalized(ws)
  {
    assert ([w] + ws)[1..] == ws;
  }

  /** Two delimiter-free words joined by one delimiter split into exactly those two words. */
  lemma WordsOfPair(a: string, sep: char, b: string)
    requires a != [] && b != [] && IsTokenDelimiter(sep)
    requires forall i :: 0 <= i < |a| ==> !IsTokenDelimiter(a[i])
    requires forall i :: 0 <= i < |b| ==> !IsTokenDelimiter(b[i])
    ensures Words(a + [sep] + b) == [a, b]
  {
    var s := a + [sep] + b;
    var n := |a| + 1;
    assert forall k :: 0 <= k < |a| ==> s[k] == a[k];
    assert forall k :: n <= k < |s| ==> s[k] == b[k - n];
    assert s[|a|] == sep;
    assert forall k :: 0 <= k < |a| ==> !IsTokenDelimiter(s[k]);
    assert RunEnd(s, 0) == |a|;
    assert RunEnd(s, n) == |s|;
    assert s[0..|a|] == a;
    assert s[n..|s|] == b;
    assert WordsFrom(s, |s|) == [];
    assert WordsFrom(s, n) == [b];
    assert WordsFrom(s, |a|) == [b];
  }

  /** Two tokens joined by one delimiter tokenise back to the same two tokens. */
  lemma TokensOfPair(a: string, sep: char, b: string)
    requires IsToken(a) && IsToken(b) && IsTokenDelimiter(sep)
    ensures Tokens(a + [sep] + b) == [a, b]
  {
    WordsOfPair(a, sep, b);
    TokenIsNormal(a);
    TokenIsNormal(b);
    assert [a, b][1..] == [b];
    assert Normalized([b]) == [b];
  }

  /** A single token is its own token list. */
  lemma TokensOfWord(a: string)
    requires IsToken(a)
    ensures Tokens(a) == [a]
  {
    assert forall k :: 0 <= k < |a| ==> !IsTokenDelimiter(a[k]) by {
      assert forall k :: 0 <= k < |a| ==> IsTokenChar(a[k]);
    }
    assert RunEnd(a, 0) == |a|;
    assert a[0..|a|] == a;
    assert WordsFrom(a, |a|) == [];
    assert Words(a) == [a];
    TokenIsNormal(a);
  }
}
