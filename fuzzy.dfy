/** Typo-tolerant search: Levenshtein distance and the word-by-word fuzzy matcher behind every search box. */
module Fuzzy {
  import opened Seqs
  import opened Text

  function Min(x: nat, y: nat): nat { if x <= y then x else y }

  /**
   * Edit distance between the prefixes a[..i] and b[..j]: the table whose rows the
   * dynamic programme keeps, one at a time, in its `costs` buffer.
   */
  function Dist(a: string, b: string, i: nat, j: nat): nat
    requires i <= |a| && j <= |b|
    decreases i + j
  {
    if i == 0 then j
    else if j == 0 then i
    else if a[i - 1] == b[j - 1] then Dist(a, b, i - 1, j - 1)
    else Min(Min(Dist(a, b, i - 1, j - 1), Dist(a, b, i, j - 1)), Dist(a, b, i - 1, j)) + 1
  }

  /** Edit distance between two whole strings. */
  function Lev(a: string, b: string): nat
  {
    Dist(a, b, |a|, |b|)
  }

  /** What `levenshteinDistance` computes: the distance after lower-casing both sides. */
  function Distance(s1: string, s2: string): nat
  {
    Lev(ToLower(s1), ToLower(s2))
  }

  /** Row i of the distance table, as held in the `costs` buffer. */
  ghost function Row(a: string, b: string, i: nat): (r: seq<nat>)
    requires i <= |a|
    ensures |r| == |b| + 1
    ensures forall k :: 0 <= k <= |b| ==> r[k] == Dist(a, b, i, k)
  {
    seq(|b| + 1, k requires 0 <= k <= |b| => Dist(a, b, i, k))
  }

  ghost predicate RowIs(c: seq<nat>, a: string, b: string, i: nat)
    requires i <= |a|
  {
    c == Row(a, b, i)
  }

  /**
   * `levenshteinDistance`: one row of the table at a time in `costs`, the first row
   * filled directly and each later one computed over the previous.
   */
  method LevenshteinDistance(s1: string, s2: string) returns (d: nat)
    ensures d == Distance(s1, s2)
  {
    var a := ToLower(s1);
    var b := ToLower(s2);
    var costs := new nat[|b| + 1];
    var i := 0;
    while i <= |a|
      invariant 0 <= i <= |a| + 1
      invariant i > 0 ==> RowIs(costs[..], a, b, i - 1)
    {
      NextRow(a, b, i, costs);
      i := i + 1;
    }
    d := costs[|b|];
  }

  /** One pass of the outer loop: the first row is filled directly, later rows from the previous. */
  method NextRow(a: string, b: string, i: nat, costs: array<nat>)
    requires i <= |a| && costs.Length == |b| + 1
    requires i > 0 ==> RowIs(costs[..], a, b, i - 1)
    modifies costs
    ensures RowIs(costs[..], a, b, i)
  {
    if i == 0 {
      FirstRow(a, b, costs);
    } else {
      LaterRow(a, b, i, costs);
    }
  }

  /** On the first pass `costs[j] = j`. */
  method FirstRow(a: string, b: string, costs: array<nat>)
    requires costs.Length == |b| + 1
    modifies costs
    ensures RowIs(costs[..], a, b, 0)
  {
    for j := 0 to |b| + 1
      invariant forall k :: 0 <= k < j ==> costs[k] == k
    {
      costs[j] := j;
    }
  }

  /**
   * A later pass: `lastValue` holds the entry just left of the one being computed,
   * and `costs[j - 1]` is overwritten only once row i - 1 no longer needs it, so the
   * buffer holds row i up to j - 1 and row i - 1 from there on.
   */
  method LaterRow(a: string, b: string, i: nat, costs: array<nat>)
    requires 0 < i <= |a| && costs.Length == |b| + 1
    requires RowIs(costs[..], a, b, i - 1)
    modifies costs
    ensures RowIs(costs[..], a, b, i)
  {
    var lastValue: nat := i;
    for j := 0 to |b| + 1
      invariant lastValue == Dist(a, b, i, if j == 0 then 0 else j - 1)
      invariant costs[..] == Spliced(a, b, i, if j == 0 then 0 else j - 1)
    {
      if j > 0 {
        lastValue := Cell(a, b, i, j, costs, lastValue);
      }
    }
    costs[|b|] := lastValue;
    SplicedStep(a, b, i, |b|);
  }

  /**
   * One step of the inner loop: entry (i, j) from `costs[j - 1]` (above left),
   * `lastValue` (left) and `costs[j]` (above); `costs[j - 1]` then takes the entry left of it.
   */
  method Cell(a: string, b: string, i: nat, j: nat, costs: array<nat>, lastValue: nat) returns (newValue: nat)
    requires 0 < i <= |a| && 0 < j <= |b| && costs.Length == |b| + 1
    requires lastValue == Dist(a, b, i, j - 1) && costs[..] == Spliced(a, b, i, j - 1)
    modifies costs
    ensures newValue == Dist(a, b, i, j) && costs[..] == Spliced(a, b, i, j)
  {
    assert costs[j - 1] == Dist(a, b, i - 1, j - 1) by {
      SplicedAt(a, b, i, j - 1, j - 1);
    }
    assert costs[j] == Dist(a, b, i - 1, j) by {
      SplicedAt(a, b, i, j - 1, j);
    }
    newValue := costs[j - 1];
    if a[i - 1] != b[j - 1] {
      newValue := Min(Min(newValue, lastValue), costs[j]) + 1;
    }
    assert newValue == Dist(a, b, i, j) by {
      DistStep(a, b, i, j);
    }
    costs[j - 1] := lastValue;
    SplicedStep(a, b, i, j - 1);
  }

  /** Row i up to column m, row i - 1 from column m on. */
  ghost function Spliced(a: string, b: string, i: nat, m: nat): seq<nat>
    requires 0 < i <= |a| && m <= |b|
  {
    Row(a, b, i)[..m] + Row(a, b, i - 1)[m..]
  }

  lemma SplicedAt(a: string, b: string, i: nat, m: nat, k: nat)
    requires 0 < i <= |a| && m <= |b| && k <= |b|
    ensures Spliced(a, b, i, m)[k] == if k < m then Dist(a, b, i, k) else Dist(a, b, i - 1, k)
  {
  }

  /** One entry of the table from its three neighbours above and to the left. */
  lemma DistStep(a: string, b: string, i: nat, j: nat)
    requires 0 < i <= |a| && 0 < j <= |b|
    ensures Dist(a, b, i, j) == if a[i - 1] == b[j - 1] then Dist(a, b, i - 1, j - 1)
      else Min(Min(Dist(a, b, i - 1, j - 1), Dist(a, b, i, j - 1)), Dist(a, b, i - 1, j)) + 1
  {
  }

  lemma SplicedStep(a: string, b: string, i: nat, m: nat)
    requires 0 < i <= |a| && m <= |b|
    ensures Spliced(a, b, i, m)[m := Dist(a, b, i, m)]
         == if m < |b| then Spliced(a, b, i, m + 1) else Row(a, b, i)
  {
    if m < |b| {
      assert Spliced(a, b, i, m)[m := Dist(a, b, i, m)] == Spliced(a, b, i, m + 1);
    } else {
      assert Spliced(a, b, i, m)[m := Dist(a, b, i, m)] == Row(a, b, i);
    }
  }

  lemma {:induction false} DistUpper(a: string, b: string, i: nat, j: nat)
    requires i <= |a| && j <= |b|
    ensures Dist(a, b, i, j) <= if i <= j then j else i
    decreases i + j
  {
    if i > 0 && j > 0 {
      DistUpper(a, b, i - 1, j - 1);
    }
  }

  lemma {:induction false} DistLower(a: string, b: string, i: nat, j: nat)
    requires i <= |a| && j <= |b|
    ensures Dist(a, b, i, j) >= if i <= j then j - i else i - j
    decreases i + j
  {
    if i > 0 && j > 0 {
      DistLower(a, b, i - 1, j - 1);
      if a[i - 1] != b[j - 1] {
        DistLower(a, b, i, j - 1);
        DistLower(a, b, i - 1, j);
      }
    }
  }

  /** The distance is at least the difference in length and at most the longer length. */
  lemma LevBounds(a: string, b: string)
    ensures Lev(a, b) <= if |a| <= |b| then |b| else |a|
    ensures Lev(a, b) >= if |a| <= |b| then |b| - |a| else |a| - |b|
  {
    DistUpper(a, b, |a|, |b|);
    DistLower(a, b, |a|, |b|);
  }

  lemma {:induction false} DistSymmetric(a: string, b: string, i: nat, j: nat)
    requires i <= |a| && j <= |b|
    ensures Dist(a, b, i, j) == Dist(b, a, j, i)
    decreases i + j
  {
    if i > 0 && j > 0 {
      DistSymmetric(a, b, i - 1, j - 1);
      if a[i - 1] != b[j - 1] {
        DistSymmetric(a, b, i, j - 1);
        DistSymmetric(a, b, i - 1, j);
      }
    }
  }

  /** Transforming a into b costs as much as transforming b into a. */
  lemma LevSymmetric(a: string, b: string)
    ensures Lev(a, b) == Lev(b, a)
  {
    DistSymmetric(a, b, |a|, |b|);
  }

  lemma {:induction false} DistSamePrefix(a: string, b: string, i: nat)
    requires i <= |a| && i <= |b| && a[..i] == b[..i]
    ensures Dist(a, b, i, i) == 0
  {
    if i > 0 {
      assert a[i - 1] == a[..i][i - 1] && b[i - 1] == b[..i][i - 1];
      assert a[..i - 1] == a[..i][..i - 1] && b[..i - 1] == b[..i][..i - 1];
      DistSamePrefix(a, b, i - 1);
    }
  }

  lemma {:induction false} DistZero(a: string, b: string, i: nat, j: nat)
    requires i <= |a| && j <= |b| && Dist(a, b, i, j) == 0
    ensures i == j && a[..i] == b[..j]
    decreases i + j
  {
    DistLower(a, b, i, j);
    if i > 0 && j > 0 && a[i - 1] == b[j - 1] {
      DistZero(a, b, i - 1, j - 1);
      assert a[..i] == a[..i - 1] + [a[i - 1]];
      assert b[..j] == b[..j - 1] + [b[j - 1]];
    }
  }

  /** The distance is zero exactly for equal strings. */
  lemma LevZeroIff(a: string, b: string)
    ensures Lev(a, b) == 0 <==> a == b
  {
    assert a[..|a|] == a && b[..|b|] == b;
    if a == b {
      DistSamePrefix(a, b, |a|);
    }
    if Lev(a, b) == 0 {
      DistZero(a, b, |a|, |b|);
    }
  }

  /** a and b have the same length and differ at most at position p. */
  predicate OneSubstitution(a: string, b: string, p: nat)
  {
    |a| == |b| && p < |a| && forall k :: 0 <= k < |a| && k != p ==> a[k] == b[k]
  }

  lemma {:induction false} DistOneSubstitution(a: string, b: string, p: nat, i: nat)
    requires OneSubstitution(a, b, p) && i <= |a|
    ensures Dist(a, b, i, i) <= if i > p then 1 else 0
  {
    if i > 0 {
      if i - 1 == p {
        assert a[..i - 1] == b[..i - 1];
        DistSamePrefix(a, b, i - 1);
      } else {
        DistOneSubstitution(a, b, p, i - 1);
      }
    }
  }

  /** One mistyped character costs one edit. */
  lemma LevOneSubstitution(a: string, b: string, p: nat)
    requires OneSubstitution(a, b, p)
    ensures Lev(a, b) <= 1
  {
    DistOneSubstitution(a, b, p, |a|);
  }

  /** The typo budget of a search word: one edit up to seven characters, two beyond. */
  function Threshold(word: string): nat
  {
    if |word| > 7 then 2 else 1
  }

  predicate NonEmptyWord(w: string) { |w| > 0 }

  /** Some word of `words` lies within `w`'s typo budget. */
  predicate CloseToSome(w: string, words: seq<string>)
  {
    exists k | 0 <= k < |words| :: Distance(w, words[k]) <= Threshold(w)
  }

  /**
   * `fuzzySearch`: an empty term matches everything, an empty text nothing; a
   * case-insensitive substring matches; terms shorter than three characters need
   * that substring; otherwise every word of the term must be close to some word of
   * the text.
   */
  function FuzzySearch(term: string, text: string): (r: bool)
    ensures term == "" ==> r
    ensures term != "" && text == "" ==> !r
    ensures text != "" && Contains(ToLower(text), ToLower(term)) ==> r
    ensures 0 < |term| < 3 ==> (r <==> text != "" && Contains(ToLower(text), ToLower(term)))
  {
    if term == "" then true
    else if text == "" then false
    else
      var t := ToLower(term);
      var x := ToLower(text);
      if Contains(x, t) then true
      else if |term| < 3 then false
      else
        var searchWords := Filter(Split(t, ' '), NonEmptyWord);
        var textWords := Split(x, ' ');
        forall i | 0 <= i < |searchWords| :: CloseToSome(searchWords[i], textWords)
  }

  /** Upper-case letters in either the term or the text make no difference. */
  lemma CaseInsensitive(term: string, text: string)
    ensures FuzzySearch(ToLower(term), ToLower(text)) == FuzzySearch(term, text)
  {
    ToLowerIdempotent(term);
    ToLowerIdempotent(text);
    var t := ToLower(term);
    var x := ToLower(text);
    if term != "" && text != "" && !Contains(x, t) && |term| >= 3 {
      var searchWords := Filter(Split(t, ' '), NonEmptyWord);
      var textWords := Split(x, ' ');
      forall w | w in searchWords
        ensures CloseToSome(w, textWords) == CloseToSome(w, Split(ToLower(x), ' '))
      {
      }
    }
  }

  predicate IsLower(s: string)
  {
    forall i :: 0 <= i < |s| ==> ToLowerChar(s[i]) == s[i]
  }

  /**
   * A single mistyped character still finds a one-word name: searching for `typo`
   * in `name` succeeds when the two differ at one position.
   */
  lemma OneTypoMatches(typo: string, name: string, p: nat)
    requires |typo| >= 3 && OneSubstitution(typo, name, p)
    requires IsLower(typo) && IsLower(name)
    requires ' ' !in typo && ' ' !in name
    ensures FuzzySearch(typo, name)
  {
    assert ToLower(typo) == typo;
    assert ToLower(name) == name;
    if !Contains(name, typo) {
      SplitNoSep(typo, ' ');
      SplitNoSep(name, ' ');
      assert Filter([typo], NonEmptyWord) == [typo];
      LevOneSubstitution(typo, name, p);
      assert Distance(typo, name) <= Threshold(typo);
      var textWords := [name];
      assert Distance(typo, textWords[0]) <= Threshold(typo);
    }
  }

  /** Every piece of a string of spaces split at spaces is empty. */
  lemma {:induction false} SplitSpaces(s: string)
    requires forall i :: 0 <= i < |s| ==> s[i] == ' '
    ensures forall k :: 0 <= k < |Split(s, ' ')| ==> Split(s, ' ')[k] == ""
  {
    if s != [] {
      SplitSpaces(s[1..]);
    }
  }

  /**
   * A term of three or more spaces has no words to check, so it matches every
   * non-empty text, while one or two spaces match only texts containing them.
   */
  lemma SpacesMatchEverything(term: string, text: string)
    requires |term| >= 3 && forall i :: 0 <= i < |term| ==> term[i] == ' '
    ensures FuzzySearch(term, text) <==> text != ""
  {
    var t := ToLower(term);
    assert t == term;
    SplitSpaces(t);
  }
}
