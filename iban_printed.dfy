/**
 * IBANs as invoices print them: the first four characters, then the rest in groups of four
 * separated by single spaces. Such a text, after a character that is not a word character, is
 * matched by the extraction service's pattern as a whole, and removing the spaces gives the IBAN
 * back.
 */
module IbanPrinted {
  import opened Outcomes
  import opened Chars
  import opened IbanExtraction
  import IbanValidation

  /** The groups of four of r, each preceded by one space; the last group may be shorter. */
  function SpacedGroups(r: string): string
    decreases |r|
  {
    if r == [] then []
    else
      var n := if |r| < 4 then |r| else 4;
      [' '] + r[..n] + SpacedGroups(r[n..])
  }

  /** The printed form of an IBAN: "DE44 5001 0517 5407 3249 31" for DE44500105175407324931. */
  function Printed(s: string): string
    requires |s| >= 4
  {
    s[..4] + SpacedGroups(s[4..])
  }

  /** The spaces of the groups are all the spaces there are: removing them gives r back. */
  lemma {:induction false} RemoveSpacesOfGroups(r: string)
    requires AllUpperAlnum(r)
    ensures RemoveSpaces(SpacedGroups(r)) == r
    decreases |r|
  {
    if r != [] {
      var n := if |r| < 4 then |r| else 4;
      var head, rest := r[..n], r[n..];
      AlnumSub(r, 0, n);
      AlnumSub(r, n, |r|);
      assert r[0..n] == head && r[n..|r|] == rest;
      RemoveSpacesOfGroups(rest);
      SpacedGroupsFirst(r, n);
      RemoveSpacesAfterSpace(head, SpacedGroups(rest));
      assert head + rest == r;
    }
  }

  /** A space, then characters of [A-Z0-9], then x: removing spaces keeps the characters and x's non-spaces. */
  lemma RemoveSpacesAfterSpace(head: string, x: string)
    requires AllUpperAlnum(head)
    ensures RemoveSpaces([' '] + head + x) == head + RemoveSpaces(x)
  {
    assert RemoveSpaces([' ']) == [] by {
      assert [' '][1..] == [];
    }
    assert [] + head == head;
    RemoveSpacesConcat([' '], head);
    RemoveSpacesOfUpperAlnum(head);
    RemoveSpacesConcat([' '] + head, x);
  }

  /** The spaced groups of four characters followed by the rest. */
  lemma SpacedGroupsStep(head: string, rest: string)
    requires |head| == 4
    ensures SpacedGroups(head + rest) == [' '] + head + SpacedGroups(rest)
  {
    var r := head + rest;
    assert r[..4] == head && r[4..] == rest;
  }

  /** Removing the spaces of the printed form gives the IBAN. */
  lemma RemoveSpacesOfPrinted(s: string)
    requires |s| >= 4 && AllUpperAlnum(s)
    ensures RemoveSpaces(Printed(s)) == s
  {
    assert AllUpperAlnum(s[..4]) && AllUpperAlnum(s[4..]) by {
      assert forall k :: 0 <= k < 4 ==> s[..4][k] == s[k];
      assert forall k :: 0 <= k < |s| - 4 ==> s[4..][k] == s[4 + k];
    }
    RemoveSpacesConcat(s[..4], SpacedGroups(s[4..]));
    RemoveSpacesOfUpperAlnum(s[..4]);
    RemoveSpacesOfGroups(s[4..]);
    assert s[..4] + s[4..] == s;
  }

  /** Reading off the first group of the spaced groups. */
  lemma SpacedGroupsFirst(r: string, n: nat)
    requires r != [] && n == (if |r| < 4 then |r| else 4)
    ensures SpacedGroups(r) == [' '] + r[..n] + SpacedGroups(r[n..])
    ensures |SpacedGroups(r)| == 1 + n + |SpacedGroups(r[n..])|
  {
  }

  /** The run of [A-Z0-9] at s is n characters long. */
  lemma RunOf(t: string, s: nat, n: nat)
    requires s + n <= |t| && AllUpperAlnum(t[s..s + n]) && (s + n == |t| || !IsUpperAlnum(t[s + n]))
    ensures RunEnd(t, s) == s + n
  {
    AlnumSliceInRun(t, s, n);
  }

  /** One group of the walk: a space, then a run of 1 to 4 characters of [A-Z0-9], costs one unit. */
  lemma RunsEndStep(t: string, p: nat, g: nat, best: Option<nat>, n: nat)
    requires p < |t| && t[p] == ' ' && 1 <= n <= 4 && 1 <= g
    requires p + 1 + n <= |t| && AllUpperAlnum(t[p + 1..p + 1 + n])
    requires p + 1 + n == |t| || !IsUpperAlnum(t[p + 1 + n])
    ensures RunsEnd(t, p, g, best) ==
      RunsEnd(t, p + 1 + n, g - 1, if WordBoundary(t, p + 1 + n) then Some(p + 1 + n) else best)
  {
    var q := p + 1 + n;
    RunOf(t, p + 1, n);
    assert UnitStart(t, p) == p + 1;
    assert IsUpperAlnum(t[p + 1..q][0]);
    assert Ceil4(q - (p + 1)) == 1;
  }

  /** Every slice of a string of [A-Z0-9] is one. */
  lemma AlnumSub(r: string, i: nat, j: nat)
    requires i <= j <= |r| && AllUpperAlnum(r)
    ensures AllUpperAlnum(r[i..j])
  {
    forall k | 0 <= k < j - i
      ensures IsUpperAlnum(r[i..j][k])
    {
      assert r[i..j][k] == r[i + k];
    }
  }

  /** The parts of a space, a group and what follows. */
  lemma GroupParts(u: string, a: string, b: string)
    requires u == [' '] + a + b
    ensures |u| == 1 + |a| + |b| && u[0] == ' ' && u[1..1 + |a|] == a && u[1 + |a|..] == b
  {
  }

  /** Slices of a slice of t are slices of t. */
  lemma SliceSlice(t: string, p: nat, e: nat, i: nat, j: nat)
    requires p <= e <= |t| && i <= j <= e - p
    ensures t[p..e][i..j] == t[p + i..p + j]
  {
    assert forall k :: 0 <= k < j - i ==> t[p..e][i..j][k] == t[p + i + k];
  }

  /** Where the first group of the spaced groups t[p..e] lies, and what follows it. */
  lemma FirstGroupLayout(t: string, p: nat, e: nat, r: string, n: nat)
    requires p <= e <= |t| && t[p..e] == SpacedGroups(r) && r != []
    requires n == (if |r| < 4 then |r| else 4)
    ensures p + 1 + n <= e && t[p] == ' ' && t[p + 1..p + 1 + n] == r[..n]
    ensures t[p + 1 + n..e] == SpacedGroups(r[n..])
  {
    SpacedGroupsFirst(r, n);
    var u := t[p..e];
    GroupParts(u, r[..n], SpacedGroups(r[n..]));
    SliceSlice(t, p, e, 1, 1 + n);
    SliceSlice(t, p, e, 1 + n, |u|);
    assert t[p] == u[0];
  }

  /** The first group at p is a space followed by one to four characters of [A-Z0-9]. */
  lemma FirstGroupAlnum(t: string, p: nat, e: nat, r: string, n: nat)
    requires p <= e <= |t| && t[p..e] == SpacedGroups(r) && r != [] && AllUpperAlnum(r)
    requires n == (if |r| < 4 then |r| else 4)
    ensures p + 1 + n <= e && t[p] == ' ' && AllUpperAlnum(t[p + 1..p + 1 + n])
    ensures IsUpperAlnum(t[p + n])
    ensures AllUpperAlnum(r[n..])
  {
    FirstGroupLayout(t, p, e, r, n);
    AlnumSub(r, 0, n);
    AlnumSub(r, n, |r|);
    assert r[n..|r|] == r[n..];
    assert t[p + n] == t[p + 1..p + 1 + n][n - 1];
  }

  /** After the first group, either the groups end or the next one starts with its space. */
  lemma FirstGroupNext(t: string, p: nat, e: nat, r: string, n: nat)
    requires p <= e <= |t| && t[p..e] == SpacedGroups(r) && r != []
    requires n == (if |r| < 4 then |r| else 4)
    ensures p + 1 + n <= e
    ensures r[n..] == [] ==> p + 1 + n == e
    ensures r[n..] != [] ==> t[p + 1 + n..e] == SpacedGroups(r[n..]) && t[p + 1 + n] == ' '
  {
    FirstGroupLayout(t, p, e, r, n);
    if r[n..] != [] {
      assert SpacedGroups(r[n..])[0] == ' ';
      assert t[p + 1 + n] == t[p + 1 + n..e][0];
    } else {
      assert SpacedGroups(r[n..]) == [];
    }
  }

  /** Only spaces. */
  predicate AllSpaces(w: string) { forall k :: 0 <= k < |w| ==> w[k] == ' ' }

  /** Spaces hold no unit: the walk stops there with what it has. */
  lemma TrailingSpaces(t: string, q: nat, g: nat, best: Option<nat>)
    requires q <= |t| && AllSpaces(t[q..])
    ensures RunsEnd(t, q, g, best) == best
  {
    var s := UnitStart(t, q);
    if s < |t| {
      assert t[s] == t[q..][s - q];
    }
  }

  /** After the last group only spaces follow: \b holds there and the walk stops. */
  lemma LastGroupEnd(t: string, q: nat, g: nat)
    requires 1 <= q <= |t| && IsUpperAlnum(t[q - 1]) && AllSpaces(t[q..])
    ensures q == |t| || !IsUpperAlnum(t[q])
    ensures WordBoundary(t, q) && RunsEnd(t, q, g, Some(q)) == Some(q)
  {
    if q < |t| {
      assert t[q] == t[q..][0];
    }
    TrailingSpaces(t, q, g, Some(q));
  }

  /**
   * The walk over spaced groups of at most g units, followed by nothing but spaces, reaches the
   * end of the last group.
   */
  lemma {:induction false} RunsEndOfGroups(t: string, p: nat, e: nat, r: string, g: nat, best: Option<nat>)
    requires p <= e <= |t| && t[p..e] == SpacedGroups(r) && AllSpaces(t[e..])
    requires r != [] && AllUpperAlnum(r) && Ceil4(|r|) <= g
    ensures RunsEnd(t, p, g, best) == Some(e)
    decreases |r|
  {
    var n := if |r| < 4 then |r| else 4;
    var q := p + 1 + n;
    var rest := r[n..];
    FirstGroupAlnum(t, p, e, r, n);
    FirstGroupNext(t, p, e, r, n);
    RestCeil4(|r|, n, g);
    var next := if WordBoundary(t, q) then Some(q) else best;
    if rest == [] {
      LastGroupStep(t, p, e, g, best, n);
    } else {
      RunsEndStep(t, p, g, best, n);
      RunsEndOfGroups(t, q, e, rest, g - 1, next);
    }
  }

  /** The last group: the walk steps over it and stops at its end e. */
  lemma LastGroupStep(t: string, p: nat, e: nat, g: nat, best: Option<nat>, n: nat)
    requires p < |t| && t[p] == ' ' && 1 <= n <= 4 && 1 <= g && e == p + 1 + n <= |t|
    requires AllUpperAlnum(t[p + 1..e]) && IsUpperAlnum(t[p + n]) && AllSpaces(t[e..])
    ensures RunsEnd(t, p, g, best) == Some(e)
  {
    LastGroupEnd(t, e, g - 1);
    RunsEndStep(t, p, g, best, n);
  }

  /** The groups after the first one fit in one unit less. */
  lemma RestCeil4(m: nat, n: nat, g: nat)
    requires n == (if m < 4 then m else 4) && 1 <= m && Ceil4(m) <= g
    ensures 1 <= g && Ceil4(m - n) <= g - 1
  {
  }

  /** find() passes over starts that have no match. */
  lemma {:induction false} NextMatchSkips(t: string, from: nat, i: nat)
    requires from <= i <= |t|
    requires forall j :: from <= j < i ==> LongestEnd(t, j, |t|).None?
    ensures NextMatch(t, from) == NextMatch(t, i)
    decreases i - from
  {
    if from < i {
      NextMatchSkips(t, from + 1, i);
    }
  }

  /** No match starts before i when there is no digit from from + 2 on, up to i + 2. */
  lemma NoMatchBefore(t: string, from: nat, i: nat)
    requires from <= i <= |t|
    requires forall k :: from + 2 <= k < i + 2 && k < |t| ==> !IsDigit(t[k])
    ensures NextMatch(t, from) == NextMatch(t, i)
  {
    forall j | from <= j < i
      ensures LongestEnd(t, j, |t|).None?
    {
      MatchAtRuns(t, j);
    }
    NextMatchSkips(t, from, i);
  }

  /** find() from a start with a match returns that start and the match's end. */
  lemma NextMatchAt(t: string, i: nat, e: nat)
    requires i < |t| && LongestEnd(t, i, |t|) == Some(e)
    ensures NextMatch(t, i) == Some((i, e))
  {
  }

  /** Nothing is found in trailing spaces. */
  lemma NoMatchInSpaces(t: string, e: nat)
    requires e <= |t| && AllSpaces(t[e..])
    ensures NextMatch(t, e) == None
  {
    forall k | e + 2 <= k < |t| + 2 && k < |t|
      ensures !IsDigit(t[k])
    {
      assert t[k] == t[e..][k - e];
    }
    NoMatchBefore(t, e, |t|);
  }

  /** The printed form has no tab, line feed or carriage return: its other characters are those of s. */
  lemma PrintedNoLineSeparators(s: string)
    requires |s| >= 4 && AllUpperAlnum(s)
    ensures NoLineSeparators(Printed(s))
  {
    RemoveSpacesOfPrinted(s);
    var t := Printed(s);
    forall k | 0 <= k < |t|
      ensures !IsLineSeparator(t[k])
    {
      if t[k] != ' ' {
        assert t[k] in RemoveSpaces(t);
      }
    }
  }

  /** The printed IBAN at t[i..e], followed by spaces only, is the longest match at i. */
  lemma PrintedMatchAt(t: string, i: nat, e: nat, s: string)
    requires CandidateShape(s) && i <= e <= |t| && t[i..e] == Printed(s) && AllSpaces(t[e..])
    requires i == 0 || !IsWordChar(t[i - 1])
    ensures LongestEnd(t, i, |t|) == Some(e)
  {
    var r := s[4..];
    var u := Printed(s);
    assert u == s[..4] + SpacedGroups(r);
    assert t[i] == t[i..e][0] == u[0] == s[0];
    assert t[i + 1] == t[i..e][1] == u[1] == s[1];
    assert t[i + 2] == t[i..e][2] == u[2] == s[2];
    assert t[i + 3] == t[i..e][3] == u[3] == s[3];
    assert WordBoundary(t, i);
    SliceSlice(t, i, e, 4, |u|);
    assert t[i + 4..e] == SpacedGroups(r);
    assert Ceil4(|r|) <= 8;
    CandidateAlnum(s);
    AlnumSub(s, 4, |s|);
    RunsEndOfGroups(t, i + 4, e, r, 8, None);
    MatchAtRuns(t, i);
  }

  /** Two letters, two digits and [A-Z0-9] after them: all of a candidate is in [A-Z0-9]. */
  lemma CandidateAlnum(s: string)
    requires CandidateShape(s)
    ensures AllUpperAlnum(s)
  {
    assert forall k :: 4 <= k < |s| ==> s[k] == s[4..][k - 4];
  }

  /** The middle part of a + b + c. */
  lemma ConcatMiddle(a: string, b: string, c: string)
    ensures (a + b + c)[|a|..|a| + |b|] == b && (a + b + c)[|a| + |b|..] == c
  {
  }

  /**
   * With the printed IBAN at t[i..e], no digit before it and no word character just before it,
   * and only spaces after it, find() from 0 finds the printed IBAN and nothing after it.
   */
  lemma PrintedFound(t: string, i: nat, e: nat, s: string)
    requires CandidateShape(s) && i <= e <= |t| && t[i..e] == Printed(s) && AllSpaces(t[e..])
    requires forall k :: 0 <= k < i ==> !IsDigit(t[k])
    requires i == 0 || !IsWordChar(t[i - 1])
    ensures NextMatch(t, 0) == Some((i, e))
    ensures NextMatch(t, e) == None
  {
    assert !IsDigit(t[i]) && !IsDigit(t[i + 1]) by {
      assert Printed(s)[0] == s[0] && Printed(s)[1] == s[1];
      assert t[i] == t[i..e][0] && t[i + 1] == t[i..e][1];
    }
    NoDigitsThrough(t, i);
    NoMatchBefore(t, 0, i);
    PrintedMatchAt(t, i, e, s);
    NextMatchAt(t, i, e);
    NoMatchInSpaces(t, e);
  }

  /** No digit before i, nor at i and i + 1: none at the positions NoMatchBefore looks at. */
  lemma NoDigitsThrough(t: string, i: nat)
    requires i + 1 < |t|
    requires forall k :: 0 <= k < i ==> !IsDigit(t[k])
    requires !IsDigit(t[i]) && !IsDigit(t[i + 1])
    ensures forall k :: 2 <= k < i + 2 && k < |t| ==> !IsDigit(t[k])
  {
  }

  /** The parts of pre + u + w, as PrintedFound reads them. */
  lemma TextParts(pre: string, u: string, w: string, t: string)
    requires t == pre + u + w
    requires forall k :: 0 <= k < |pre| ==> !IsDigit(pre[k])
    requires pre == [] || !IsWordChar(pre[|pre| - 1])
    ensures t[|pre|..|pre| + |u|] == u && t[|pre| + |u|..] == w
    ensures forall k :: 0 <= k < |pre| ==> !IsDigit(t[k])
    ensures |pre| == 0 || !IsWordChar(t[|pre| - 1])
  {
    ConcatMiddle(pre, u, w);
    assert forall k :: 0 <= k < |pre| ==> t[k] == pre[k];
  }

  /** Normalising a text without tabs and line breaks changes nothing. */
  lemma NormalizeFixed(x: string)
    requires NoLineSeparators(x)
    ensures Normalize(x) == x
  {
    var y := Normalize(x);
    assert forall k :: 0 <= k < |x| ==> y[k] == x[k];
  }

  /** Joining two texts without tabs and line breaks gives one. */
  lemma NoLineSeparatorsConcat(a: string, b: string)
    requires NoLineSeparators(a) && NoLineSeparators(b)
    ensures NoLineSeparators(a + b)
  {
    var t := a + b;
    forall k | 0 <= k < |t|
      ensures !IsLineSeparator(t[k])
    {
      if k < |a| {
        assert t[k] == a[k];
      } else {
        assert t[k] == b[k - |a|];
      }
    }
  }

  /** Normalisation works character by character, so it distributes over concatenation. */
  lemma NormalizeConcat(a: string, b: string)
    ensures Normalize(a + b) == Normalize(a) + Normalize(b)
  {
    var x, y := Normalize(a + b), Normalize(a) + Normalize(b);
    forall k | 0 <= k < |x|
      ensures x[k] == y[k]
    {
      if k < |a| {
        assert (a + b)[k] == a[k];
      } else {
        assert (a + b)[k] == b[k - |a|];
      }
    }
  }

  /** What the text strippers put after a line: spaces, tabs, line feeds, carriage returns. */
  predicate Blank(w: string) { forall k :: 0 <= k < |w| ==> w[k] == ' ' || IsLineSeparator(w[k]) }

  lemma NormalizeBlank(w: string)
    requires Blank(w)
    ensures AllSpaces(Normalize(w))
  {
  }

  /** Normalising a line without tabs and line breaks followed by blanks turns the blanks into spaces. */
  lemma NormalizeLine(a: string, post: string)
    requires NoLineSeparators(a) && Blank(post)
    ensures Normalize(a + post) == a + Normalize(post) && AllSpaces(Normalize(post))
  {
    NormalizeFixed(a);
    NormalizeConcat(a, post);
    NormalizeBlank(post);
  }

  /** When find() finds one match from 0, and nothing after it, that match is the only candidate. */
  lemma SingleMatch(t: string, i: nat, e: nat)
    requires NextMatch(t, 0) == Some((i, e)) && NextMatch(t, e) == None
    ensures CandidatesFrom(t, 0) == [RemoveSpaces(t[i..e])]
    ensures KeptFrom(t, 0) == var c := RemoveSpaces(t[i..e]); if ExtractionChecksum(Some(c)) then {c} else {}
  {
    assert CandidatesFrom(t, e) == [];
    assert KeptFrom(t, e) == {};
  }

  /**
   * The normalised text, find() from 0 finds the printed IBAN and nothing after it, and
   * despacing the match gives s.
   */
  lemma PrintedText(pre: string, s: string, post: string, t: string, e: nat)
    requires CandidateShape(s) && Blank(post) && t == Normalize(pre + Printed(s) + post)
    requires forall k :: 0 <= k < |pre| ==> !IsDigit(pre[k]) && !IsLineSeparator(pre[k])
    requires pre == [] || !IsWordChar(pre[|pre| - 1])
    requires e == |pre| + |Printed(s)|
    ensures e <= |t| && NextMatch(t, 0) == Some((|pre|, e)) && NextMatch(t, e) == None
    ensures RemoveSpaces(t[|pre|..e]) == s
  {
    var u := Printed(s);
    var w := Normalize(post);
    CandidateAlnum(s);
    PrintedNoLineSeparators(s);
    NoLineSeparatorsConcat(pre, u);
    NormalizeLine(pre + u, post);
    assert t == pre + u + w;
    TextParts(pre, u, w, t);
    PrintedFound(t, |pre|, e, s);
    RemoveSpacesOfPrinted(s);
  }


  /**
   * A text made of a line ending with a printed IBAN, after a text with no digits, tabs or line
   * breaks and not ending in a word character, then any blank characters, has that match as its
   * only one: extractIbansFromText considers exactly the IBAN, and keeps it when it passes the
   * MOD-97 check.
   */
  lemma PrintedCandidates(pre: string, s: string, post: string)
    requires CandidateShape(s) && Blank(post)
    requires forall k :: 0 <= k < |pre| ==> !IsDigit(pre[k]) && !IsLineSeparator(pre[k])
    requires pre == [] || !IsWordChar(pre[|pre| - 1])
    ensures CandidatesFrom(Normalize(pre + Printed(s) + post), 0) == [s]
    ensures TextIbans(pre + Printed(s) + post) == if ExtractionChecksum(Some(s)) then {s} else {}
  {
    var t := Normalize(pre + Printed(s) + post);
    var e := |pre| + |Printed(s)|;
    PrintedText(pre, s, post, t, e);
    SingleMatch(t, |pre|, e);
  }

  /** With a valid check number, the printed IBAN is extracted, and it is all that is. */
  lemma PrintedIbanExtracted(pre: string, s: string, post: string)
    requires CandidateShape(s) && IbanValidation.IsValidIbanChecksum(s) == Ok(true) && Blank(post)
    requires forall k :: 0 <= k < |pre| ==> !IsDigit(pre[k]) && !IsLineSeparator(pre[k])
    requires pre == [] || !IsWordChar(pre[|pre| - 1])
    ensures TextIbans(pre + Printed(s) + post) == {s}
  {
    CandidateAlnum(s);
    ChecksumsAgree(s);
    PrintedCandidates(pre, s, post);
  }
}
