/**
 * Candidate extraction of IbanExtractionService: the text is normalised, the IBAN regular
 * expression is matched left to right, spaces are removed from each match and only matches that
 * pass the service's own MOD-97 check are kept; a document contributes the union of what its text
 * chunks yield.
 */
module IbanExtraction {
  import opened Outcomes
  import opened Failures
  import opened Chars
  import opened Mod97
  import IbanValidation

  // ---------------------------------------------------------------------------------------------
  // Normalisation and space removal
  // ---------------------------------------------------------------------------------------------

  /** The characters of the class [\t\n\r]. */
  predicate IsLineSeparator(c: char) { c == '\t' || c == '\n' || c == '\r' }

  predicate NoLineSeparators(t: string) { forall k :: 0 <= k < |t| ==> !IsLineSeparator(t[k]) }

  /** text.replaceAll("[\\t\\n\\r]", " "): each tab, line feed and carriage return becomes one space. */
  function Normalize(text: string): (t: string)
    ensures |t| == |text|
    ensures forall k :: 0 <= k < |text| ==> t[k] == if IsLineSeparator(text[k]) then ' ' else text[k]
  {
    if text == [] then []
    else [if IsLineSeparator(text[0]) then ' ' else text[0]] + Normalize(text[1..])
  }

  /** After normalisation no tab, line feed or carriage return is left, and normalising again changes nothing. */
  lemma NormalizeSpec(text: string)
    ensures NoLineSeparators(Normalize(text))
    ensures Normalize(Normalize(text)) == Normalize(text)
  {
  }

  /** s.replaceAll(" ", ""): the characters of s other than the space, in order. */
  function RemoveSpaces(s: string): (r: string)
    ensures |r| <= |s|
    ensures forall c :: c in r <==> c in s && c != ' '
  {
    if s == [] then []
    else (if s[0] == ' ' then [] else [s[0]]) + RemoveSpaces(s[1..])
  }

  lemma {:induction false} RemoveSpacesConcat(a: string, b: string)
    ensures RemoveSpaces(a + b) == RemoveSpaces(a) + RemoveSpaces(b)
  {
    if a == [] {
      assert a + b == b;
    } else {
      assert (a + b)[1..] == a[1..] + b;
      RemoveSpacesConcat(a[1..], b);
    }
  }

  lemma {:induction false} RemoveSpacesOfUpperAlnum(s: string)
    requires AllUpperAlnum(s)
    ensures RemoveSpaces(s) == s
  {
    if s != [] {
      RemoveSpacesOfUpperAlnum(s[1..]);
      assert s == [s[0]] + s[1..];
    }
  }

  // ---------------------------------------------------------------------------------------------
  // The regular expression
  //   \b([A-Z]{2}\d{2}[ \t\n\r]?[A-Z0-9]{1,4}(?:[ \t\n\r]?[A-Z0-9]{1,4}){0,7})\b
  // After the two letters and two digits the body is one to eight units "[ \t\n\r]?[A-Z0-9]{1,4}".
  // ---------------------------------------------------------------------------------------------

  /** The class [ \t\n\r]. */
  predicate IsSeparator(c: char) { c == ' ' || IsLineSeparator(c) }

  /** Whether position k of t holds a word character; positions outside t do not. */
  predicate WordAt(t: string, k: int) { 0 <= k < |t| && IsWordChar(t[k]) }

  /** \b at position k: a word character on exactly one side. */
  predicate WordBoundary(t: string, k: nat) { WordAt(t, k - 1) != WordAt(t, k) }

  /**
   * t[p..e] is one to g units "[ \t\n\r]?[A-Z0-9]{1,4}". A separator at p is always taken by the
   * optional class: leaving it would make the following [A-Z0-9] fail on it.
   */
  predicate Groups(t: string, p: nat, e: nat, g: nat)
    decreases e - p, 1
  {
    1 <= g && p < e <= |t| &&
    var q := if IsSeparator(t[p]) then p + 1 else p;
    exists k :: 1 <= k <= 4 && Take(t, q, e, k, g)
  }

  /** The unit's [A-Z0-9]{1,4} takes k characters at q, and the rest of t[..e] is at most g - 1 units. */
  predicate Take(t: string, q: nat, e: nat, k: nat, g: nat)
    requires 1 <= g
    decreases e - q, 0
  {
    1 <= k && q + k <= e <= |t| && AllUpperAlnum(t[q..q + k]) && (q + k == e || Groups(t, q + k, e, g - 1))
  }

  /** The regular expression matches t[i..e]. */
  predicate IsMatch(t: string, i: nat, e: nat) {
    i + 4 <= |t| && WordBoundary(t, i)
    && IsUpper(t[i]) && IsUpper(t[i + 1]) && IsDigit(t[i + 2]) && IsDigit(t[i + 3])
    && Groups(t, i + 4, e, 8) && WordBoundary(t, e)
  }

  /**
   * The end of the match that starts at i, searching ends downwards from hi. Greedy quantifiers
   * with backtracking return the first success in priority order, and here that is the longest
   * feasible match: taking more characters in a unit never leaves fewer ends reachable.
   */
  function LongestEnd(t: string, i: nat, hi: nat): (r: Option<nat>)
    decreases hi
    ensures r.Some? ==> r.value <= hi && IsMatch(t, i, r.value)
    ensures forall e: nat :: e <= hi && IsMatch(t, i, e) ==> r.Some? && e <= r.value
  {
    if IsMatch(t, i, hi) then Some(hi)
    else if hi == 0 then None
    else LongestEnd(t, i, hi - 1)
  }

  /** Matcher.find() from position from: the first start with a match, and the end of that match. */
  function NextMatch(t: string, from: nat): (r: Option<(nat, nat)>)
    decreases |t| - from
    ensures r.Some? ==> from <= r.value.0 && r.value.0 + 5 <= r.value.1 <= |t|
    ensures r.Some? ==> LongestEnd(t, r.value.0, |t|) == Some(r.value.1)
    ensures forall i :: from <= i <= |t| && (r.Some? ==> i < r.value.0) ==> LongestEnd(t, i, |t|).None?
  {
    if from >= |t| then None
    else
      match LongestEnd(t, from, |t|)
      case Some(e) => Some((from, e))
      case None => NextMatch(t, from + 1)
  }

  /** matcher.group(1).replaceAll(" ", "") for every match, in the order find() returns them. */
  function CandidatesFrom(t: string, from: nat): (r: seq<string>)
    ensures forall k :: 0 <= k < |r| ==> ' ' !in r[k]
    decreases |t| - from
  {
    match NextMatch(t, from)
    case None => []
    case Some(m) => [RemoveSpaces(t[m.0..m.1])] + CandidatesFrom(t, m.1)
  }

  /** The set built by the find() loop: the candidates from position from on that pass the check. */
  function KeptFrom(t: string, from: nat): (r: set<string>)
    ensures forall c :: c in r ==> ExtractionChecksum(Some(c)) && ' ' !in c
    decreases |t| - from
  {
    match NextMatch(t, from)
    case None => {}
    case Some(m) =>
      var c := RemoveSpaces(t[m.0..m.1]);
      (if ExtractionChecksum(Some(c)) then {c} else {}) + KeptFrom(t, m.1)
  }

  /** extractIbansFromText: the IBANs found in one text chunk. */
  function TextIbans(text: string): (r: set<string>)
    ensures forall c :: c in r ==> ExtractionChecksum(Some(c)) && ' ' !in c
  {
    KeptFrom(Normalize(text), 0)
  }

  // ---------------------------------------------------------------------------------------------
  // isValidIban of the extraction service
  // ---------------------------------------------------------------------------------------------

  /** Character.isLetter on ASCII. */
  predicate IsLetter(c: char) { IsUpper(c) || IsLower(c) }

  /** Character.getNumericValue of an ASCII letter: 10 for 'a' and 'A' up to 35 for 'z' and 'Z'. */
  function LetterValue(c: char): (v: int)
    requires IsLetter(c)
    ensures 10 <= v <= 35
  {
    if IsUpper(c) then c as int - 'A' as int + 10 else c as int - 'a' as int + 10
  }

  /** What the StringBuilder receives for c: the numeric value of a letter in decimal, any other character as is. */
  function Appended(c: char): string {
    if IsLetter(c) then IntToDecimal(LetterValue(c)) else [c]
  }

  /** The numeral built from the rearranged string, character by character. */
  function NumericIban(s: string): (r: string)
    ensures |r| >= |s|
  {
    if s == [] then [] else NumericIban(s[..|s| - 1]) + Appended(s[|s| - 1])
  }

  /**
   * isValidIban of the extraction service: false for null and for fewer than four characters,
   * otherwise the MOD-97 test of the numeral of the rearranged string, false when it does not parse.
   */
  function ExtractionChecksum(iban: Option<string>): (r: bool)
    ensures r ==> iban.Some? && |iban.value| >= 4
  {
    match iban
    case None => false
    case Some(s) => |s| >= 4 && Mod97Check(NumericIban(IbanValidation.Rearranged(s)))
  }

  // ---------------------------------------------------------------------------------------------
  // Runs of [A-Z0-9]: a characterisation of the units that the scanner uses
  // ---------------------------------------------------------------------------------------------

  /** The end of the run of [A-Z0-9] characters that starts at p. */
  function RunEnd(t: string, p: nat): (q: nat)
    requires p <= |t|
    decreases |t| - p
    ensures p <= q <= |t|
    ensures forall k :: p <= k < q ==> IsUpperAlnum(t[k])
    ensures q == |t| || !IsUpperAlnum(t[q])
  {
    if p == |t| || !IsUpperAlnum(t[p]) then p else RunEnd(t, p + 1)
  }

  /** The least number of units [A-Z0-9]{1,4} that cover n characters. */
  function Ceil4(n: nat): (c: nat)
    ensures 4 * c - 3 <= n <= 4 * c
  {
    (n + 3) / 4
  }

  /** Any position up to the end of a run ends the same run. */
  lemma {:induction false} RunEndInside(t: string, p: nat, x: nat)
    requires p <= |t| && p <= x <= RunEnd(t, p)
    ensures RunEnd(t, x) == RunEnd(t, p)
    decreases x - p
  {
    if x > p {
      RunEndInside(t, p + 1, x);
    }
  }

  /** k characters from x are all in [A-Z0-9] exactly when they stay inside the run at x. */
  lemma AlnumSliceInRun(t: string, x: nat, k: nat)
    requires x + k <= |t|
    ensures AllUpperAlnum(t[x..x + k]) <==> x + k <= RunEnd(t, x)
  {
    var q := RunEnd(t, x);
    if x + k > q {
      assert t[x..x + k][q - x] == t[q];
    }
  }

  /** The position where the unit at p starts its [A-Z0-9] part: after a separator at p, if any. */
  function UnitStart(t: string, p: nat): (s: nat)
    requires p <= |t|
    ensures p <= s <= |t|
  {
    if p < |t| && IsSeparator(t[p]) then p + 1 else p
  }
  /** The number of characters the first unit of Groups(t, p, e, g) takes. */
  lemma GroupsWitness(t: string, p: nat, e: nat, g: nat) returns (k: nat)
    requires Groups(t, p, e, g)
    ensures p < |t| && 1 <= k <= 4 && Take(t, UnitStart(t, p), e, k, g)
  {
    k :| 1 <= k <= 4 && Take(t, if IsSeparator(t[p]) then p + 1 else p, e, k, g);
  }

  lemma GroupsIntro(t: string, p: nat, e: nat, g: nat, k: nat)
    requires p < |t| && 1 <= g && 1 <= k <= 4 && Take(t, UnitStart(t, p), e, k, g)
    ensures Groups(t, p, e, g)
  {
  }

  /** What a unit that takes k characters at q amounts to. */
  lemma TakeFacts(t: string, q: nat, e: nat, k: nat, g: nat)
    requires 1 <= g && Take(t, q, e, k, g)
    ensures 1 <= k && q + k <= e <= |t| && AllUpperAlnum(t[q..q + k])
    ensures q + k == e || Groups(t, q + k, e, g - 1)
  {
  }

  /** A larger bound on the number of units never hurts. */
  lemma {:induction false} GroupsMonotone(t: string, p: nat, e: nat, g1: nat, g2: nat)
    requires g1 <= g2 && Groups(t, p, e, g1)
    ensures Groups(t, p, e, g2)
    decreases e - p
  {
    var k := GroupsWitness(t, p, e, g1);
    var q := UnitStart(t, p);
    TakeFacts(t, q, e, k, g1);
    if q + k < e {
      GroupsMonotone(t, q + k, e, g1 - 1, g2 - 1);
    }
    assert Take(t, q, e, k, g2);
    GroupsIntro(t, p, e, g2, k);
  }

  /** The right-hand side of the run characterisation at a position x inside a run. */
  predicate RunGroups(t: string, x: nat, e: nat, g: nat)
    requires x <= |t|
  {
    var q := RunEnd(t, x);
    (x < e <= q && Ceil4(e - x) <= g) || (q < e && Ceil4(q - x) <= g && Groups(t, q, e, g - Ceil4(q - x)))
  }

  /** From inside a run: units that reach e exist when the run characterisation says so. */
  lemma {:induction false} GroupsInRunIntro(t: string, x: nat, e: nat, g: nat)
    requires x < |t| && IsUpperAlnum(t[x])
    requires RunGroups(t, x, e, g)
    ensures Groups(t, x, e, g)
    decreases RunEnd(t, x) - x
  {
    var q := RunEnd(t, x);
    var k := if q < e then (if q - x <= 4 then q - x else 4) else (if e - x <= 4 then e - x else 4);
    AlnumSliceInRun(t, x, k);
    if x + k < e {
      RunEndInside(t, x, x + k);
      if x + k < q {
        GroupsInRunIntro(t, x + k, e, g - 1);
      }
    }
    assert Take(t, x, e, k, g);
    GroupsIntro(t, x, e, g, k);
  }

  /** From inside a run: units that reach e exist only when the run characterisation says so. */
  lemma {:induction false} GroupsInRunElim(t: string, x: nat, e: nat, g: nat)
    requires x < |t| && IsUpperAlnum(t[x])
    requires Groups(t, x, e, g)
    ensures RunGroups(t, x, e, g)
    decreases RunEnd(t, x) - x
  {
    var q := RunEnd(t, x);
    var k := GroupsWitness(t, x, e, g);
    TakeFacts(t, x, e, k, g);
    AlnumSliceInRun(t, x, k);
    if x + k < e && x + k < q {
      RunEndInside(t, x, x + k);
      GroupsInRunElim(t, x + k, e, g - 1);
      Ceil4Step(q - x - k, k);
      if q < e {
        GroupsMonotone(t, q, e, g - 1 - Ceil4(q - x - k), g - Ceil4(q - x));
      } else {
        Ceil4Step(e - x - k, k);
      }
    }
  }

  /** Up to four more characters take at most one more unit. */
  lemma Ceil4Step(a: nat, k: nat)
    requires k <= 4
    ensures Ceil4(a + k) <= Ceil4(a) + 1
  {
  }

  /**
   * Units from p reach e exactly when the [A-Z0-9] part starts a run there and either e lies in
   * that run with enough units left for it, or the whole run is covered with as few units as
   * possible and the rest continues after it.
   */
  lemma GroupsAt(t: string, p: nat, e: nat, g: nat)
    requires p <= |t|
    ensures var s := UnitStart(t, p);
      Groups(t, p, e, g) <==> s < |t| && IsUpperAlnum(t[s]) && RunGroups(t, s, e, g)
  {
    var s := UnitStart(t, p);
    if Groups(t, p, e, g) {
      var k := GroupsWitness(t, p, e, g);
      TakeFacts(t, s, e, k, g);
      assert t[s..s + k][0] == t[s];
      GroupsIntro(t, s, e, g, k);
      GroupsInRunElim(t, s, e, g);
    }
    if s < |t| && IsUpperAlnum(t[s]) && RunGroups(t, s, e, g) {
      GroupsInRunIntro(t, s, e, g);
      var k := GroupsWitness(t, s, e, g);
      TakeFacts(t, s, e, k, g);
      GroupsIntro(t, p, e, g, k);
    }
  }

  /**
   * The longest end found by walking the runs from p with at most g units left, best being the
   * longest end found so far: each run costs the least number of units that cover it, and its
   * end counts when \b holds there.
   */
  function RunsEnd(t: string, p: nat, g: nat, best: Option<nat>): Option<nat>
    requires p <= |t|
    decreases |t| - p
  {
    var s := UnitStart(t, p);
    if s == |t| || !IsUpperAlnum(t[s]) then best
    else
      var q := RunEnd(t, s);
      if g < Ceil4(q - s) then best
      else RunsEnd(t, q, g - Ceil4(q - s), if WordBoundary(t, q) then Some(q) else best)
  }

  /** Inside a run of [A-Z0-9] there is no \b. */
  lemma NoBoundaryInsideRun(t: string, s: nat, e: nat)
    requires s <= |t| && s < e < RunEnd(t, s)
    ensures !WordBoundary(t, e)
  {
    assert IsUpperAlnum(t[e - 1]) && IsUpperAlnum(t[e]);
  }

  /**
   * The walk over the runs returns the longest end e with Groups(t, p, e, g) and \b at e, or best
   * when there is none.
   */
  lemma {:induction false} RunsEndSpec(t: string, p: nat, g: nat, best: Option<nat>)
    requires p <= |t| && (best.Some? ==> best.value <= p)
    ensures var r := RunsEnd(t, p, g, best);
      r == best || (r.Some? && Groups(t, p, r.value, g) && WordBoundary(t, r.value))
    ensures var r := RunsEnd(t, p, g, best);
      best.Some? ==> r.Some? && best.value <= r.value
    ensures var r := RunsEnd(t, p, g, best);
      forall e: nat :: Groups(t, p, e, g) && WordBoundary(t, e) ==> r.Some? && e <= r.value
    decreases |t| - p
  {
    var s := UnitStart(t, p);
    forall e: nat | Groups(t, p, e, g) && WordBoundary(t, e)
      ensures s < |t| && IsUpperAlnum(t[s]) && RunGroups(t, s, e, g)
    {
      GroupsAt(t, p, e, g);
    }
    if s < |t| && IsUpperAlnum(t[s]) {
      var q := RunEnd(t, s);
      var c := Ceil4(q - s);
      forall e: nat | s < e < q
        ensures !WordBoundary(t, e)
      {
        NoBoundaryInsideRun(t, s, e);
      }
      if c <= g {
        var best' := if WordBoundary(t, q) then Some(q) else best;
        RunsEndSpec(t, q, g - c, best');
        if WordBoundary(t, q) {
          GroupsAt(t, p, q, g);
        }
        forall e: nat | Groups(t, q, e, g - c)
          ensures Groups(t, p, e, g)
        {
          GroupsAt(t, p, e, g);
        }
      }
    }
  }

  /**
   * The match at i, if any, ends where the walk over the runs after the two letters and two digits
   * says.
   */
  lemma MatchAtRuns(t: string, i: nat)
    requires i <= |t|
    ensures LongestEnd(t, i, |t|) ==
      if i + 4 <= |t| && WordBoundary(t, i) && IsUpper(t[i]) && IsUpper(t[i + 1]) && IsDigit(t[i + 2]) && IsDigit(t[i + 3])
      then RunsEnd(t, i + 4, 8, None)
      else None
  {
    var r := LongestEnd(t, i, |t|);
    if i + 4 <= |t| && WordBoundary(t, i) && IsUpper(t[i]) && IsUpper(t[i + 1]) && IsDigit(t[i + 2]) && IsDigit(t[i + 3]) {
      var w := RunsEnd(t, i + 4, 8, None);
      RunsEndSpec(t, i + 4, 8, None);
      if w.Some? {
        assert IsMatch(t, i, w.value);
      }
      if r.Some? {
        assert Groups(t, i + 4, r.value, 8) && WordBoundary(t, r.value);
      }
    }
  }

  // ---------------------------------------------------------------------------------------------
  // The scanner
  // ---------------------------------------------------------------------------------------------

  /** Walks to the end of the run of [A-Z0-9] characters that starts at s. */
  method ScanRun(t: string, s: nat) returns (q: nat)
    requires s <= |t|
    ensures q == RunEnd(t, s)
  {
    q := s;
    while q < |t| && IsUpperAlnum(t[q])
      invariant s <= q <= |t|
      invariant RunEnd(t, q) == RunEnd(t, s)
      decreases |t| - q
    {
      q := q + 1;
    }
  }

  /** One unit of the walk: the run at the unit's start fits in the units left. */
  lemma RunsEndUnfold(t: string, p: nat, g: nat, best: Option<nat>, s: nat, q: nat)
    requires p <= |t| && s == UnitStart(t, p) && s < |t| && IsUpperAlnum(t[s])
    requires q == RunEnd(t, s) && Ceil4(q - s) <= g
    ensures RunsEnd(t, p, g, best) == RunsEnd(t, q, g - Ceil4(q - s), if WordBoundary(t, q) then Some(q) else best)
  {
  }

  /** Walks the runs from p0 with eight units available and returns the longest end with \b there. */
  method WalkRuns(t: string, p0: nat) returns (best: Option<nat>)
    requires p0 <= |t|
    ensures best == RunsEnd(t, p0, 8, None)
  {
    var p: nat, g: nat := p0, 8;
    best := None;
    while true
      invariant p <= |t| && (best.Some? ==> best.value <= p)
      invariant RunsEnd(t, p, g, best) == RunsEnd(t, p0, 8, None)
      decreases |t| - p
    {
      var s := p;
      if p < |t| && IsSeparator(t[p]) {
        s := p + 1;
      }
      assert s == UnitStart(t, p);
      if s == |t| || !IsUpperAlnum(t[s]) {
        break;
      }
      var q := ScanRun(t, s);
      var c := (q - s + 3) / 4;
      assert c == Ceil4(q - s);
      if g < c {
        break;
      }
      RunsEndUnfold(t, p, g, best, s, q);
      if WordBoundary(t, q) {
        best := Some(q);
      }
      p, g := q, g - c;
    }
  }

  /** The end of the match starting at i: the two letters and two digits, then the walk over the runs. */
  method LongestMatchAt(t: string, i: nat) returns (end: Option<nat>)
    requires i <= |t|
    ensures end == LongestEnd(t, i, |t|)
  {
    MatchAtRuns(t, i);
    if i + 4 <= |t| && WordBoundary(t, i) && IsUpper(t[i]) && IsUpper(t[i + 1]) && IsDigit(t[i + 2]) && IsDigit(t[i + 3]) {
      end := WalkRuns(t, i + 4);
    } else {
      end := None;
    }
  }

  /** Matcher.find() from position from: tries the starts in order and stops at the first match. */
  method Find(t: string, from: nat) returns (m: Option<(nat, nat)>)
    ensures m == NextMatch(t, from)
  {
    var i := from;
    while i < |t|
      invariant from <= i
      invariant NextMatch(t, i) == NextMatch(t, from)
      decreases |t| - i
    {
      var end := LongestMatchAt(t, i);
      if end.Some? {
        return Some((i, end.value));
      }
      i := i + 1;
    }
    return None;
  }

  /** isValidIban of the extraction service, with its StringBuilder loop over the rearranged characters. */
  method IsValidIbanMod97(iban: Option<string>) returns (valid: bool)
    ensures valid == ExtractionChecksum(iban)
  {
    if iban.None? || |iban.value| < 4 {
      return false;
    }
    var s := iban.value;
    var rearranged := s[4..] + s[..4];
    var numeric := "";
    for k := 0 to |rearranged|
      invariant numeric == NumericIban(rearranged[..k])
    {
      var c := rearranged[k];
      assert rearranged[..k + 1][..k] == rearranged[..k];
      assert NumericIban(rearranged[..k + 1]) == numeric + Appended(c);
      if IsLetter(c) {
        numeric := numeric + IntToDecimal(LetterValue(c));
      } else {
        numeric := numeric + [c];
      }
    }
    assert rearranged[..|rearranged|] == rearranged;
    assert rearranged == IbanValidation.Rearranged(s);
    assert numeric == NumericIban(IbanValidation.Rearranged(s));
    var parsed := ParseBigInteger(numeric);
    valid := parsed.Some? && parsed.value % 97 == 1;
  }

  /** A string without letters is its own numeral: only letters are expanded. */
  lemma {:induction false} NumericIbanWithoutLetters(s: string)
    requires forall k :: 0 <= k < |s| ==> !IsLetter(s[k])
    ensures NumericIban(s) == s
  {
    if s != [] {
      NumericIbanWithoutLetters(s[..|s| - 1]);
      assert s[..|s| - 1] + [s[|s| - 1]] == s;
    }
  }

  /** On A-Z and 0-9 both services write the same numeral. */
  lemma {:induction false} NumericIbanOfUpperAlnum(s: string)
    requires AllUpperAlnum(s)
    ensures NumericIban(s) == IbanValidation.IbanDigits(s)
  {
    if s != [] {
      NumericIbanOfUpperAlnum(s[..|s| - 1]);
    }
  }

  /**
   * Both MOD-97 implementations agree on every string of A-Z and 0-9 of at least four characters:
   * the validation fallback answers exactly what the extraction check answers.
   */
  lemma ChecksumsAgree(s: string)
    requires AllUpperAlnum(s) && |s| >= 4
    ensures IbanValidation.IsValidIbanChecksum(s) == Ok(ExtractionChecksum(Some(s)))
  {
    IbanValidation.RearrangedUpperAlnum(s);
    NumericIbanOfUpperAlnum(IbanValidation.Rearranged(s));
  }

  /** A lower-case letter gets the numeric value of its upper-case counterpart. */
  lemma AppendedIgnoresCase(c: char)
    ensures Appended(UpperChar(c)) == Appended(c)
  {
    if IsLower(c) {
      assert LetterValue(UpperChar(c)) == LetterValue(c);
    }
  }

  /** Lower-case letters count as their upper-case counterparts in the extraction check. */
  lemma {:induction false} NumericIbanIgnoresCase(s: string)
    ensures NumericIban(UpperAscii(s)) == NumericIban(s)
  {
    if s != [] {
      var u := UpperAscii(s);
      var init, last := s[..|s| - 1], s[|s| - 1];
      NumericIbanIgnoresCase(init);
      assert u == UpperAscii(init) + [UpperChar(last)];
      assert u[..|u| - 1] == UpperAscii(init) && u[|u| - 1] == UpperChar(last);
      AppendedIgnoresCase(last);
    }
  }

  /** String.toUpperCase restricted to ASCII. */
  function UpperAscii(s: string): (u: string)
    ensures |u| == |s|
    ensures forall k :: 0 <= k < |s| ==> u[k] == UpperChar(s[k])
  {
    if s == [] then [] else UpperAscii(s[..|s| - 1]) + [UpperChar(s[|s| - 1])]
  }

  /** The extraction check accepts a string exactly when it accepts its upper-case form. */
  lemma ExtractionChecksumIgnoresCase(s: string)
    ensures ExtractionChecksum(Some(UpperAscii(s))) == ExtractionChecksum(Some(s))
  {
    if |s| >= 4 {
      var u := UpperAscii(s);
      assert IbanValidation.Rearranged(u) == UpperAscii(IbanValidation.Rearranged(s));
      NumericIbanIgnoresCase(IbanValidation.Rearranged(s));
    }
  }

  // ---------------------------------------------------------------------------------------------
  // extractIbansFromText
  // ---------------------------------------------------------------------------------------------

  /** extractIbansFromText: normalise, then add every match that passes the check, until find() fails. */
  method ExtractIbansFromText(text: string) returns (ibans: set<string>)
    ensures ibans == TextIbans(text)
  {
    var t := Normalize(text);
    ibans := {};
    var from: nat := 0;
    while true
      invariant from <= |t|
      invariant ibans + KeptFrom(t, from) == KeptFrom(t, 0)
      decreases |t| - from
    {
      var m := Find(t, from);
      if m.None? {
        break;
      }
      var iban := RemoveSpaces(t[m.value.0..m.value.1]);
      var valid := IsValidIbanMod97(Some(iban));
      if valid {
        ibans := ibans + {iban};
      }
      from := m.value.1;
    }
  }

  /** The set keeps exactly the candidates that pass the check: duplicates collapse, nothing else is added. */
  lemma {:induction false} KeptFromIsFilter(t: string, from: nat)
    ensures forall x :: x in KeptFrom(t, from) <==> x in CandidatesFrom(t, from) && ExtractionChecksum(Some(x))
    decreases |t| - from
  {
    match NextMatch(t, from)
    case None =>
    case Some(m) =>
      KeptFromIsFilter(t, m.1);
  }

  /** What a candidate looks like: two letters, two digits, then 1 to 32 characters of [A-Z0-9]. */
  predicate CandidateShape(c: string) {
    5 <= |c| <= 36 && IsUpper(c[0]) && IsUpper(c[1]) && IsDigit(c[2]) && IsDigit(c[3]) && AllUpperAlnum(c[4..])
  }

  /** A candidate consists of upper-case letters and digits only. */
  lemma CandidateUpperAlnum(c: string)
    requires CandidateShape(c)
    ensures AllUpperAlnum(c) && |c| >= 4
  {
    assert forall k :: 4 <= k < |c| ==> c[k] == c[4..][k - 4];
  }

  /** Removing spaces from three adjacent slices. */
  lemma RemoveSpacesSlices(t: string, p: nat, s: nat, m: nat, e: nat)
    requires p <= s <= m <= e <= |t|
    ensures RemoveSpaces(t[p..e]) == RemoveSpaces(t[p..s]) + RemoveSpaces(t[s..m]) + RemoveSpaces(t[m..e])
  {
    assert t[p..e] == t[p..s] + t[s..m] + t[m..e];
    RemoveSpacesConcat(t[p..s] + t[s..m], t[m..e]);
    RemoveSpacesConcat(t[p..s], t[s..m]);
  }

  /** In a normalised text the optional separator of a unit is a space, and it is removed. */
  lemma SeparatorRemoved(t: string, p: nat)
    requires NoLineSeparators(t) && p <= |t|
    ensures RemoveSpaces(t[p..UnitStart(t, p)]) == []
  {
    if UnitStart(t, p) == p + 1 {
      assert t[p..p + 1] == [' '];
    } else {
      assert t[p..p] == [];
    }
  }

  /** Units of a normalised text lose their spaces and leave 1 to 4 * g characters of [A-Z0-9]. */
  lemma {:induction false} GroupsWithoutSpaces(t: string, p: nat, e: nat, g: nat)
    requires NoLineSeparators(t) && Groups(t, p, e, g)
    ensures AllUpperAlnum(RemoveSpaces(t[p..e]))
    ensures 1 <= |RemoveSpaces(t[p..e])| <= 4 * g
    decreases e - p
  {
    var k := GroupsWitness(t, p, e, g);
    var s := UnitStart(t, p);
    TakeFacts(t, s, e, k, g);
    var unit := t[s..s + k];
    var rest := RemoveSpaces(t[s + k..e]);
    UnitWithoutSpaces(t, p, s, k, e);
    if s + k < e {
      GroupsWithoutSpaces(t, s + k, e, g - 1);
      IbanValidation.AllUpperAlnumConcat(unit, rest);
    } else {
      assert t[s + k..e] == [];
    }
  }

  /** The first unit of a normalised text loses its separator and keeps its characters. */
  lemma UnitWithoutSpaces(t: string, p: nat, s: nat, k: nat, e: nat)
    requires NoLineSeparators(t) && p <= |t| && s == UnitStart(t, p) && s + k <= e <= |t|
    requires AllUpperAlnum(t[s..s + k])
    ensures RemoveSpaces(t[p..e]) == t[s..s + k] + RemoveSpaces(t[s + k..e])
  {
    var unit, after := t[s..s + k], t[s + k..e];
    assert [] + unit + RemoveSpaces(after) == unit + RemoveSpaces(after);
    RemoveSpacesOfUpperAlnum(unit);
    SeparatorRemoved(t, p);
    RemoveSpacesSlices(t, p, s, s + k, e);
  }

  /** Every match of a normalised text, with its spaces removed, has the candidate shape. */
  lemma MatchShape(t: string, i: nat, e: nat)
    requires NoLineSeparators(t) && IsMatch(t, i, e)
    ensures CandidateShape(RemoveSpaces(t[i..e]))
  {
    GroupsWithoutSpaces(t, i + 4, e, 8);
    assert t[i..e] == t[i..i + 4] + t[i + 4..e];
    assert AllUpperAlnum(t[i..i + 4]);
    RemoveSpacesOfUpperAlnum(t[i..i + 4]);
    RemoveSpacesConcat(t[i..i + 4], t[i + 4..e]);
  }

  lemma {:induction false} CandidatesShape(t: string, from: nat)
    requires NoLineSeparators(t)
    ensures forall c :: c in CandidatesFrom(t, from) ==> CandidateShape(c)
    decreases |t| - from
  {
    match NextMatch(t, from)
    case None =>
    case Some(m) =>
      MatchShape(t, m.0, m.1);
      CandidatesShape(t, m.1);
  }

  /**
   * What extractIbansFromText returns: exactly the matches, spaces removed, that pass the
   * extraction check; each has the candidate shape and also passes the validation service's
   * fallback check.
   */
  lemma TextIbansSpec(text: string)
    ensures forall x :: x in TextIbans(text) <==> x in CandidatesFrom(Normalize(text), 0) && ExtractionChecksum(Some(x))
    ensures forall x :: x in TextIbans(text) ==> CandidateShape(x) && IbanValidation.IsValidIbanChecksum(x) == Ok(true)
  {
    KeptFromIsFilter(Normalize(text), 0);
    CandidatesShape(Normalize(text), 0);
    forall x | x in TextIbans(text)
      ensures IbanValidation.IsValidIbanChecksum(x) == Ok(true)
    {
      CandidateUpperAlnum(x);
      ChecksumsAgree(x);
    }
  }

  /** Two upper-case letters followed by two digits at i: how every match begins. */
  predicate HasPrefixAt(t: string, i: nat) {
    i + 4 <= |t| && IsUpper(t[i]) && IsUpper(t[i + 1]) && IsDigit(t[i + 2]) && IsDigit(t[i + 3])
  }

  /** A text in which no two letters are followed by two digits yields nothing. */
  lemma {:induction false} NoPrefixNoMatch(t: string, from: nat)
    ensures (forall i: nat :: !HasPrefixAt(t, i)) ==> KeptFrom(t, from) == {} && CandidatesFrom(t, from) == []
  {
    match NextMatch(t, from)
    case None =>
    case Some(m) =>
      assert IsMatch(t, m.0, m.1);
      assert HasPrefixAt(t, m.0);
  }
}
