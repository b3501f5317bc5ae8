/** The citation-overlap metric of the evaluation script (evals/evaluate.py): the share of the
    ground truth's `[n]` citations that the response also cites. */
module Evaluate {
  import opened Common

  /** The end of the run of digits that starts at `k`. */
  function DigitRunEnd(s: string, k: nat): (q: nat)
    requires k <= |s|
    ensures k <= q <= |s|
    ensures forall i :: k <= i < q ==> IsAsciiDigit(s[i])
    ensures q == |s| || !IsAsciiDigit(s[q])
    decreases |s| - k
  {
    if k < |s| && IsAsciiDigit(s[k]) then DigitRunEnd(s, k + 1) else k
  }

  /** `re.findall(r"\[(\d+)\]", s[k:])`: scanning from `k`, every `[`, one or more digits and
      `]` gives its digits, and the scan goes on after the `]`; anywhere else it moves one
      character on. */
  function FindCitations(s: string, k: nat): (r: seq<string>)
    requires k <= |s|
    ensures forall c :: c in r ==> IsDigits(c)
    decreases |s| - k
  {
    if k == |s| then []
    else if s[k] == '[' then
      var q := DigitRunEnd(s, k + 1);
      if q > k + 1 && q < |s| && s[q] == ']' then
        DigitRunIsDigits(s, k + 1, q);
        [s[k + 1..q]] + FindCitations(s, q + 1)
      else FindCitations(s, k + 1)
    else FindCitations(s, k + 1)
  }

  /** `s[i:j]` is a citation: an opening bracket, at least one digit, a closing bracket. */
  predicate CitationSpan(s: string, i: int, j: int)
  {
    0 <= i && i + 2 < j <= |s| && s[i] == '[' && s[j - 1] == ']' && IsDigits(s[i + 1..j - 1])
  }

  /** The citations of a text, stated without the scan: the digits of every bracketed digit run. */
  function CitationSet(s: string, k: nat): set<string>
  {
    set i, j | k <= i < j <= |s| && CitationSpan(s, i, j) :: s[i + 1..j - 1]
  }

  /** `set(re.findall(...))`. */
  function Citations(s: string): set<string>
  {
    set c | c in FindCitations(s, 0)
  }

  /** A citation span starting at a bracket is the one the scan finds there. */
  lemma SpanIsDigitRun(s: string, i: int, j: int)
    requires CitationSpan(s, i, j)
    ensures DigitRunEnd(s, i + 1) == j - 1
  {
    var q := DigitRunEnd(s, i + 1);
    assert forall t :: i + 1 <= t < j - 1 ==> IsAsciiDigit(s[t]) by {
      forall t | i + 1 <= t < j - 1 ensures IsAsciiDigit(s[t]) {
        assert s[t] == s[i + 1..j - 1][t - i - 1];
      }
    }
    assert !IsAsciiDigit(s[j - 1]);
  }

  /** A run of digits is a digit string. */
  lemma DigitRunIsDigits(s: string, a: int, b: int)
    requires 0 <= a < b <= |s|
    requires forall i :: a <= i < b ==> IsAsciiDigit(s[i])
    ensures IsDigits(s[a..b])
  {
  }

  /** What the scan does at `k`: whether a citation starts there, and where it goes on. */
  function ScanMatch(s: string, k: nat): bool
    requires k < |s|
  {
    var q := DigitRunEnd(s, k + 1);
    s[k] == '[' && q > k + 1 && q < |s| && s[q] == ']'
  }

  function ScanNext(s: string, k: nat): (n: nat)
    requires k < |s|
    ensures k < n <= |s|
  {
    if ScanMatch(s, k) then DigitRunEnd(s, k + 1) + 1 else k + 1
  }

  /** One step of the scan: the citation found at `k`, if any, then the scan from the next position. */
  lemma ScanStep(s: string, k: nat)
    requires k < |s|
    ensures FindCitations(s, k) ==
      (if ScanMatch(s, k) then [s[k + 1..DigitRunEnd(s, k + 1)]] else []) + FindCitations(s, ScanNext(s, k))
  {
  }

  /** The spans from `k` on: the one starting at `k`, if the scan matches there, and those from
      the next position on. */
  lemma {:induction false} SpansStep(s: string, k: nat)
    requires k < |s|
    ensures CitationSet(s, k) ==
      (if ScanMatch(s, k) then {s[k + 1..DigitRunEnd(s, k + 1)]} else {}) + CitationSet(s, ScanNext(s, k))
  {
    var q := DigitRunEnd(s, k + 1);
    var next := ScanNext(s, k);
    var here: set<string> := if ScanMatch(s, k) then {s[k + 1..q]} else {};
    if ScanMatch(s, k) {
      DigitRunIsDigits(s, k + 1, q);
      assert CitationSpan(s, k, q + 1);
    }
    forall c | c in CitationSet(s, k) ensures c in here + CitationSet(s, next) {
      var i, j :| k <= i < j <= |s| && CitationSpan(s, i, j) && c == s[i + 1..j - 1];
      if i == k {
        SpanIsDigitRun(s, i, j);
      } else if ScanMatch(s, k) && i < next {
        assert false;
      } else {
        assert c in CitationSet(s, next);
      }
    }
    forall c | c in CitationSet(s, next) ensures c in CitationSet(s, k) {
      var i, j :| next <= i < j <= |s| && CitationSpan(s, i, j) && c == s[i + 1..j - 1];
    }
  }

  /** The scan finds exactly the bracketed digit runs: every one of them, and nothing else. */
  lemma {:induction false} FindCitationsExact(s: string, k: nat)
    requires k <= |s|
    ensures (set c | c in FindCitations(s, k)) == CitationSet(s, k)
    decreases |s| - k
  {
    if k < |s| {
      ScanStep(s, k);
      SpansStep(s, k);
      FindCitationsExact(s, ScanNext(s, k));
    }
  }

  /** The citations of a text are its bracketed digit runs. */
  lemma CitationsAreSpans(s: string)
    ensures Citations(s) == CitationSet(s, 0)
  {
    FindCitationsExact(s, 0);
  }

  /** The metric's value: the sentinel −1 when there is no response, else the ratio
      `matched / total` (kept as the two counts; the float division is not modelled). */
  datatype Score = Missing | Ratio(matched: nat, total: nat)

  /** `citations_overlap`: −1 for no response; otherwise the share of the ground truth's
      citations the response repeats, which divides by zero when the ground truth cites nothing. */
  function CitationsOverlap(response: Option<string>, groundTruth: string): (r: Result<Score>)
    ensures response.None? ==> r == Ok(Missing)
    ensures response.Some? && Citations(groundTruth) == {} ==> r == Err(ZeroDivisionError)
    ensures r.Ok? && r.value.Ratio? ==> 0 <= r.value.matched <= r.value.total && r.value.total > 0
  {
    if response.None? then Ok(Missing)
    else
      var truth := Citations(groundTruth);
      var answered := Citations(response.value);
      if |truth| == 0 then Err(ZeroDivisionError)
      else
        IntersectionNoLarger(truth, answered);
        Ok(Ratio(|truth * answered|, |truth|))
  }

  /** An intersection is no larger than either side. */
  lemma {:induction false} IntersectionNoLarger<T>(a: set<T>, b: set<T>)
    ensures |a * b| <= |a|
  {
    var c := a * b;
    assert a == c + (a - c);
    assert c * (a - c) == {};
  }

  /** The score is 1 exactly when the response cites every citation of the ground truth, and 0
      exactly when it cites none of them. */
  lemma {:induction false} FullAndNoOverlap(response: string, groundTruth: string)
    requires Citations(groundTruth) != {}
    ensures var r := CitationsOverlap(Some(response), groundTruth).value;
      r.matched == r.total <==> Citations(groundTruth) <= Citations(response)
    ensures var r := CitationsOverlap(Some(response), groundTruth).value;
      r.matched == 0 <==> Citations(groundTruth) * Citations(response) == {}
  {
    var truth := Citations(groundTruth);
    var answered := Citations(response);
    var c := truth * answered;
    assert truth == c + (truth - c);
    assert c * (truth - c) == {};
    assert |truth| == |c| + |truth - c|;
    if |c| == |truth| {
      assert truth - c == {};
      assert truth <= answered;
    }
    if truth <= answered {
      assert c == truth;
    }
  }

  /** The score depends only on which of the ground truth's citations the response repeats:
      citations the ground truth does not have, and repeats, change nothing. */
  lemma {:induction false} ExtraCitationsDoNotCount(response: string, other: string, groundTruth: string)
    requires Citations(response) * Citations(groundTruth) == Citations(other) * Citations(groundTruth)
    ensures CitationsOverlap(Some(response), groundTruth) == CitationsOverlap(Some(other), groundTruth)
  {
    assert Citations(groundTruth) * Citations(response) == Citations(response) * Citations(groundTruth);
    assert Citations(groundTruth) * Citations(other) == Citations(other) * Citations(groundTruth);
  }

  /** Citing more never lowers the score. */
  lemma {:induction false} MoreCitationsScoreHigher(response: string, other: string, groundTruth: string)
    requires Citations(groundTruth) != {}
    requires Citations(response) <= Citations(other)
    ensures CitationsOverlap(Some(response), groundTruth).value.matched
         <= CitationsOverlap(Some(other), groundTruth).value.matched
  {
    var truth := Citations(groundTruth);
    var small := truth * Citations(response);
    var large := truth * Citations(other);
    assert large == small + (large - small);
    assert small * (large - small) == {};
  }

  /** A bracket followed by something other than a digit, with no other bracket after it, holds
      no citation. */
  lemma {:induction false} BracketedNameIsNoCitation(s: string)
    requires |s| >= 2 && s[0] == '[' && !IsAsciiDigit(s[1])
    requires forall i :: 1 <= i < |s| ==> s[i] != '['
    ensures Citations(s) == {}
  {
    assert DigitRunEnd(s, 1) == 1;
    assert FindCitations(s, 0) == FindCitations(s, 1);
    NoBracketNoCitation(s, 1);
  }

  /** A bracketed name such as `[Benefit_Options-2.pdf]` is not a citation. */
  lemma {:induction false} FileNameIsNoCitation()
    ensures Citations("[Benefit_Options-2.pdf]") == {}
  {
    var name := "[Benefit_Options-2.pdf]";
    assert forall i :: 1 <= i < |name| ==> name[i] != '[';
    BracketedNameIsNoCitation(name);
  }

  /** A repeated citation is found twice and counted once. */
  lemma {:induction false} RepeatedCitationCountsOnce()
    ensures FindCitations("[12][12]", 0) == ["12", "12"]
    ensures Citations("[12][12]") == {"12"}
  {
    var twice := "[12][12]";
    assert DigitRunEnd(twice, 3) == 3;
    assert DigitRunEnd(twice, 1) == 3;
    assert DigitRunEnd(twice, 7) == 7;
    assert DigitRunEnd(twice, 5) == 7;
    assert twice[5..7] == "12" && twice[1..3] == "12";
    assert FindCitations(twice, 8) == [];
    assert FindCitations(twice, 4) == ["12"];
    assert FindCitations(twice, 0) == ["12", "12"];
  }

  /** A text with no opening bracket from `k` on has no citations there. */
  lemma {:induction false} NoBracketNoCitation(s: string, k: nat)
    requires k <= |s|
    requires forall i :: k <= i < |s| ==> s[i] != '['
    ensures FindCitations(s, k) == []
    decreases |s| - k
  {
    if k < |s| {
      NoBracketNoCitation(s, k + 1);
    }
  }
}
