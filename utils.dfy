/**
  Format detection and delimiter suggestion (rust/src/utils.rs): the first-match-wins
  classifier `detect_type`, the running-maximum choice `suggest_csv_delimiter`, and
  `calculate_size`.
*/
module Utils {
  import opened Wrappers
  import opened Text

  /** The five format tags `detect_type` can return. */
  datatype ParserKind = Iso20022 | Fin | Csv | FixedWidth | Custom {
    function Name(): (s: string)
      ensures s in {"iso20022", "fin", "csv", "fixed-width", "custom"}
    {
      match this
      case Iso20022 => "iso20022"
      case Fin => "fin"
      case Csv => "csv"
      case FixedWidth => "fixed-width"
      case Custom => "custom"
    }
  }

  /** Distinct tags have distinct names, so the string `detect_type` returns identifies the tag. */
  lemma KindNameInjective(a: ParserKind, b: ParserKind)
    requires a.Name() == b.Name()
    ensures a == b
  {
    assert a.Name()[0] == b.Name()[0];
    if a.Name()[0] == 'f' {
      assert a.Name()[1] == b.Name()[1];
    }
  }

  // ---------------------------------------------------------------- the rules, in order

  /** Rule 1: an XML prolog or one of the ISO 20022 root names opens the (trimmed) text. */
  predicate OpensAsXml(t: string) {
    StartsWith(t, "<?xml") || StartsWith(t, "<Document") || StartsWith(t, "<pain")
    || StartsWith(t, "<camt") || StartsWith(t, "<pacs")
  }

  /** Rule 2: a SWIFT basic-header block opens the text, or a text block occurs anywhere. */
  predicate HasFinMarker(t: string) {
    StartsWith(t, "{1:") || Contains(t, "{4:")
  }

  /** `lines().next().unwrap_or("")`. */
  function FirstLine(t: string): string {
    var ls := Lines(t);
    if ls == [] then [] else ls[0]
  }

  /** Rule 3: the first line holds at least two of one of the four delimiters. */
  predicate FirstLineDelimited(t: string) {
    var line := FirstLine(t);
    Count(line, ',') >= 2 || Count(line, ';') >= 2 || Count(line, '\t') >= 2 || Count(line, '|') >= 2
  }

  /** `lines().filter(|l| !l.is_empty())`. */
  function NonEmptyLines(ls: seq<string>): (r: seq<string>)
    ensures |r| <= |ls|
    ensures forall k :: 0 <= k < |r| ==> r[k] != []
  {
    if ls == [] then []
    else if ls[0] == [] then NonEmptyLines(ls[1..])
    else [ls[0]] + NonEmptyLines(ls[1..])
  }

  /** The byte lengths of the first ten non-empty lines. */
  function SampleLengths(t: string): (lengths: seq<nat>)
    ensures |lengths| <= 10
  {
    var sample := Take(NonEmptyLines(Lines(t)), 10);
    seq(|sample|, i requires 0 <= i < |sample| => Utf8Length(sample[i]))
  }

  function Sum(xs: seq<nat>): nat {
    if xs == [] then 0 else xs[0] + Sum(xs[1..])
  }

  function AbsReal(x: real): real {
    if x < 0.0 then -x else x
  }

  /** Rule 4 as written: every sampled length is within 5 of the mean, and the mean exceeds 20. */
  predicate SimilarToMean(lengths: seq<nat>)
    requires lengths != []
  {
    var mean := Sum(lengths) as real / |lengths| as real;
    (forall i :: 0 <= i < |lengths| ==> AbsReal(lengths[i] as real - mean) < 5.0) && mean > 20.0
  }

  /** Rule 4 in whole numbers: `|len * n - sum| < 5n` for every sampled length, and `sum > 20n`. */
  predicate SimilarByCrossMultiplication(lengths: seq<nat>) {
    var n, sum := |lengths|, Sum(lengths);
    (forall i :: 0 <= i < n ==> -5 * n < lengths[i] * n - sum < 5 * n) && sum > 20 * n
  }

  predicate HasThreeNonEmptyLines(t: string) {
    |NonEmptyLines(Lines(t))| >= 3
  }

  /**
    `detect_type`: the first rule that matches the trimmed text decides; text that
    matches none is "custom".
  */
  function DetectType(data: string): (k: ParserKind)
    ensures var t := Trim(data); k == Iso20022 <==> OpensAsXml(t)
    ensures var t := Trim(data); k == Fin <==> !OpensAsXml(t) && HasFinMarker(t)
    ensures var t := Trim(data);
      k == Csv <==> !OpensAsXml(t) && !HasFinMarker(t) && FirstLineDelimited(t)
    ensures var t := Trim(data);
      k == FixedWidth <==> (!OpensAsXml(t) && !HasFinMarker(t) && !FirstLineDelimited(t)
        && HasThreeNonEmptyLines(t) && SimilarByCrossMultiplication(SampleLengths(t)))
  {
    var t := Trim(data);
    if OpensAsXml(t) then Iso20022
    else if HasFinMarker(t) then Fin
    else if FirstLineDelimited(t) then Csv
    else if HasThreeNonEmptyLines(t) && SimilarToMean(SampleLengths(t)) then
      MeanRuleIsCrossMultiplication(SampleLengths(t));
      FixedWidth
    else
      if HasThreeNonEmptyLines(t) then
        MeanRuleIsCrossMultiplication(SampleLengths(t));
        Custom
      else Custom
  }

  lemma SampleOfThreeLinesIsNonEmpty(t: string)
    requires HasThreeNonEmptyLines(t)
    ensures SampleLengths(t) != []
  {
  }

  /** The mean rule over reals and its cross-multiplied form accept the same samples. */
  lemma MeanRuleIsCrossMultiplication(lengths: seq<nat>)
    requires lengths != []
    ensures SimilarToMean(lengths) <==> SimilarByCrossMultiplication(lengths)
  {
    var n, sum := |lengths|, Sum(lengths);
    var mean := sum as real / n as real;
    forall i | 0 <= i < n
      ensures AbsReal(lengths[i] as real - mean) < 5.0 <==> -5 * n < lengths[i] * n - sum < 5 * n
    {
      DeviationScaled(lengths[i], sum, n);
    }
    DeviationScaled(20, sum, n);
  }

  /** Scaling the deviation `x - sum / n` by `n` gives the whole number `x * n - sum`. */
  lemma DeviationScaled(x: nat, sum: nat, n: nat)
    requires n > 0
    ensures var d := x as real - sum as real / n as real;
      (AbsReal(d) < 5.0 <==> -5 * n < x * n - sum < 5 * n)
      && (-d > 0.0 <==> sum > x * n)
  {
    var nr := n as real;
    var d := x as real - sum as real / nr;
    var e := x * n - sum;
    DeviationTimesCount(x, sum, n);
    DeviationBounds(d, e as real, nr);
    assert 5.0 * nr == (5 * n) as real;
  }

  lemma DeviationTimesCount(x: nat, sum: nat, n: nat)
    requires n > 0
    ensures (x as real - sum as real / n as real) * n as real == (x * n - sum) as real
  {
    var nr := n as real;
    var m := sum as real / nr;
    assert m * nr == sum as real;
    assert (x * n) as real == x as real * nr;
    assert (x as real - m) * nr == x as real * nr - m * nr;
  }

  lemma DeviationBounds(d: real, e: real, k: real)
    requires k > 0.0 && d * k == e
    ensures AbsReal(d) < 5.0 <==> -5.0 * k < e < 5.0 * k
    ensures -d > 0.0 <==> e < 0.0
  {
    ScaleLess(d, 5.0, k);
    ScaleLess(-5.0, d, k);
    ScaleLess(d, 0.0, k);
    assert AbsReal(d) < 5.0 <==> -5.0 < d && d < 5.0;
  }

  /** Multiplying both sides by a positive factor keeps a strict inequality. */
  lemma ScaleLess(a: real, b: real, k: real)
    requires k > 0.0
    ensures a < b <==> a * k < b * k
  {
    PositiveFactor(b - a, k);
    assert (b - a) * k == b * k - a * k;
  }

  lemma PositiveFactor(x: real, n: real)
    requires n > 0.0
    ensures x > 0.0 <==> x * n > 0.0
  {
  }

  // ---------------------------------------------------------------- delimiter suggestion

  /** The candidates in the order `suggest_csv_delimiter` tries them. */
  const Candidates: seq<char> := [',', ';', '\t', '|']

  function CandidateIndex(c: char): (i: nat)
    requires c in Candidates
    ensures i < |Candidates| && Candidates[i] == c
  {
    if c == ',' then 0 else if c == ';' then 1 else if c == '\t' then 2 else 3
  }

  /** `lines().take(5).collect::<Vec<_>>().join("\n")`. */
  function FirstLines(data: string): string {
    Join(Take(Lines(data), 5), "\n")
  }

  /**
    `suggest_csv_delimiter`: the candidate occurring most often in the first five
    lines; a later candidate replaces the current best only with a strictly greater
    count, so ties go to the earlier one and a text with none of them gives ','.
  */
  method SuggestCsvDelimiter(data: string) returns (best: char)
    ensures best in Candidates
    ensures forall c :: c in Candidates ==> Count(FirstLines(data), c) <= Count(FirstLines(data), best)
    ensures forall j :: 0 <= j < CandidateIndex(best) ==>
      Count(FirstLines(data), Candidates[j]) < Count(FirstLines(data), best)
    ensures (forall c :: c in Candidates ==> c !in FirstLines(data)) ==> best == ','
  {
    var firstLines := FirstLines(data);
    best := ',';
    var maxCount := 0;
    ghost var bestIndex := 0;
    for i := 0 to |Candidates|
      invariant bestIndex < |Candidates| && best == Candidates[bestIndex]
      invariant i == 0 ==> bestIndex == 0 && maxCount == 0
      invariant i > 0 ==> bestIndex < i && maxCount == Count(firstLines, best)
      invariant forall j :: 0 <= j < i ==> Count(firstLines, Candidates[j]) <= maxCount
      invariant forall j :: 0 <= j < bestIndex ==> Count(firstLines, Candidates[j]) < maxCount
    {
      var delimiter := Candidates[i];
      var count := Count(firstLines, delimiter);
      if count > maxCount {
        maxCount := count;
        best := delimiter;
        bestIndex := i;
      }
    }
    assert CandidateIndex(best) == bestIndex;
  }

  /** The three rules above pin the suggestion down: at most one candidate meets them. */
  lemma SuggestionIsUnique(data: string, a: char, b: char)
    requires a in Candidates && b in Candidates
    requires forall c :: c in Candidates ==> Count(FirstLines(data), c) <= Count(FirstLines(data), a)
    requires forall c :: c in Candidates ==> Count(FirstLines(data), c) <= Count(FirstLines(data), b)
    requires forall j :: 0 <= j < CandidateIndex(a) ==>
      Count(FirstLines(data), Candidates[j]) < Count(FirstLines(data), a)
    requires forall j :: 0 <= j < CandidateIndex(b) ==>
      Count(FirstLines(data), Candidates[j]) < Count(FirstLines(data), b)
    ensures a == b
  {
    var ia, ib := CandidateIndex(a), CandidateIndex(b);
    assert Candidates[ia] == a && Candidates[ib] == b;
  }

  // ---------------------------------------------------------------- size

  /** `calculate_size`: the number of bytes of the UTF-8 text. */
  function CalculateSize(data: string): (n: nat)
    ensures n == |Utf8Encode(data)|
    ensures n >= |data|
  {
    Utf8LengthIsEncodedLength(data);
    Utf8Length(data)
  }
}
