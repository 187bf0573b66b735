/**
 * The rendered problem page, reduced to the plain data the extraction
 * closure reads from it. Each field stands for one DOM query of
 * scraper/codeforces.ts; `None` is a query that found no element.
 */
module Page {
  import opened Wrappers
  import opened Text

  /** A `div` inside an input `pre`: its `className` and its `textContent`. */
  datatype LineElement = LineElement(className: string, text: string)

  /** The `.sample-tests` region. */
  datatype SampleTestsRegion = SampleTestsRegion(
    /** `children.length` of the first `.sample-test`, or None when there is none. */
    firstTestChildren: Option<nat>,
    /** For every `.input pre` in document order, its `div`s in document order. */
    inputs: seq<seq<LineElement>>,
    /** The `textContent` of every `.output pre`, in document order. */
    outputs: seq<string>)

  /** The `.problem-statement` root and what is read inside it. */
  datatype Statement = Statement(
    /** `textContent` of `.title`. */
    title: Option<string>,
    /** `textContent` of `.header .time-limit`, label included. */
    timeLimit: Option<string>,
    /** `textContent` of `.header .memory-limit`, label included. */
    memoryLimit: Option<string>,
    /** `innerHTML` of `children[1]`, the second child of the root. */
    secondChildHtml: Option<string>,
    /** `innerHTML` of `.input-specification`. */
    inputSpecHtml: Option<string>,
    /** `innerHTML` of `.output-specification`. */
    outputSpecHtml: Option<string>)

  datatype Document = Document(statement: Option<Statement>, sampleTests: Option<SampleTestsRegion>)

  /** The layout this scraper refuses: a first `.sample-test` with more than two children. */
  predicate IsDeprecatedLayout(region: SampleTestsRegion) {
    region.firstTestChildren.Some? && region.firstTestChildren.value > 2
  }

  /** The literal part of the pattern `/test-example-line-(\d+)/`. */
  const LineClassPrefix := "test-example-line-"

  /** The pattern matches `className` starting at position `i`. */
  predicate MatchesAt(className: string, i: nat) {
    && i + |LineClassPrefix| < |className|
    && className[i..i + |LineClassPrefix|] == LineClassPrefix
    && IsDigit(className[i + |LineClassPrefix|])
  }

  /** The leftmost position at or after `from` where the pattern matches, as a regex search finds it. */
  function FirstMatch(className: string, from: nat): (r: Option<nat>)
    decreases |className| - from
    ensures r.Some? ==> from <= r.value && MatchesAt(className, r.value)
    ensures r.Some? ==> forall j :: from <= j < r.value ==> !MatchesAt(className, j)
    ensures r.None? ==> forall j :: from <= j ==> !MatchesAt(className, j)
  {
    if from >= |className| then None
    else if MatchesAt(className, from) then Some(from)
    else FirstMatch(className, from + 1)
  }

  /**
   * `parseInt(match[1], 10)` for `className.match(/test-example-line-(\d+)/)`,
   * or None when the class does not match.
   */
  function LineIndex(className: string): Option<nat> {
    match FirstMatch(className, 0)
    case None => None
    case Some(p) => Some(DecimalValue(DigitRun(className[p + |LineClassPrefix|..])))
  }

  /** The class `test-example-line-<n>` carries index `n`. */
  lemma LineIndexOfLineClass(n: nat)
    ensures LineIndex(LineClassPrefix + Decimal(n)) == Some(n)
  {
    var c := LineClassPrefix + Decimal(n);
    assert c[..|LineClassPrefix|] == LineClassPrefix;
    assert MatchesAt(c, 0);
    assert c[|LineClassPrefix|..] == Decimal(n);
    DigitRunOfDigits(Decimal(n));
    DecimalValueOfDecimal(n);
  }

  /** A position where the text differs from the pattern's literal part is no match. */
  lemma NoMatchAt(className: string, i: nat, k: nat)
    requires k < |LineClassPrefix| && i + k < |className| && className[i + k] != LineClassPrefix[k]
    ensures !MatchesAt(className, i)
  {
    if i + |LineClassPrefix| <= |className| {
      assert className[i..i + |LineClassPrefix|][k] == className[i + k];
    }
  }

  /** The search finds a match at `p` when nothing between `from` and `p` matches. */
  lemma FirstMatchAt(className: string, from: nat, p: nat)
    requires from <= p && MatchesAt(className, p)
    requires forall j :: from <= j < p ==> !MatchesAt(className, j)
    ensures FirstMatch(className, from) == Some(p)
  {
  }

  /** The plain class that comes first in the site's class string. */
  const SiteLineHead := "test-example-line "

  /**
   * The class string the site gives to a line of test 1,
   * "test-example-line test-example-line-1 test-example-line-odd".
   */
  const SiteLineClass := SiteLineHead + LineClassPrefix + "1 test-example-line-odd"

  /** No match starts inside the plain class that heads the site's class string. */
  lemma SiteHeadNoMatch(rest: string)
    ensures forall j :: 0 <= j < |SiteLineHead| ==> !MatchesAt(SiteLineHead + rest, j)
  {
    var c := SiteLineHead + rest;
    forall j | 0 <= j < |SiteLineHead| ensures !MatchesAt(c, j) {
      if j == 0 {
        assert c[17] == SiteLineHead[17];
        NoMatchAt(c, j, 17);
      } else if j == 3 {
        assert c[4] == SiteLineHead[4];
        NoMatchAt(c, j, 1);
      } else {
        assert c[j] == SiteLineHead[j];
        NoMatchAt(c, j, 0);
      }
    }
  }

  /** The digits after the matched prefix in the site's class string read as 1. */
  lemma SiteTailIndex(tail: string)
    requires |tail| >= 2 && tail[0] == '1' && tail[1] == ' '
    ensures DigitRun(tail) == "1" && DecimalValue("1") == 1
  {
    var run := DigitRun(tail);
    assert |run| == 1;
  }

  /** The site's class string for a line of test 1 carries index 1. */
  lemma SiteLineClassIndex()
    ensures LineIndex(SiteLineClass) == Some(1)
  {
    var tail := "1 test-example-line-odd";
    var c := SiteLineClass;
    assert c == SiteLineHead + (LineClassPrefix + tail);
    SiteHeadNoMatch(LineClassPrefix + tail);
    var p := |SiteLineHead|;
    assert c[p..p + |LineClassPrefix|] == LineClassPrefix;
    assert c[p + |LineClassPrefix|..] == tail;
    assert MatchesAt(c, p);
    FirstMatchAt(c, 0, p);
    SiteTailIndex(tail);
  }

  lemma {:induction false} DigitRunOfDigits(ds: string)
    requires AllDigits(ds)
    ensures DigitRun(ds) == ds
  {
    if ds != [] {
      DigitRunOfDigits(ds[1..]);
    }
  }
}
