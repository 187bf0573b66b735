/**
 * The extraction closure run inside the page, the mapping of its result to
 * the scraper's outcome, and the scraper as a whole with the browser
 * abstracted into a function from URL to rendered page.
 */
module Extraction {
  import opened Wrappers
  import opened Text
  import opened Page
  import opened Pairing
  import opened Url

  /** The label the time-limit element's text starts with. */
  const TimeLabel := "time limit per test"
  /** The label the memory-limit element's text starts with. */
  const MemoryLabel := "memory limit per test"
  /** How many characters are cut off the time-limit text: the length of its label. */
  const TimeLabelLength := 19
  /** How many characters are cut off the memory-limit text: the length of its label. */
  const MemoryLabelLength := 21

  const TimePlaceholder := "Time limit not found"
  const MemoryPlaceholder := "Memory limit not found"
  const DescriptionPlaceholder := "Description not found"
  const InputSpecPlaceholder := "Input description not found"
  const OutputSpecPlaceholder := "Output description not found"

  /** The fields of a successfully scraped problem (`DetailsType` without its status). */
  datatype Details = Details(
    title: Option<string>,
    timeLimit: string,
    memoryLimit: string,
    description: string,
    inputDescription: string,
    outputDescription: string,
    tests: seq<SampleTest>)

  /** The two conditions under which the closure gives up. */
  datatype PageError = StatementNotFound | DeprecatedLayout

  function Message(e: PageError): (m: string)
    ensures m != ""
  {
    match e
    case StatementNotFound => "Problem statement not found"
    case DeprecatedLayout => "Depricated/Not Found"
  }

  /** What the closure returns: `{ error }` or the fields. */
  datatype Evaluated = PageFailed(reason: PageError) | PageDetails(details: Details)

  /** `v || placeholder`: a missing or empty text falls back to the placeholder. */
  function OrElse(v: Option<string>, placeholder: string): (r: string)
    ensures v.Some? && v.value != "" ==> r == v.value
    ensures v.None? || v.value == "" ==> r == placeholder
  {
    if v.Some? && v.value != "" then v.value else placeholder
  }

  /** `element?.textContent?.slice(labelLength).trim() || placeholder`. */
  function LimitText(text: Option<string>, labelLength: nat, placeholder: string): (r: string)
    ensures text.Some? && Trim(Drop(text.value, labelLength)) != "" ==> r == Trim(Drop(text.value, labelLength))
    ensures text.None? || Trim(Drop(text.value, labelLength)) == "" ==> r == placeholder
  {
    OrElse(if text.Some? then Some(Trim(Drop(text.value, labelLength))) else None, placeholder)
  }

  /** `titleElement?.textContent?.trim()`: no placeholder, so it may be absent. */
  function TitleText(title: Option<string>): (r: Option<string>)
    ensures r.Some? <==> title.Some?
    ensures title.Some? ==> r.value == Trim(title.value)
    ensures r.Some? ==> Trimmed(r.value)
  {
    if title.Some? then TrimProperties(title.value); Some(Trim(title.value)) else None
  }

  /** The record the closure builds from the statement root and the paired tests. */
  function ExtractDetails(st: Statement, tests: seq<SampleTest>): (d: Details)
    ensures d.tests == tests
    ensures d.title.Some? <==> st.title.Some?
    ensures st.title.Some? ==> d.title.value == Trim(st.title.value)
    ensures st.timeLimit.Some? && Trim(Drop(st.timeLimit.value, TimeLabelLength)) != "" ==>
              d.timeLimit == Trim(Drop(st.timeLimit.value, TimeLabelLength))
    ensures st.timeLimit.None? || Trim(Drop(st.timeLimit.value, TimeLabelLength)) == "" ==>
              d.timeLimit == TimePlaceholder
    ensures st.memoryLimit.Some? && Trim(Drop(st.memoryLimit.value, MemoryLabelLength)) != "" ==>
              d.memoryLimit == Trim(Drop(st.memoryLimit.value, MemoryLabelLength))
    ensures st.memoryLimit.None? || Trim(Drop(st.memoryLimit.value, MemoryLabelLength)) == "" ==>
              d.memoryLimit == MemoryPlaceholder
    ensures st.secondChildHtml.Some? && st.secondChildHtml.value != "" ==> d.description == st.secondChildHtml.value
    ensures st.secondChildHtml.None? || st.secondChildHtml.value == "" ==> d.description == DescriptionPlaceholder
    ensures st.inputSpecHtml.Some? && st.inputSpecHtml.value != "" ==> d.inputDescription == st.inputSpecHtml.value
    ensures st.inputSpecHtml.None? || st.inputSpecHtml.value == "" ==> d.inputDescription == InputSpecPlaceholder
    ensures st.outputSpecHtml.Some? && st.outputSpecHtml.value != "" ==> d.outputDescription == st.outputSpecHtml.value
    ensures st.outputSpecHtml.None? || st.outputSpecHtml.value == "" ==> d.outputDescription == OutputSpecPlaceholder
    ensures d.timeLimit != "" && d.memoryLimit != "" && d.description != ""
    ensures d.inputDescription != "" && d.outputDescription != ""
  {
    Details(
      TitleText(st.title),
      LimitText(st.timeLimit, TimeLabelLength, TimePlaceholder),
      LimitText(st.memoryLimit, MemoryLabelLength, MemoryPlaceholder),
      OrElse(st.secondChildHtml, DescriptionPlaceholder),
      OrElse(st.inputSpecHtml, InputSpecPlaceholder),
      OrElse(st.outputSpecHtml, OutputSpecPlaceholder),
      tests)
  }

  /** The extraction closure: statement check, layout check, then fields and tests. */
  function Evaluate(doc: Document): Evaluated {
    match doc.statement
    case None => PageFailed(StatementNotFound)
    case Some(st) =>
      if doc.sampleTests.Some? && IsDeprecatedLayout(doc.sampleTests.value) then PageFailed(DeprecatedLayout)
      else
        var tests := if doc.sampleTests.Some? then PairedTests(doc.sampleTests.value) else [];
        PageDetails(ExtractDetails(st, tests))
  }

  /** What the scraper returns: the details with status 200, or an error with its status. */
  datatype Outcome = Success(details: Details, status: int) | Failure(error: string, status: int)

  /** A closure error becomes a 404 failure; otherwise the details are returned with status 200. */
  function ToOutcome(ev: Evaluated): (o: Outcome)
    ensures o.Success? <==> ev.PageDetails?
    ensures o.Success? ==> o.status == 200 && o.details == ev.details
    ensures o.Failure? ==> o.status == 404 && o.error == Message(ev.reason)
  {
    match ev
    case PageFailed(reason) => Failure(Message(reason), 404)
    case PageDetails(details) => Success(details, 200)
  }

  /** What the browser gives back for a URL: the rendered page, or a thrown error in serialised form. */
  datatype Fetched = Rendered(doc: Document) | Thrown(failure: string)

  /** The whole scraper: resolve the URL, let `browse` render it, extract, map the outcome. */
  function Scrape(id: string, ongoing: bool, browse: string -> Fetched): Outcome {
    match browse(ResolveUrl(id, ongoing))
    case Thrown(failure) => Failure(failure, 500)
    case Rendered(doc) => ToOutcome(Evaluate(doc))
  }

  // ---------------------------------------------------------------------
  // Properties of the outcome.
  // ---------------------------------------------------------------------

  /** Without a statement root the result is a 404 failure, whatever the sample tests look like. */
  lemma MissingStatementFails(doc: Document)
    requires doc.statement.None?
    ensures ToOutcome(Evaluate(doc)) == Failure("Problem statement not found", 404)
  {
  }

  /** A first sample test with more than two children fails the whole page, whatever the fields hold. */
  lemma DeprecatedLayoutFails(doc: Document)
    requires doc.statement.Some? && doc.sampleTests.Some?
    requires IsDeprecatedLayout(doc.sampleTests.value)
    ensures ToOutcome(Evaluate(doc)) == Failure("Depricated/Not Found", 404)
  {
  }

  /** The page fails exactly on a missing statement root or on the deprecated layout. */
  lemma FailsExactlyOnRecognisedErrors(doc: Document)
    ensures ToOutcome(Evaluate(doc)).Failure? <==>
            doc.statement.None? || (doc.sampleTests.Some? && IsDeprecatedLayout(doc.sampleTests.value))
  {
  }

  /** A page without a sample-tests region succeeds with no tests. */
  lemma NoSampleTestsSucceeds(doc: Document)
    requires doc.statement.Some? && doc.sampleTests.None?
    ensures ToOutcome(Evaluate(doc)).Success?
    ensures ToOutcome(Evaluate(doc)).status == 200
    ensures ToOutcome(Evaluate(doc)).details.tests == []
  {
  }

  /** On success the tests are those the pairer computes from the region. */
  lemma SuccessCarriesPairedTests(doc: Document)
    requires doc.statement.Some? && doc.sampleTests.Some? && !IsDeprecatedLayout(doc.sampleTests.value)
    ensures ToOutcome(Evaluate(doc)) == Success(ExtractDetails(doc.statement.value, PairedTests(doc.sampleTests.value)), 200)
  {
  }

  /**
   * A limit text is read after its fixed-length label, trimmed; an empty
   * remainder gives the placeholder.
   */
  lemma LimitAfterLabel(caption: string, value: string, placeholder: string)
    ensures LimitText(Some(caption + value), |caption|, placeholder) ==
            if Trim(value) == "" then placeholder else Trim(value)
  {
    assert Drop(caption + value, |caption|) == value;
  }

  /**
   * The cut lengths are the label lengths: a time limit "time limit per test" + v
   * and a memory limit "memory limit per test" + w read as v and w trimmed,
   * or as their placeholders when nothing but white space follows the label.
   */
  lemma LimitsAfterLabels(st: Statement, tests: seq<SampleTest>, v: string, w: string)
    requires st.timeLimit == Some(TimeLabel + v) && st.memoryLimit == Some(MemoryLabel + w)
    ensures ExtractDetails(st, tests).timeLimit == if Trim(v) == "" then TimePlaceholder else Trim(v)
    ensures ExtractDetails(st, tests).memoryLimit == if Trim(w) == "" then MemoryPlaceholder else Trim(w)
  {
    LimitAfterLabel(TimeLabel, v, TimePlaceholder);
    LimitAfterLabel(MemoryLabel, w, MemoryPlaceholder);
  }

  /** A limit element shorter than its label, or none at all, gives the placeholder. */
  lemma LimitTooShort(text: Option<string>, labelLength: nat, placeholder: string)
    requires text.None? || |text.value| <= labelLength
    ensures LimitText(text, labelLength, placeholder) == placeholder
  {
  }

  /** Every outcome of the scraper has status 200, 404 or 500; a thrown error is always a 500 failure. */
  lemma ScrapeStatus(id: string, ongoing: bool, browse: string -> Fetched)
    ensures Scrape(id, ongoing, browse).status in {200, 404, 500}
    ensures Scrape(id, ongoing, browse).Success? <==> Scrape(id, ongoing, browse).status == 200
    ensures browse(ResolveUrl(id, ongoing)).Thrown? ==>
              Scrape(id, ongoing, browse) == Failure(browse(ResolveUrl(id, ongoing)).failure, 500)
  {
  }

  /** Two line elements of one nonzero index are both kept, in document order. */
  lemma TwoLinesKept(cls: string, n: nat, first: string, second: string)
    requires LineIndex(cls) == Some(n) && n != 0
    requires Trimmed(first) && Trimmed(second)
    ensures InputLines([[LineElement(cls, first), LineElement(cls, second)]]) == [InputLine(n, first), InputLine(n, second)]
  {
    var a, b := LineElement(cls, first), LineElement(cls, second);
    TrimProperties(first);
    TrimProperties(second);
    assert LineOf(a) == [InputLine(n, first)];
    assert LineOf(b) == [InputLine(n, second)];
    assert [a, b][..1] == [a];
    assert [a][..0] == [];
    assert BlockLines([a]) == BlockLines([]) + LineOf(a) == [InputLine(n, first)];
    assert BlockLines([a, b]) == BlockLines([a]) + LineOf(b);
    assert [[a, b]][..0] == [];
  }

  /** Two lines of one index form a single group holding both, in order. */
  lemma OneGroupOfTwo(n: nat, first: string, second: string)
    ensures var lines := [InputLine(n, first), InputLine(n, second)];
            GroupOrder(lines) == [n] && GroupLines(lines, n) == [first, second]
  {
    var lines := [InputLine(n, first), InputLine(n, second)];
    assert lines[..1] == [InputLine(n, first)];
    assert [InputLine(n, first)][..0] == [];
    assert GroupOrder([InputLine(n, first)]) == [n];
    assert GroupLines([InputLine(n, first)], n) == GroupLines([], n) + [first] == [first];
  }

  /**
   * One group of two input lines and one output block: the test's input is
   * the two trimmed lines joined by "\n" and its output the trimmed block
   * (for example "3" and "1 2 3" with output "6" give ("3\n1 2 3", "6")).
   */
  lemma OneTestTwoLines(cls: string, n: nat, first: string, second: string, out: string)
    requires LineIndex(cls) == Some(n) && n != 0
    requires Trimmed(first) && Trimmed(second) && Trimmed(out) && out != "" && '\n' !in out
    ensures var region := SampleTestsRegion(Some(2), [[LineElement(cls, first), LineElement(cls, second)]], [out]);
            PairedTests(region) == [SampleTest(first + "\n" + second, out)]
  {
    TwoLinesKept(cls, n, first, second);
    OneGroupOfTwo(n, first, second);
    assert Join([first, second]) == first + "\n" + second;
    SplitSingle(out);
    assert [out][..0] == [];
    assert OutputLines([out]) == [out];
    var lines := [InputLine(n, first), InputLine(n, second)];
    var groups := Groups(lines);
    assert |groups| == 1 && groups[0] == [first, second];
    var tests := Align(groups, [out]);
    assert |tests| == 1 && tests[0] == SampleTest(first + "\n" + second, out);
  }

  /**
   * The same example with the class string the site gives to both lines of
   * test 1: input lines "3" and "1 2 3" with output "6" give one test.
   */
  lemma SiteSampleExample()
    ensures PairedTests(SampleTestsRegion(Some(2), [[LineElement(SiteLineClass, "3"), LineElement(SiteLineClass, "1 2 3")]], ["6"]))
            == [SampleTest("3" + "\n" + "1 2 3", "6")]
  {
    SiteLineClassIndex();
    OneTestTwoLines(SiteLineClass, 1, "3", "1 2 3", "6");
  }
}
