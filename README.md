# Codeforces problem scraper — extraction core in Dafny

This project models the extraction core of a scraper that turns a
Codeforces problem page into a record: title, time and memory limit,
statement, input and output specification, and the sample tests as
(input, output) pairs. The model covers four parts of
`scraper/codeforces.ts`:

- **URL resolver.** A problem id such as `1950a` is split into the contest
  number `1950` and the letter, which is upper-cased to `A`. The page is
  `https://codeforces.com/problemset/problem/1950/A`, or
  `https://codeforces.com/contest/1950/problem/A` while the contest is
  ongoing.
- **Field extractor.** Everything is read inside the `.problem-statement`
  root, and the page fails when that root is missing. The time and memory
  limits drop a fixed 19- and 21-character label and are then trimmed. The
  description is the second child of the root. Every field except the title
  falls back to a "… not found" placeholder when it is missing or empty.
- **Sample-test pairer.** A first `.sample-test` with more than two
  children is a layout the scraper refuses. Otherwise:
  - input `div`s are grouped by the index N of their `test-example-line-N`
    class, in the order the groups are first met;
  - index 0 and classes without the pattern are skipped;
  - output blocks are trimmed, split on line feeds and concatenated;
  - the k-th group is paired with the k-th output line, and
    "Output not found" fills a missing or empty line.
- **Outcome mapping.** A page error becomes a 404 failure, a success carries
  status 200, and an exception from the browser becomes a 500 failure.

The rendered page is plain data (`Page.Document`). Each field stands for one
DOM query of the closure. The browser is a function parameter `browse` from
URL to either a rendered document or a thrown error (`Extraction.Scrape`).

Modules:
- `Text`: JavaScript's `trim`, `split("\n")`, `join("\n")`, `slice(n)`, ASCII
  `toUpperCase` and decimal digits.
- `Page`: the document data and the `/test-example-line-(\d+)/` match.
- `Url`: the URL resolver.
- `Pairing`: the pairer.
  - The specification functions are `InputLines`, `GroupOrder`,
    `GroupLines`, `OutputLines` and `Align`; together they make
    `PairedTests`.
  - The loops run as the source runs them: `GroupDiv`, `GroupBlock`,
    `GroupInputs`, `CollectOutputs` and `PairSampleTests`, over a local map
    and lists. Each is proved to compute its specification function.
- `Extraction`: the closure (`Evaluate`), the outcome mapping (`ToOutcome`)
  and the scraper (`Scrape`).

The model follows the code as written:
- Groups are iterated in the order they are first met (`Map` insertion
  order), not by ascending index.
- Output blocks are trimmed before they are split.
- An output line that is the empty string also gives "Output not found",
  not only a missing line.
- The title has no placeholder and may be absent.
- The error text is the code's literal "Depricated/Not Found".

## Model

| member | source | states |
|---|---|---|
| `Url.ParseResolvedUrl` | scraper/codeforces.ts:34-36 | For every id, reading a resolved URL back gives the contest number (the id without its last character), the upper-cased last character, and the mode (`ongoing` picks the contest form, otherwise the problem-set form). |
| `Url.ParseTail` | scraper/codeforces.ts:34-35 | What follows a base address splits into contest number, segment and a letter of at most one character. |
| `Url.ParseUrl` | scraper/codeforces.ts:34-36 | The reference reading of an address of either form, against which `ParseResolvedUrl` and `ResolveUrlInjective` are stated. |
| `Url.ResolveUrlInjective` | scraper/codeforces.ts:34-36 | Any two ids or modes that resolve to the same URL agree on mode, contest number and upper-cased letter. |
| `Url.IdSplitsIntoContestAndLetter` | scraper/codeforces.ts:34-35 | `id.slice(0,-1)` and `id.slice(-1)` together give back the id; the letter part has length 1, or 0 for the empty id. |
| `Url.ContestNumber` | scraper/codeforces.ts:34-35 | `id.slice(0, -1)`. Stated by `IdSplitsIntoContestAndLetter`. |
| `Url.ProblemLetter` | scraper/codeforces.ts:34-35 | `id.slice(-1)`. Stated by `IdSplitsIntoContestAndLetter`. |
| `Url.ResolveUrl` | scraper/codeforces.ts:34-36 | The URL starts with the contest base exactly when `ongoing` holds (both directions are in the contract), and otherwise with the problem-set base. |
| `Url.ResolveExample` | scraper/codeforces.ts:34-36 | Id "1950a" resolves to `…/problemset/problem/1950/A`, or to `…/contest/1950/problem/A` when ongoing. |
| `Text.ToUpper` | scraper/codeforces.ts:34 | Upper-casing keeps the length and maps each character on its own. ASCII lower-case letters become upper-case and nothing else changes. |
| `Text.Trim` | scraper/codeforces.ts:123 | Never longer than its input. Its full behaviour is stated by `TrimProperties` and `TrimRemovesPadding`. |
| `Text.TrimProperties` | scraper/codeforces.ts:123 | Trimming leaves no white space at either end. The result is empty exactly when the text is all white space. A text without padding is returned unchanged. |
| `Text.TrimRemovesPadding` | scraper/codeforces.ts:134 | Trimming white-space padding around a trimmed text gives that text back. Together with `TrimProperties`, this pins trim down completely. |
| `Text.JoinSplit` | scraper/codeforces.ts:134 | Joining with "\n" the pieces of `split("\n")` gives back the text, so splitting loses nothing. |
| `Text.SplitJoin` | scraper/codeforces.ts:143 | Splitting on "\n" a non-empty list of lines joined with "\n" gives back the lines, when no line holds a line feed. |
| `Text.Join` | scraper/codeforces.ts:143 | `join("\n")`. Stated by `JoinSplit` and `SplitJoin`, which make it the inverse of `Split`. |
| `Text.Split` | scraper/codeforces.ts:134 | `split("\n")` yields at least one piece, and no piece holds a line feed. |
| `Text.Drop` | scraper/codeforces.ts:153 | `slice(n)` keeps the characters from position n on, and gives the empty string past the end. |
| `Text.DigitRun` | scraper/codeforces.ts:117 | The greedy `\d+`: the longest prefix made only of decimal digits. |
| `Text.DecimalValueOfDecimal` | scraper/codeforces.ts:120 | Parsing the decimal rendering of n in base 10 gives n back. |
| `Text.DecimalValue` | scraper/codeforces.ts:120 | `parseInt(_, 10)` on a digit string. Stated by `DecimalValueOfDecimal` and `LineIndexOfLineClass`. |
| `Page.FirstMatch` | scraper/codeforces.ts:117 | The regex search finds the leftmost position where `test-example-line-` is followed by a digit. No position before it matches, and None means that no position matches. |
| `Page.MatchesAt` | scraper/codeforces.ts:117 | The pattern at one position: `test-example-line-` followed by a digit. Stated by `FirstMatch` and `SiteHeadNoMatch`. |
| `Page.IsDeprecatedLayout` | scraper/codeforces.ts:97-98 | A first `.sample-test` with more than two children. Stated by `DeprecatedLayoutFails` and `FailsExactlyOnRecognisedErrors`. |
| `Page.LineIndex` | scraper/codeforces.ts:117-120 | The regex match and `parseInt` of its digits. Stated by `FirstMatch`, `LineIndexOfLineClass` and `SiteLineClassIndex`. |
| `Page.LineIndexOfLineClass` | scraper/codeforces.ts:117-120 | The class `test-example-line-<n>` carries index n. |
| `Page.SiteLineClassIndex` | scraper/codeforces.ts:117-120 | The site's class string `test-example-line test-example-line-1 test-example-line-odd` carries index 1. |
| `Page.SiteHeadNoMatch` | scraper/codeforces.ts:117 | No match starts inside the plain first class `test-example-line ` of the site's class string, whatever follows it. |
| `Pairing.TestIndex` | scraper/codeforces.ts:117-121 | A line element gives a test index exactly when its class matches and the parsed index is not 0. |
| `Pairing.InputLines` | scraper/codeforces.ts:112-123 | Every kept input line has a nonzero index. Its set of indices is stated by `InputKeys`, and each line's origin and trimmed text by `InputLinesFrom`. The order (blocks, then elements, in document order) is that of the definition. |
| `Pairing.InputLinesFrom` | scraper/codeforces.ts:112-123 | Every kept line is the trimmed text of some line element of some input block, under that element's nonzero test index, so no kept text has white space at either end. |
| `Pairing.BlockLinesFrom` | scraper/codeforces.ts:115-123 | Every kept line of one block is the trimmed text of one of its elements, under that element's test index. |
| `Pairing.BlockLines` | scraper/codeforces.ts:115-128 | The kept lines of one input block, each with a nonzero index. Stated further by `BlockKeys` and `BlockLinesFrom`. |
| `Pairing.LineOf` | scraper/codeforces.ts:117-127 | One element's contribution: its trimmed text under its test index, or nothing. Stated by `TestIndex`, `BlockKeys` and `BlockLinesFrom`. |
| `Pairing.GroupOrder` | scraper/codeforces.ts:124-126 | The map's keys in insertion order. Stated by `GroupOrderMembers`, `GroupOrderDistinct` and `GroupOrderFirstOccurrence`. |
| `Pairing.GroupLines` | scraper/codeforces.ts:124-127 | The texts pushed under one key, in document order. Stated by `GroupLinesEmpty` and `TestInputs`. |
| `Pairing.PairedTests` | scraper/codeforces.ts:104-148 | The pairer's result. Stated by `TestCount`, `TestKeysAreSeenIndices`, `TestInputs` and `Align`, and computed by `PairSampleTests`. |
| `Pairing.OutputLines` | scraper/codeforces.ts:132-136 | No line of the flat output list holds a line feed. |
| `Pairing.Align` | scraper/codeforces.ts:138-147 | One test per group, in group order. The k-th input is the "\n"-join of the k-th group. The k-th output is the k-th output line when it exists and is non-empty, and "Output not found" otherwise. |
| `Pairing.ExpectedOutput` | scraper/codeforces.ts:141 | `outputArray[k]`, falling back to "Output not found" when that is missing or empty. Stated by the third and fourth ensures of `Align`. |
| `Pairing.GroupOrderMembers` | scraper/codeforces.ts:124-126 | An index is a map key exactly when some kept line carries it. |
| `Pairing.GroupOrderDistinct` | scraper/codeforces.ts:124-126 | No index is a key twice, so there is one group per index. |
| `Pairing.GroupOrderFirstOccurrence` | scraper/codeforces.ts:112-129 | Keys come in first-occurrence order: wherever the j-th key occurs, every earlier key has already occurred. |
| `Pairing.GroupLinesEmpty` | scraper/codeforces.ts:124-127 | An index has lines exactly when it is a key, so every group is non-empty. |
| `Pairing.BlockKeys` | scraper/codeforces.ts:115-121 | The kept lines of a block carry exactly the nonzero indices of its line elements. |
| `Pairing.InputKeys` | scraper/codeforces.ts:112-121 | The kept lines of all blocks carry exactly the nonzero indices of all line elements. |
| `Pairing.TestKeysAreSeenIndices` | scraper/codeforces.ts:117-126 | The tests are keyed by exactly the distinct nonzero indices seen in the document, and index 0 never becomes a test. |
| `Pairing.TestCount` | scraper/codeforces.ts:140-147 | The number of tests equals the number of distinct nonzero indices seen. |
| `Pairing.TestInputs` | scraper/codeforces.ts:143 | The k-th test's input is the "\n"-join of the trimmed lines of the k-th key, and there is at least one such line. |
| `Pairing.OneLineOutputs` | scraper/codeforces.ts:132-136 | When every trimmed output block is a single line, the flat output list is exactly the trimmed blocks, one per block in block order. |
| `Pairing.OutputLinesCount` | scraper/codeforces.ts:132-136 | Every output block yields at least one line, even an empty one. |
| `Pairing.PushKeepsGrouping` | scraper/codeforces.ts:124-127 | Creating a missing group and pushing a line onto it keeps the map in step with the lines seen: the keys are in insertion order and each group holds its lines. |
| `Pairing.Pushed` | scraper/codeforces.ts:124-127 | `set` of an empty list for a new key, then `push` of the text. Stated by `PushKeepsGrouping` and `CreateThenPushIsPushed`. |
| `Pairing.GroupDiv` | scraper/codeforces.ts:116-127 | One step of the inner loop keeps the map and key order in step with the lines seen plus this element's line, if it has one. |
| `Pairing.GroupBlock` | scraper/codeforces.ts:113-128 | The inner loop over one input block's `div`s leaves the map in step with all lines seen so far. |
| `Pairing.GroupInputs` | scraper/codeforces.ts:112-129 | The outer loop builds a map whose keys, in insertion order, are `GroupOrder` of all kept lines, each holding exactly that index's lines. |
| `Pairing.CollectOutputs` | scraper/codeforces.ts:132-136 | The output loop builds exactly the flat output line list. |
| `Pairing.PairSampleTests` | scraper/codeforces.ts:104-148 | The pairer's loops compute exactly `PairedTests`, which the lemmas above describe. |
| `Extraction.Message` | scraper/codeforces.ts:71 | Both error messages are non-empty, so `if (details.error)` always sees them. |
| `Extraction.OrElse` | scraper/codeforces.ts:82-91 | `v \|\| placeholder` gives a present non-empty text, and the placeholder otherwise. |
| `Extraction.LimitText` | scraper/codeforces.ts:152-157 | A present limit text, cut after the label length and trimmed, is the result when non-empty. Otherwise the result is the placeholder. |
| `Extraction.TitleText` | scraper/codeforces.ts:151 | The title is present exactly when the title element is, and it is then `trim` of the element's text. |
| `Extraction.ExtractDetails` | scraper/codeforces.ts:150-161 | The record carries the given tests and the trimmed title text. The time limit is the text after 19 characters, trimmed, when that is non-empty, and "Time limit not found" otherwise. The memory limit is likewise read after 21 characters, with "Memory limit not found". The description, input and output specification are the second child's, the input specification's and the output specification's HTML when non-empty. Otherwise they are "Description not found", "Input description not found" and "Output description not found". No field but the title is ever empty. |
| `Extraction.LimitsAfterLabels` | scraper/codeforces.ts:152-157 | The cut lengths 19 and 21 are the lengths of the labels "time limit per test" and "memory limit per test". A limit text that is a label followed by v reads as v trimmed, or as its placeholder when v is all white space. |
| `Extraction.Evaluate` | scraper/codeforces.ts:69-162 | The extraction closure. Stated by `MissingStatementFails`, `DeprecatedLayoutFails`, `FailsExactlyOnRecognisedErrors`, `NoSampleTestsSucceeds` and `SuccessCarriesPairedTests`. |
| `Extraction.Scrape` | scraper/codeforces.ts:28-187 | The whole scraper with the browser as a parameter. Stated by `ScrapeStatus`. |
| `Extraction.ToOutcome` | scraper/codeforces.ts:167-182 | The outcome is a success exactly when the closure returned details: status 200 with the same details. Otherwise it is a 404 failure carrying the closure's message. |
| `Extraction.MissingStatementFails` | scraper/codeforces.ts:69-72 | Without a statement root the outcome is `Failure("Problem statement not found", 404)`, whatever the sample tests look like. |
| `Extraction.DeprecatedLayoutFails` | scraper/codeforces.ts:97-102 | With a root present and a first sample test of more than two children, the outcome is `Failure("Depricated/Not Found", 404)`, whatever the fields hold. |
| `Extraction.FailsExactlyOnRecognisedErrors` | scraper/codeforces.ts:167-168 | The outcome is a failure exactly when the root is missing or the layout is deprecated. |
| `Extraction.NoSampleTestsSucceeds` | scraper/codeforces.ts:94-104 | A missing sample-tests region is no error: the outcome is a success with status 200 and no tests. |
| `Extraction.SuccessCarriesPairedTests` | scraper/codeforces.ts:171-182 | Otherwise the outcome is a success with status 200 whose tests are the pairer's result for the region. |
| `Extraction.LimitAfterLabel` | scraper/codeforces.ts:152-157 | A limit text is read after its fixed-length label and trimmed. An empty remainder gives the placeholder. |
| `Extraction.LimitTooShort` | scraper/codeforces.ts:152-157 | A missing limit element, or one no longer than its label, gives the placeholder. |
| `Extraction.ScrapeStatus` | scraper/codeforces.ts:183-186 | Every outcome has status 200, 404 or 500, and it is a success exactly when the status is 200. An error thrown by the browser is a 500 failure carrying its serialised form. |
| `Extraction.TwoLinesKept` | scraper/codeforces.ts:115-127 | Two trimmed line elements of the same nonzero index are kept in document order. |
| `Extraction.OneGroupOfTwo` | scraper/codeforces.ts:124-127 | Two lines of one index form a single group holding both, in order. |
| `Extraction.OneTestTwoLines` | scraper/codeforces.ts:112-147 | One group of two lines and one output block give a single test. Its input is the two lines joined by "\n" and its output is the block. |
| `Extraction.SiteSampleExample` | scraper/codeforces.ts:104-148 | With the site's class string on both lines, input lines "3" and "1 2 3" and output "6" give the single test ("3\n1 2 3", "6"). |

## Left out

- Browser plumbing: launching puppeteer, the page, the user-agent header,
  `goto`, `evaluate` and `browser.close`. The browser is the parameter
  `browse` of `Extraction.Scrape`. Resource release is not modelled.
- DOM and CSS selector semantics (`querySelector`, `children`, `innerHTML`,
  `textContent`). The page is given as the data the queries return. Nested
  `div`s inside an input `pre` are just part of that block's list.
- `wrapMathWithKatexDelimiters`. It re-parses HTML in the DOM and is never
  called: description and specification HTML are returned raw.
- `index.ts`: the Express route, CORS, JSON middleware, `listen` and the
  status dispatch of the HTTP layer.
- `console.log` and `console.error`.
- The 500 path serialises a thrown error with `JSON.stringify`. Here it is
  the opaque string the `browse` parameter returns. A throw inside the
  closure itself is not modelled, since the modelled closure cannot throw.
- `Text.ToUpper`: covers ASCII letters only. JavaScript's `toUpperCase` also
  maps other Unicode letters, some of them to more than one character.
- `Text.Drop`: counts Unicode code points, whereas JavaScript's `slice(19)`
  and `slice(21)` count UTF-16 code units. Texts with characters outside
  the Basic Multilingual Plane would differ.
- `Text.DecimalValue`: exact for every digit string, whereas `parseInt`
  loses precision above 2^53.
- `Url.ResolveUrl`: its own contract gives only the prefix that the mode
  selects. The full shape of the URL, for every id, is stated by
  `Url.ParseResolvedUrl`.
- `Url.ContestNumber` and `Url.ProblemLetter`: take the last Unicode code
  point, whereas `id.slice(0, -1)` and `id.slice(-1)` count UTF-16 code
  units. For an id whose last character lies outside the Basic Multilingual
  Plane, the source's letter is a lone low surrogate and its contest number
  ends in a lone high surrogate.
- The title is `textContent` of an element. A null `textContent`, which the
  optional chaining guards against, does not occur for elements, so it is
  not modelled. For the same reason `text || ""` on an input line is just
  the trimmed text.
