/**
 * The URL resolver: a problem id such as "1950a" names contest "1950" and
 * problem letter "A"; the page lives at the problem-set address, or at the
 * contest address while the contest is ongoing.
 */
module Url {
  import opened Wrappers
  import opened Text

  const ProblemSetBase := "https://codeforces.com/problemset/problem/"
  const ContestBase := "https://codeforces.com/contest/"
  const ContestProblemSegment := "/problem/"

  /** `id.slice(0, -1)`: all but the last character ("" for ""). */
  function ContestNumber(id: string): string {
    if |id| == 0 then "" else id[..|id| - 1]
  }

  /** `id.slice(-1)`: the last character ("" for ""). */
  function ProblemLetter(id: string): string {
    if |id| == 0 then "" else [id[|id| - 1]]
  }

  /** The id is cut into contest number and letter with nothing lost. */
  lemma IdSplitsIntoContestAndLetter(id: string)
    ensures ContestNumber(id) + ProblemLetter(id) == id
    ensures |ProblemLetter(id)| == if |id| == 0 then 0 else 1
  {
    if |id| > 0 {
      assert id[..|id| - 1] + [id[|id| - 1]] == id;
    }
  }

  /** The page address for problem `id`; `ongoing` chooses the contest form. */
  function ResolveUrl(id: string, ongoing: bool): (url: string)
    ensures ContestBase <= url <==> ongoing
    ensures !ongoing ==> ProblemSetBase <= url
  {
    var letter := ToUpper(ProblemLetter(id));
    if ongoing then ContestBase + ContestNumber(id) + ContestProblemSegment + letter
    else
      var rest := ContestNumber(id) + "/" + letter;
      NotContestForm(rest);
      assert ProblemSetBase + ContestNumber(id) + "/" + letter == ProblemSetBase + rest;
      ProblemSetBase + ContestNumber(id) + "/" + letter
  }

  /** What an address produced by ResolveUrl names. */
  datatype ProblemRef = ProblemRef(contest: string, letter: string, ongoing: bool)

  /**
   * Reads what follows a base address: the contest number, then `segment`,
   * then the letter. The letter is the last character; it is absent only
   * for the empty id, whose address ends right after the segment.
   */
  function ParseTail(rest: string, segment: string, ongoing: bool): (r: Option<ProblemRef>)
    ensures r.Some? ==> |r.value.letter| <= 1 && r.value.ongoing == ongoing
    ensures r.Some? ==> rest == r.value.contest + segment + r.value.letter
  {
    if rest == segment then Some(ProblemRef("", "", ongoing))
    else if |rest| > |segment| && rest[|rest| - 1 - |segment|..|rest| - 1] == segment then
      Some(ProblemRef(rest[..|rest| - 1 - |segment|], [rest[|rest| - 1]], ongoing))
    else None
  }

  /** Reads an address of either form back into what it names; the reference inverse of ResolveUrl. */
  function ParseUrl(url: string): Option<ProblemRef> {
    if ContestBase <= url then ParseTail(url[|ContestBase|..], ContestProblemSegment, true)
    else if ProblemSetBase <= url then ParseTail(url[|ProblemSetBase|..], "/", false)
    else None
  }

  /** The tail of a resolved address reads back as the contest number and letter it was built from. */
  lemma ParseTailOf(c: string, segment: string, letter: string, ongoing: bool)
    requires |letter| <= 1 && (letter == "" ==> c == "")
    ensures ParseTail(c + segment + letter, segment, ongoing) == Some(ProblemRef(c, letter, ongoing))
  {
    var rest := c + segment + letter;
    if letter == "" {
      assert rest == segment;
    } else {
      assert |rest| - 1 - |segment| == |c|;
      assert rest[|c|..|rest| - 1] == segment;
      assert rest[..|c|] == c;
      assert [rest[|rest| - 1]] == letter;
      if rest == segment {
        assert false;
      }
    }
  }

  /** A contest-form address reads back as what it was built from. */
  lemma ParseContestUrl(c: string, letter: string)
    requires |letter| <= 1 && (letter == "" ==> c == "")
    ensures ParseUrl(ContestBase + c + ContestProblemSegment + letter) == Some(ProblemRef(c, letter, true))
  {
    var url := ContestBase + c + ContestProblemSegment + letter;
    var rest := c + ContestProblemSegment + letter;
    assert url == ContestBase + rest;
    assert url[|ContestBase|..] == rest;
    ParseTailOf(c, ContestProblemSegment, letter, true);
  }

  /** A problem-set-form address reads back as what it was built from. */
  lemma ParseProblemSetUrl(c: string, letter: string)
    requires |letter| <= 1 && (letter == "" ==> c == "")
    ensures ParseUrl(ProblemSetBase + c + "/" + letter) == Some(ProblemRef(c, letter, false))
  {
    var url := ProblemSetBase + c + "/" + letter;
    var rest := c + "/" + letter;
    assert url == ProblemSetBase + rest;
    NotContestForm(rest);
    assert url[|ProblemSetBase|..] == rest;
    ParseTailOf(c, "/", letter, false);
  }

  /** The two bases part at character 23 ("contest" against "problemset"), so no problem-set address has the contest form. */
  lemma NotContestForm(rest: string)
    ensures !(ContestBase <= ProblemSetBase + rest)
  {
    var url := ProblemSetBase + rest;
    assert url[23] == 'p';
    assert ContestBase[23] == 'c';
  }

  /** Resolving and reading back recovers the mode, the contest number and the upper-cased letter of any id. */
  lemma ParseResolvedUrl(id: string, ongoing: bool)
    ensures ParseUrl(ResolveUrl(id, ongoing)) == Some(ProblemRef(ContestNumber(id), ToUpper(ProblemLetter(id)), ongoing))
  {
    IdSplitsIntoContestAndLetter(id);
    var c, letter := ContestNumber(id), ToUpper(ProblemLetter(id));
    if ongoing {
      ParseContestUrl(c, letter);
    } else {
      ParseProblemSetUrl(c, letter);
    }
  }

  /** Distinct problems (or modes) never share an address. */
  lemma ResolveUrlInjective(id1: string, ongoing1: bool, id2: string, ongoing2: bool)
    requires ResolveUrl(id1, ongoing1) == ResolveUrl(id2, ongoing2)
    ensures ongoing1 == ongoing2
    ensures ContestNumber(id1) == ContestNumber(id2)
    ensures ToUpper(ProblemLetter(id1)) == ToUpper(ProblemLetter(id2))
  {
    ParseResolvedUrl(id1, ongoing1);
    ParseResolvedUrl(id2, ongoing2);
  }

  /** A worked example: id "1950a" in both modes. */
  lemma ResolveExample()
    ensures ResolveUrl("1950a", false) == "https://codeforces.com/problemset/problem/1950/A"
    ensures ResolveUrl("1950a", true) == "https://codeforces.com/contest/1950/problem/A"
  {
  }
}
