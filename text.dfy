/** The option type used wherever the page may lack an element or a value. */
module Wrappers {
  datatype Option<+T> = None | Some(value: T)
}

/**
 * The JavaScript string operations the scraper relies on, written out:
 * `trim`, `split("\n")`, `join("\n")`, `slice(n)`, `toUpperCase` on one
 * letter, and the decimal digits that `parseInt(_, 10)` reads.
 */
module Text {

  /** WhiteSpace and LineTerminator code points, as `String.prototype.trim` removes them. */
  predicate IsSpace(c: char) {
    || c == ' ' || c == '\t' || c == '\n' || c == '\r'
    || c == '\U{0B}' || c == '\U{0C}' || c == '\U{A0}' || c == '\U{1680}'
    || ('\U{2000}' <= c <= '\U{200A}')
    || c == '\U{2028}' || c == '\U{2029}' || c == '\U{202F}' || c == '\U{205F}'
    || c == '\U{3000}' || c == '\U{FEFF}'
  }

  predicate AllSpace(s: string) {
    forall i :: 0 <= i < |s| ==> IsSpace(s[i])
  }

  /** `s` has no white space at either end. */
  predicate Trimmed(s: string) {
    s == [] || (!IsSpace(s[0]) && !IsSpace(s[|s| - 1]))
  }

  function TrimStart(s: string): (r: string)
    ensures |r| <= |s| && r == s[|s| - |r|..]
    ensures r == [] || !IsSpace(r[0])
    ensures forall i :: 0 <= i < |s| - |r| ==> IsSpace(s[i])
  {
    if |s| > 0 && IsSpace(s[0]) then TrimStart(s[1..]) else s
  }

  function TrimEnd(s: string): (r: string)
    ensures |r| <= |s| && r == s[..|r|]
    ensures r == [] || !IsSpace(r[|r| - 1])
    ensures forall i :: |r| <= i < |s| ==> IsSpace(s[i])
  {
    if |s| > 0 && IsSpace(s[|s| - 1]) then TrimEnd(s[..|s| - 1]) else s
  }

  /** `String.prototype.trim`. */
  function Trim(s: string): (r: string)
    ensures |r| <= |s|
  {
    TrimEnd(TrimStart(s))
  }

  /**
   * What trim promises: no white space is left at either end, the result
   * is empty exactly when the text is all white space, and a text already
   * without padding is returned unchanged.
   */
  lemma TrimProperties(s: string)
    ensures Trimmed(Trim(s))
    ensures Trim(s) == [] <==> AllSpace(s)
    ensures Trimmed(s) ==> Trim(s) == s
  {
    TrimEmptyIffAllSpace(s);
  }

  lemma TrimEmptyIffAllSpace(s: string)
    ensures TrimEnd(TrimStart(s)) == [] <==> AllSpace(s)
  {
    var t := TrimStart(s);
    var r := TrimEnd(t);
    if AllSpace(s) && s != [] {
      assert IsSpace(s[0]);
    }
  }

  /**
   * Trim is characterised by the decomposition it undoes: padding a trimmed
   * text with white space on both sides and trimming gives the text back.
   */
  lemma {:induction false} TrimRemovesPadding(lead: string, m: string, trail: string)
    requires AllSpace(lead) && AllSpace(trail) && Trimmed(m)
    ensures Trim(lead + m + trail) == m
  {
    if m == [] {
      assert lead + m + trail == lead + trail;
      AllSpaceConcat(lead, trail);
      TrimEmptyIffAllSpace(lead + trail);
    } else {
      assert lead + m + trail == lead + (m + trail);
      TrimStartOfPadded(lead, m + trail);
      TrimEndOfPadded(m, trail);
    }
  }

  lemma AllSpaceConcat(a: string, b: string)
    requires AllSpace(a) && AllSpace(b)
    ensures AllSpace(a + b)
  {
    forall i | 0 <= i < |a + b| ensures IsSpace((a + b)[i]) {
      if i < |a| { assert (a + b)[i] == a[i]; } else { assert (a + b)[i] == b[i - |a|]; }
    }
  }

  lemma {:induction false} TrimStartOfPadded(lead: string, t: string)
    requires AllSpace(lead) && t != [] && !IsSpace(t[0])
    ensures TrimStart(lead + t) == t
  {
    if lead != [] {
      assert (lead + t)[1..] == lead[1..] + t;
      TrimStartOfPadded(lead[1..], t);
    }
  }

  lemma {:induction false} TrimEndOfPadded(t: string, trail: string)
    requires AllSpace(trail) && t != [] && !IsSpace(t[|t| - 1])
    ensures TrimEnd(t + trail) == t
  {
    if trail != [] {
      assert (t + trail)[..|t + trail| - 1] == t + trail[..|trail| - 1];
      TrimEndOfPadded(t, trail[..|trail| - 1]);
    } else {
      assert t + trail == t;
    }
  }

  /** `s.slice(n)` for a non-negative `n`: everything from position `n` on, or "" past the end. */
  function Drop(s: string, n: nat): (r: string)
    ensures |r| == if n <= |s| then |s| - n else 0
    ensures forall i :: 0 <= i < |r| ==> r[i] == s[n + i]
  {
    if n <= |s| then s[n..] else ""
  }

  /** `toUpperCase` on ASCII letters; every other character is kept. */
  function UpperChar(c: char): (u: char)
    ensures 'a' <= c <= 'z' ==> 'A' <= u <= 'Z' && u as int - c as int == 'A' as int - 'a' as int
    ensures !('a' <= c <= 'z') ==> u == c
  {
    if 'a' <= c <= 'z' then (c as int - 'a' as int + 'A' as int) as char else c
  }

  function ToUpper(s: string): (r: string)
    ensures |r| == |s|
    ensures forall i :: 0 <= i < |s| ==> r[i] == UpperChar(s[i])
  {
    seq(|s|, i requires 0 <= i < |s| => UpperChar(s[i]))
  }

  /** `s.split("\n")`: the pieces between line feeds; "" splits into [""]. */
  function Split(s: string): (r: seq<string>)
    ensures |r| >= 1
    ensures forall i :: 0 <= i < |r| ==> '\n' !in r[i]
  {
    if |s| == 0 then [""]
    else
      var rest := Split(s[1..]);
      if s[0] == '\n' then [""] + rest else [[s[0]] + rest[0]] + rest[1..]
  }

  /** `lines.join("\n")`. */
  function Join(lines: seq<string>): string {
    if |lines| == 0 then ""
    else if |lines| == 1 then lines[0]
    else lines[0] + "\n" + Join(lines[1..])
  }

  /** Joining what was split gives back the text: splitting loses nothing. */
  lemma {:induction false} JoinSplit(s: string)
    ensures Join(Split(s)) == s
  {
    if |s| > 0 {
      var rest := Split(s[1..]);
      JoinSplit(s[1..]);
      if s[0] == '\n' {
        assert Split(s) == [""] + rest;
        assert ([""] + rest)[1..] == rest;
      } else {
        var r := [[s[0]] + rest[0]] + rest[1..];
        assert Split(s) == r;
        if |rest| == 1 {
          assert Join(r) == [s[0]] + rest[0];
        } else {
          assert r[1..] == rest[1..];
          assert Join(r) == [s[0]] + rest[0] + "\n" + Join(rest[1..]);
        }
        assert s == [s[0]] + s[1..];
      }
    }
  }

  /** Splitting what was joined gives back the lines, when no line holds a line feed. */
  lemma {:induction false} SplitJoin(lines: seq<string>)
    requires |lines| >= 1
    requires forall i :: 0 <= i < |lines| ==> '\n' !in lines[i]
    ensures Split(Join(lines)) == lines
  {
    if |lines| == 1 {
      SplitSingle(lines[0]);
    } else {
      SplitJoin(lines[1..]);
      SplitAfterLine(lines[0], Join(lines[1..]));
      assert [lines[0]] + lines[1..] == lines;
    }
  }

  lemma {:induction false} SplitSingle(a: string)
    requires '\n' !in a
    ensures Split(a) == [a]
  {
    if a != [] {
      SplitSingle(a[1..]);
      assert [a[0]] + a[1..] == a;
    }
  }

  lemma {:induction false} SplitAfterLine(a: string, t: string)
    requires '\n' !in a
    ensures Split(a + "\n" + t) == [a] + Split(t)
  {
    var s := a + "\n" + t;
    if a == [] {
      assert s == "\n" + t && s[1..] == t;
    } else {
      assert s[1..] == a[1..] + "\n" + t;
      SplitAfterLine(a[1..], t);
      assert [a[0]] + a[1..] == a;
    }
  }

  predicate IsDigit(c: char) {
    '0' <= c <= '9'
  }

  predicate AllDigits(s: string) {
    forall i :: 0 <= i < |s| ==> IsDigit(s[i])
  }

  /** The longest run of decimal digits at the start of `s`, as the greedy `\d+` takes it. */
  function DigitRun(s: string): (r: string)
    ensures |r| <= |s| && r == s[..|r|]
    ensures AllDigits(r)
    ensures |r| == |s| || !IsDigit(s[|r|])
  {
    if |s| > 0 && IsDigit(s[0]) then [s[0]] + DigitRun(s[1..]) else ""
  }

  /** The number a string of decimal digits denotes (`parseInt(ds, 10)`). */
  function DecimalValue(ds: string): nat
    requires AllDigits(ds)
  {
    if |ds| == 0 then 0
    else 10 * DecimalValue(ds[..|ds| - 1]) + (ds[|ds| - 1] as int - '0' as int)
  }

  /** The decimal rendering of `n`, without leading zeros. */
  function Decimal(n: nat): (r: string)
    ensures |r| >= 1 && AllDigits(r)
    ensures n > 0 ==> r[0] != '0'
  {
    var d := ((n % 10) + '0' as int) as char;
    if n < 10 then [d] else Decimal(n / 10) + [d]
  }

  /** Reading back a rendered number gives the number. */
  lemma {:induction false} DecimalValueOfDecimal(n: nat)
    ensures DecimalValue(Decimal(n)) == n
  {
    var r := Decimal(n);
    assert r[..|r| - 1] == if n < 10 then "" else Decimal(n / 10);
    if n >= 10 {
      DecimalValueOfDecimal(n / 10);
    }
  }
}
