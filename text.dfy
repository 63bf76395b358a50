/** Characters and strings as the source's regular expressions and string
    methods see them: character classes, strip, split, join, padding,
    decimal formatting and the splitting of a text file into lines. */
module Text {
  import opened Wrappers

  /** `\w` on a `str` pattern: the underscore and the characters
      `str.isalnum` accepts. The ASCII letters and digits are all here; of
      the rest of Unicode, only the ranges of `LowWords` and `HighWords`,
      each of which `str.isalnum` accepts throughout. Other alphanumeric
      code points, such as U+0491, U+067E and U+1EBF, are not. */
  predicate IsWord(c: char) {
    ('a' <= c <= 'z') || ('A' <= c <= 'Z') || ('0' <= c <= '9') || c == '_'
    || (c as int <= 0x96F && InRanges(c as int, LowWords, 0))
    || InRanges(c as int, HighWords, 0)
  }

  /** Alphanumeric code points from U+00AA to U+096F, as inclusive ranges in
      increasing order: the Latin-1 letters, superscript digits and
      fractions; Latin Extended-A and -B and the IPA letters (U+00F8 to
      U+02AF); the Greek letters from U+0386 to U+03CE; Cyrillic from U+0400
      to U+0481; the Hebrew letters; the Arabic letters from U+0620 to U+064A
      and the Arabic-Indic digits; the Devanagari letters from U+0905 to
      U+0939 and the Devanagari digits. */
  const LowWords: seq<(int, int)> := [
    (0xAA, 0xAA), (0xB2, 0xB3), (0xB5, 0xB5), (0xB9, 0xBA), (0xBC, 0xBE),
    (0xC0, 0xD6), (0xD8, 0xF6), (0xF8, 0x2AF),
    (0x386, 0x386), (0x388, 0x38A), (0x38C, 0x38C), (0x38E, 0x3A1), (0x3A3, 0x3CE),
    (0x400, 0x481), (0x5D0, 0x5EA), (0x620, 0x64A), (0x660, 0x669),
    (0x905, 0x939), (0x966, 0x96F)]

  /** Alphanumeric code points from U+3041 on, in increasing order:
      Hiragana, Katakana, the CJK unified ideographs from U+4E00 to U+9FEF
      and the Hangul syllables. */
  const HighWords: seq<(int, int)> := [
    (0x3041, 0x3096), (0x30A1, 0x30FA), (0x4E00, 0x9FEF), (0xAC00, 0xD7A3)]

  /** `n` lies in one of the ranges from the `i`-th on, the ranges being in
      increasing order: the search gives up at the first range that starts
      after `n`. */
  predicate InRanges(n: int, rs: seq<(int, int)>, i: nat)
    decreases |rs| - i
  {
    i < |rs| && rs[i].0 <= n && (n <= rs[i].1 || InRanges(n, rs, i + 1))
  }

  /** A word character is not whitespace. */
  lemma WordNotSpace(c: char)
    requires IsWord(c)
    ensures !IsSpace(c)
  {
  }

  /** `\d` (ASCII). */
  predicate IsDigit(c: char) {
    '0' <= c <= '9'
  }

  /** `\s` and `str.isspace`: the whitespace code points of Unicode. */
  predicate IsSpace(c: char) {
    var n := c as int;
    (9 <= n <= 13) || (28 <= n <= 32) || n == 0x85 || n == 0xA0 || n == 0x1680
    || (0x2000 <= n <= 0x200A) || n == 0x2028 || n == 0x2029 || n == 0x202F
    || n == 0x205F || n == 0x3000
  }

  predicate AllSpaces(s: string) {
    forall k :: 0 <= k < |s| ==> s[k] == ' '
  }

  function Spaces(n: nat): (r: string)
    ensures |r| == n && AllSpaces(r)
  {
    seq(n, _ => ' ')
  }

  /** A string of spaces is the string of that many spaces. */
  lemma SpacesOf(s: string)
    requires AllSpaces(s)
    ensures s == Spaces(|s|)
  {
    var w := Spaces(|s|);
    assert forall k :: 0 <= k < |s| ==> s[k] == w[k];
  }

  /** First index at or after `i` that is not whitespace. */
  function SkipSpaces(s: string, i: nat): (r: nat)
    requires i <= |s|
    ensures i <= r <= |s|
    ensures r < |s| ==> !IsSpace(s[r])
    decreases |s| - i
  {
    if i < |s| && IsSpace(s[i]) then SkipSpaces(s, i + 1) else i
  }

  /** What `SkipSpaces` passes over is whitespace. */
  lemma {:induction false} SkipSpacesSpaces(s: string, i: nat)
    requires i <= |s|
    ensures forall k :: i <= k < SkipSpaces(s, i) ==> IsSpace(s[k])
    decreases |s| - i
  {
    if i < |s| && IsSpace(s[i]) {
      SkipSpacesSpaces(s, i + 1);
    }
  }

  /** One past the last index before `j` that is not whitespace. */
  function TrimEnd(s: string, j: nat): (r: nat)
    requires j <= |s|
    ensures r <= j
    ensures r > 0 ==> !IsSpace(s[r - 1])
  {
    if j > 0 && IsSpace(s[j - 1]) then TrimEnd(s, j - 1) else j
  }

  /** What `TrimEnd` cuts off is whitespace. */
  lemma {:induction false} TrimEndSpaces(s: string, j: nat)
    requires j <= |s|
    ensures forall k :: TrimEnd(s, j) <= k < j ==> IsSpace(s[k])
  {
    if j > 0 && IsSpace(s[j - 1]) {
      TrimEndSpaces(s, j - 1);
    }
  }

  /** `str.strip()`. */
  function Strip(s: string): (r: string)
  {
    var a := SkipSpaces(s, 0);
    var b := TrimEnd(s, |s|);
    if a < b then s[a..b] else ""
  }

  /** Stripping removes exactly the surrounding whitespace. */
  lemma StripSurrounded(w1: string, y: string, w2: string)
    requires forall k :: 0 <= k < |w1| ==> IsSpace(w1[k])
    requires forall k :: 0 <= k < |w2| ==> IsSpace(w2[k])
    requires |y| > 0 && !IsSpace(y[0]) && !IsSpace(y[|y| - 1])
    ensures Strip(w1 + y + w2) == y
  {
    var s := w1 + y + w2;
    SkipSpacesTo(s, 0, |w1|);
    TrimEndTo(s, |s|, |w1| + |y|);
    assert s[|w1|..|w1| + |y|] == y;
  }

  /** SkipSpaces stops at the first non-whitespace character. */
  lemma {:induction false} SkipSpacesTo(s: string, i: nat, j: nat)
    requires i <= j <= |s|
    requires forall k :: i <= k < j ==> IsSpace(s[k])
    requires j < |s| ==> !IsSpace(s[j])
    ensures SkipSpaces(s, i) == j
    decreases j - i
  {
    if i < j {
      SkipSpacesTo(s, i + 1, j);
    }
  }

  lemma {:induction false} TrimEndTo(s: string, j: nat, i: nat)
    requires i <= j <= |s|
    requires forall k :: i <= k < j ==> IsSpace(s[k])
    requires i > 0 && !IsSpace(s[i - 1])
    ensures TrimEnd(s, j) == i
    decreases j
  {
    if i < j {
      TrimEndTo(s, j - 1, i);
    }
  }

  /** `sep` occurs in `s` at index `k`. */
  predicate OccursAt(s: string, sep: string, k: nat) {
    k + |sep| <= |s| && s[k..k + |sep|] == sep
  }

  /** First index at or after `i` where `sep` occurs in `s`. */
  function Find(s: string, sep: string, i: nat): (r: Option<nat>)
    requires i <= |s| && |sep| > 0
    ensures r.Some? ==> i <= r.value && r.value + |sep| <= |s|
    decreases |s| - i
  {
    if i + |sep| > |s| then None
    else if s[i..i + |sep|] == sep then Some(i)
    else Find(s, sep, i + 1)
  }

  /** `Find` gives the first occurrence at or after `i`. */
  lemma {:induction false} FindFirst(s: string, sep: string, i: nat, j: nat)
    requires i <= j && |sep| > 0 && OccursAt(s, sep, j)
    requires forall k :: i <= k < j ==> !OccursAt(s, sep, k)
    ensures Find(s, sep, i) == Some(j)
    decreases j - i
  {
    if i < j {
      assert !OccursAt(s, sep, i);
      FindFirst(s, sep, i + 1, j);
    }
  }

  /** `Find` gives nothing when `sep` does not occur at or after `i`. */
  lemma {:induction false} FindNone(s: string, sep: string, i: nat)
    requires i <= |s| && |sep| > 0
    requires forall k :: i <= k ==> !OccursAt(s, sep, k)
    ensures Find(s, sep, i).None?
    decreases |s| - i
  {
    if i + |sep| <= |s| {
      assert !OccursAt(s, sep, i);
      FindNone(s, sep, i + 1);
    }
  }

  /** `s.split(sep)` for a non-empty separator. */
  function Split(s: string, sep: string): (r: seq<string>)
    requires |sep| > 0
    ensures |r| > 0
    decreases |s|
  {
    match Find(s, sep, 0)
    case None => [s]
    case Some(i) => [s[..i]] + Split(s[i + |sep|..], sep)
  }

  /** `sep.join(parts)`. */
  function Join(parts: seq<string>, sep: string): string
  {
    if |parts| == 0 then ""
    else if |parts| == 1 then parts[0]
    else parts[0] + sep + Join(parts[1..], sep)
  }

  predicate NoChar(s: string, c: char) {
    forall k :: 0 <= k < |s| ==> s[k] != c
  }

  /** Splitting a comma-joined list gives the parts back when no part holds a comma. */
  lemma {:induction false} SplitJoin(parts: seq<string>)
    requires |parts| > 0
    requires forall p :: p in parts ==> NoChar(p, ',')
    ensures Split(Join(parts, ", "), ", ") == parts
  {
    if |parts| > 1 {
      var p := parts[0];
      var rest := Join(parts[1..], ", ");
      var s := p + ", " + rest;
      assert s[|p|..|p| + 2] == ", ";
      assert p in parts;
      forall k | 0 <= k < |p|
        ensures !OccursAt(s, ", ", k)
      {
        assert p[k] != ',';
        assert s[k..k + 2][0] == s[k] == p[k];
      }
      assert OccursAt(s, ", ", |p|);
      FindFirst(s, ", ", 0, |p|);
      assert s[|p| + 2..] == rest;
      assert s[..|p|] == p;
      assert Join(parts, ", ") == s;
      SplitJoin(parts[1..]);
      assert Split(s, ", ") == [p] + Split(rest, ", ");
      assert [p] + parts[1..] == parts;
    } else {
      var p := parts[0];
      assert p in parts;
      forall k | 0 <= k
        ensures !OccursAt(p, ", ", k)
      {
        if k + 2 <= |p| {
          assert p[k..k + 2][0] == p[k] != ',';
        }
      }
      FindNone(p, ", ", 0);
    }
  }

  /** `'{:<w}'.format(s)`: left-aligned, padded with spaces to width `w`. */
  function PadRight(s: string, w: nat): (r: string)
    ensures r == s + Spaces(if |s| < w then w - |s| else 0)
  {
    if |s| < w then s + Spaces(w - |s|) else s
  }

  /** `'{:^w}'.format(s)`: centred, the odd space going to the right. */
  function Center(s: string, w: nat): (r: string)
    ensures |s| < w ==> r == Spaces((w - |s|) / 2) + s + Spaces(w - |s| - (w - |s|) / 2)
    ensures |s| >= w ==> r == s
  {
    if |s| < w then
      var pad := w - |s|;
      Spaces(pad / 2) + s + Spaces(pad - pad / 2)
    else s
  }

  function Repeat(c: char, n: nat): (r: string)
    ensures |r| == n && forall k :: 0 <= k < n ==> r[k] == c
  {
    seq(n, _ => c)
  }

  function DigitChar(d: nat): char
    requires d < 10
  {
    ('0' as int + d) as char
  }

  function DigitValue(c: char): nat
    requires IsDigit(c)
  {
    (c as int - '0' as int) as nat
  }

  lemma DigitRoundTrip(d: nat)
    requires d < 10
    ensures IsDigit(DigitChar(d)) && DigitValue(DigitChar(d)) == d
  {
  }

  predicate AllDigits(s: string) {
    forall k :: 0 <= k < |s| ==> IsDigit(s[k])
  }

  /** Decimal representation of a natural number, without leading zeros. */
  function Digits(n: nat): (r: string)
    ensures |r| > 0 && AllDigits(r)
  {
    if n < 10 then [DigitChar(n)] else Digits(n / 10) + [DigitChar(n % 10)]
  }

  /** Value of a string of decimal digits. */
  function DecimalValue(ds: string): nat
    requires AllDigits(ds)
  {
    if |ds| == 0 then 0 else DecimalValue(ds[..|ds| - 1]) * 10 + DigitValue(ds[|ds| - 1])
  }

  /** Reading the digits back gives the number. */
  lemma {:induction false} DigitsValue(n: nat)
    ensures DecimalValue(Digits(n)) == n
  {
    if n >= 10 {
      DigitsValue(n / 10);
      var r := Digits(n);
      assert r[..|r| - 1] == Digits(n / 10);
      DigitRoundTrip(n % 10);
    } else {
      DigitRoundTrip(n);
    }
  }

  /** `'{:02.0f}'.format(n)` for a whole number `n`: at least two characters,
      zero-padded after the sign. */
  function Fmt02(n: int): (r: string)
  {
    if n < 0 then "-" + Digits(-n)
    else if n < 10 then "0" + Digits(n)
    else Digits(n)
  }

  /** Below one hundred, Fmt02 gives exactly the two decimal digits. */
  lemma Fmt02TwoDigits(n: int)
    requires 0 <= n < 100
    ensures Fmt02(n) == [DigitChar(n / 10), DigitChar(n % 10)]
  {
    if n >= 10 {
      assert Digits(n / 10) == [DigitChar(n / 10)];
    }
  }

  lemma TwoDigitValue(n: nat)
    requires n < 100
    ensures var ds := [DigitChar(n / 10), DigitChar(n % 10)];
            IsDigit(ds[0]) && IsDigit(ds[1]) && DecimalValue(ds) == n
  {
    var ds := [DigitChar(n / 10), DigitChar(n % 10)];
    DigitRoundTrip(n / 10);
    DigitRoundTrip(n % 10);
    assert ds[..1] == [DigitChar(n / 10)];
    assert ds[..1][..0] == [];
    assert DecimalValue(ds[..1]) == n / 10;
    assert DecimalValue(ds) == DecimalValue(ds[..1]) * 10 + n % 10;
  }

  /** The lines of a text file as Python iterates them: each line keeps its
      terminating newline; a final line without one is kept as it is. */
  function FileLines(text: string): seq<string>
    decreases |text|
  {
    if |text| == 0 then []
    else match Find(text, "\n", 0)
      case None => [text]
      case Some(i) => [text[..i + 1]] + FileLines(text[i + 1..])
  }

  function Terminated(lines: seq<string>): (r: seq<string>)
    ensures |r| == |lines|
    ensures forall k :: 0 <= k < |lines| ==> r[k] == lines[k] + "\n"
  {
    if |lines| == 0 then [] else [lines[0] + "\n"] + Terminated(lines[1..])
  }

  /** Joining newline-free lines and a final empty line with newlines, then
      reading the text back line by line, gives every line but the last one
      with its newline. */
  lemma {:induction false} FileLinesOfJoin(body: seq<string>)
    requires forall x :: x in body ==> NoChar(x, '\n')
    ensures FileLines(Join(body + [""], "\n")) == Terminated(body)
  {
    if |body| > 0 {
      var x := body[0];
      assert (body + [""])[1..] == body[1..] + [""];
      var rest := Join(body[1..] + [""], "\n");
      var text := x + "\n" + rest;
      assert Join(body + [""], "\n") == text;
      assert text[|x|..|x| + 1] == "\n";
      assert x in body;
      forall k | 0 <= k < |x|
        ensures !OccursAt(text, "\n", k)
      {
        assert x[k] != '\n';
        assert text[k..k + 1][0] == text[k] == x[k];
      }
      assert OccursAt(text, "\n", |x|);
      FindFirst(text, "\n", 0, |x|);
      assert text[..|x| + 1] == x + "\n";
      assert text[|x| + 1..] == rest;
      FileLinesOfJoin(body[1..]);
    }
  }
}
