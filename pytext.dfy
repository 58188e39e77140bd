/**
 * The Python 2 `str` built-ins that the outline builders and the generator
 * rely on, written out over `seq<char>`: strip/lstrip, `split()`,
 * `splitlines()`, `StringIO.readlines()`, `startswith`/`endswith`, `int()`
 * of a decimal literal, `lower()` and `posixpath.join` of two components.
 */
module PyText {
  import opened Wrappers

  /** The characters for which a Python 2 byte string `isspace()`; also the `\s` class of `re` without flags. */
  const WHITESPACE: set<char> := {' ', '\t', '\n', '\r', '\U{B}', '\U{C}'}

  /** `s` with every leading character of `drop` removed (`s.lstrip(chars)`). */
  function LStrip(s: string, drop: set<char>): (r: string)
    ensures |r| <= |s| && r == s[|s| - |r|..]
    ensures r != [] ==> r[0] !in drop
    ensures forall i :: 0 <= i < |s| - |r| ==> s[i] in drop
    decreases |s|
  {
    if s != [] && s[0] in drop then LStrip(s[1..], drop) else s
  }

  /** `s` with every trailing character of `drop` removed (`s.rstrip(chars)`). */
  function RStrip(s: string, drop: set<char>): (r: string)
    ensures |r| <= |s| && r == s[..|r|]
    ensures r != [] ==> r[|r| - 1] !in drop
    ensures forall i :: |r| <= i < |s| ==> s[i] in drop
    decreases |s|
  {
    if s != [] && s[|s| - 1] in drop then RStrip(s[..|s| - 1], drop) else s
  }

  /** `s.strip()`: leading and trailing whitespace removed. */
  function Strip(s: string): (r: string)
    ensures r != [] ==> r[0] !in WHITESPACE && r[|r| - 1] !in WHITESPACE
  {
    RStrip(LStrip(s, WHITESPACE), WHITESPACE)
  }

  /** A text that neither starts nor ends with whitespace is its own strip. */
  lemma KeepsEnds(s: string)
    requires s != [] && s[0] !in WHITESPACE && s[|s| - 1] !in WHITESPACE
    ensures LStrip(s, WHITESPACE) == s && RStrip(s, WHITESPACE) == s && Strip(s) == s
  {
  }

  /** The set of characters of a `chars` argument. */
  function CharSet(chars: string): (r: set<char>)
    ensures forall c :: c in r <==> c in chars
  {
    set c | c in chars
  }

  /** The index of the first character of `s` that lies in `cs`, if any. */
  function FirstIn(s: string, cs: set<char>): (r: Option<nat>)
    ensures r.Some? ==> r.value < |s| && s[r.value] in cs && forall j :: 0 <= j < r.value ==> s[j] !in cs
    ensures r.None? ==> forall j :: 0 <= j < |s| ==> s[j] !in cs
    decreases |s|
  {
    if s == [] then None
    else if s[0] in cs then Some(0)
    else match FirstIn(s[1..], cs)
      case None => None
      case Some(i) => Some(i + 1)
  }

  /** The index of the first character of `s` that is NOT in `cs`, if any (`re.search('[^...]', s)`). */
  function FirstNotIn(s: string, cs: set<char>): (r: Option<nat>)
    ensures r.Some? ==> r.value < |s| && s[r.value] !in cs && forall j :: 0 <= j < r.value ==> s[j] in cs
    ensures r.None? ==> forall j :: 0 <= j < |s| ==> s[j] in cs
    decreases |s|
  {
    if s == [] then None
    else if s[0] !in cs then Some(0)
    else match FirstNotIn(s[1..], cs)
      case None => None
      case Some(i) => Some(i + 1)
  }

  predicate StartsWith(s: string, prefix: string) {
    |prefix| <= |s| && s[..|prefix|] == prefix
  }

  predicate EndsWith(s: string, suffix: string) {
    |suffix| <= |s| && s[|s| - |suffix|..] == suffix
  }

  /** A non-empty run of non-whitespace characters, as `split()` yields. */
  predicate IsWord(t: string) {
    t != [] && forall j :: 0 <= j < |t| ==> t[j] !in WHITESPACE
  }

  /** The length of the word at the start of `t`: up to its first whitespace character, or all of `t`. */
  function WordEnd(t: string): (n: nat)
    requires t != [] && t[0] !in WHITESPACE
    ensures 0 < n <= |t| && IsWord(t[..n])
    ensures n < |t| ==> t[n] in WHITESPACE
  {
    match FirstIn(t, WHITESPACE) case None => |t| case Some(i) => i
  }

  /** `s.split()`: the maximal runs of non-whitespace characters, in order. */
  function SplitWs(s: string): (r: seq<string>)
    ensures forall k :: 0 <= k < |r| ==> IsWord(r[k])
    decreases |s|
  {
    var t := LStrip(s, WHITESPACE);
    if t == [] then []
    else
      var n := WordEnd(t);
      var rest := SplitWs(t[n..]);
      assert forall k :: 0 < k <= |rest| ==> ([t[..n]] + rest)[k] == rest[k - 1];
      [t[..n]] + rest
  }

  /** `s.splitlines()` of a Python 2 byte string: lines end at "\n", "\r" or "\r\n", and the break is dropped. */
  function SplitLines(s: string): (r: seq<string>)
    ensures forall k :: 0 <= k < |r| ==> '\n' !in r[k] && '\r' !in r[k]
    decreases |s|
  {
    if s == [] then []
    else match FirstIn(s, {'\n', '\r'})
      case None => [s]
      case Some(i) =>
        var next := if s[i] == '\r' && i + 1 < |s| && s[i + 1] == '\n' then i + 2 else i + 1;
        [s[..i]] + SplitLines(s[next..])
  }

  /** A line of `splitlines()`: it holds no line break. */
  predicate NoBreak(a: string) {
    '\n' !in a && '\r' !in a
  }

  lemma FirstBreakAt(s: string, i: nat)
    requires i < |s| && (s[i] == '\n' || s[i] == '\r') && NoBreak(s[..i])
    ensures FirstIn(s, {'\n', '\r'}) == Some(i)
  {
    assert forall j :: 0 <= j < i ==> s[j] == s[..i][j];
  }

  /** A text without a break is one line, or no line when it is empty. */
  lemma SplitLinesOne(a: string)
    requires NoBreak(a)
    ensures SplitLines(a) == if a == [] then [] else [a]
  {
  }

  /** A "\n" ends the line before it; `splitlines()` goes on with the rest. */
  lemma SplitLinesNewline(a: string, b: string)
    requires NoBreak(a)
    ensures SplitLines(a + "\n" + b) == [a] + SplitLines(b)
  {
    var s := a + "\n" + b;
    assert s[..|a|] == a && s[|a|] == '\n' && s[|a| + 1..] == b;
    FirstBreakAt(s, |a|);
  }

  /** A "\r" not followed by "\n" ends the line before it too. */
  lemma SplitLinesReturn(a: string, b: string)
    requires NoBreak(a) && (b == [] || b[0] != '\n')
    ensures SplitLines(a + "\r" + b) == [a] + SplitLines(b)
  {
    var s := a + "\r" + b;
    assert s[..|a|] == a && s[|a|] == '\r' && s[|a| + 1..] == b;
    FirstBreakAt(s, |a|);
  }

  /** "\r\n" is one break, not two: no empty line appears between them. */
  lemma SplitLinesCrLf(a: string, b: string)
    requires NoBreak(a)
    ensures SplitLines(a + "\r\n" + b) == [a] + SplitLines(b)
  {
    var s := a + "\r\n" + b;
    assert s[..|a|] == a && s[|a|] == '\r' && s[|a| + 1] == '\n' && s[|a| + 2..] == b;
    FirstBreakAt(s, |a|);
  }

  /** The lines, each followed by "\n". */
  function Unlines(lines: seq<string>): string
    decreases |lines|
  {
    if lines == [] then [] else lines[0] + "\n" + Unlines(lines[1..])
  }

  /** `splitlines()` gives back, in order, the lines a text was written from. */
  lemma {:induction false} SplitUnlines(lines: seq<string>)
    requires forall k :: 0 <= k < |lines| ==> NoBreak(lines[k])
    ensures SplitLines(Unlines(lines)) == lines
    decreases |lines|
  {
    if lines != [] {
      SplitLinesNewline(lines[0], Unlines(lines[1..]));
      SplitUnlines(lines[1..]);
      assert lines == [lines[0]] + lines[1..];
    }
  }

  /** The concatenation of `lines`, in order. */
  function Concat(lines: seq<string>): string
    decreases |lines|
  {
    if lines == [] then [] else Concat(lines[..|lines| - 1]) + lines[|lines| - 1]
  }

  lemma {:induction false} ConcatCons(first: string, rest: seq<string>)
    ensures Concat([first] + rest) == first + Concat(rest)
    decreases |rest|
  {
    if rest == [] {
      assert [first] + rest == [first];
      assert Concat([first]) == Concat([]) + first;
    } else {
      var all := [first] + rest;
      var init := rest[..|rest| - 1];
      var last := rest[|rest| - 1];
      assert all[..|all| - 1] == [first] + init && all[|all| - 1] == last;
      ConcatCons(first, init);
      assert Concat(all) == (first + Concat(init)) + last;
      assert Concat(rest) == Concat(init) + last;
    }
  }

  /** The length of the first line of `s` with its "\n", or all of `s` when it holds no "\n". */
  function LineEnd(s: string): (n: nat)
    requires s != []
    ensures 0 < n <= |s|
    ensures forall j :: 0 <= j < n - 1 ==> s[j] != '\n'
    ensures n < |s| ==> s[n - 1] == '\n'
  {
    match FirstIn(s, {'\n'}) case None => |s| case Some(i) => i + 1
  }

  /** A non-empty line with no "\n" before its last character. */
  predicate IsLine(l: string) {
    l != [] && forall j :: 0 <= j < |l| - 1 ==> l[j] != '\n'
  }

  /** A line that ends in "\n". */
  predicate Terminated(l: string) {
    l != [] && l[|l| - 1] == '\n'
  }

  /**
   * `StringIO.StringIO(s).readlines()`: the lines of `s`, each keeping its
   * terminating "\n", which together spell `s` again.
   */
  function ReadLines(s: string): (r: seq<string>)
    ensures Concat(r) == s
    decreases |s|
  {
    if s == [] then []
    else
      var n := LineEnd(s);
      var rest := ReadLines(s[n..]);
      ConcatCons(s[..n], rest);
      assert s == s[..n] + s[n..];
      [s[..n]] + rest
  }

  /** Every line of `readlines()` is non-empty with "\n" only at its end, and every line but the last ends in "\n". */
  lemma {:induction false} ReadLinesShape(s: string)
    ensures var r := ReadLines(s);
      (r == [] <==> s == []) &&
      (forall k :: 0 <= k < |r| ==> IsLine(r[k])) &&
      (forall k :: 0 <= k < |r| - 1 ==> Terminated(r[k]))
    decreases |s|
  {
    if s != [] {
      var n := LineEnd(s);
      ReadLinesShape(s[n..]);
      var rest := ReadLines(s[n..]);
      assert ReadLines(s) == [s[..n]] + rest;
      HeadLine(s);
      ConsLines(s[..n], rest);
    }
  }

  lemma HeadLine(s: string)
    requires s != []
    ensures IsLine(s[..LineEnd(s)])
    ensures ReadLines(s[LineEnd(s)..]) != [] ==> Terminated(s[..LineEnd(s)])
  {
    var n := LineEnd(s);
    assert forall j :: 0 <= j < n - 1 ==> s[..n][j] == s[j];
  }

  lemma ConsLines(h: string, rest: seq<string>)
    requires IsLine(h) && (rest != [] ==> Terminated(h))
    requires forall k :: 0 <= k < |rest| ==> IsLine(rest[k])
    requires forall k :: 0 <= k < |rest| - 1 ==> Terminated(rest[k])
    ensures var r := [h] + rest;
      (forall k :: 0 <= k < |r| ==> IsLine(r[k])) && (forall k :: 0 <= k < |r| - 1 ==> Terminated(r[k]))
  {
    var r := [h] + rest;
    assert forall k :: 0 < k < |r| ==> r[k] == rest[k - 1];
  }

  predicate IsDigits(d: string) {
    d != [] && forall i :: 0 <= i < |d| ==> '0' <= d[i] <= '9'
  }

  /** The value of a string of decimal digits. */
  function DigitsValue(d: string): nat
    requires forall i :: 0 <= i < |d| ==> '0' <= d[i] <= '9'
    decreases |d|
  {
    if d == [] then 0 else DigitsValue(d[..|d| - 1]) * 10 + (d[|d| - 1] as int - '0' as int)
  }

  /** What follows a leading sign once the blanks after it are skipped. */
  function AfterSign(s: string): string
    requires s != []
  {
    LStrip(s[1..], WHITESPACE)
  }

  /**
   * Python 2's `int(s)` on an already stripped string: decimal digits, or a
   * sign, optional blanks and decimal digits (the sign is read first and the
   * digit scan then skips blanks); anything else is a ValueError (None).
   */
  function ParseInt(s: string): (r: Option<int>)
    ensures r.Some? <==> IsDigits(s) || (s != [] && (s[0] == '+' || s[0] == '-') && IsDigits(AfterSign(s)))
    ensures IsDigits(s) ==> r == Some(DigitsValue(s))
    ensures s != [] && s[0] == '+' && IsDigits(AfterSign(s)) ==> r == Some(DigitsValue(AfterSign(s)))
    ensures s != [] && s[0] == '-' && IsDigits(AfterSign(s)) ==> r == Some(0 - DigitsValue(AfterSign(s)))
  {
    if IsDigits(s) then Some(DigitsValue(s))
    else if s != [] && (s[0] == '+' || s[0] == '-') && IsDigits(AfterSign(s)) then
      var n := DigitsValue(AfterSign(s));
      Some(if s[0] == '-' then 0 - n else n)
    else None
  }

  /** The decimal digits of n, without leading zeros. */
  function NatDigits(n: nat): (d: string)
    ensures IsDigits(d) && DigitsValue(d) == n
    decreases n
  {
    var last := ('0' as int + n % 10) as char;
    if n < 10 then [last]
    else
      var init := NatDigits(n / 10);
      var d := init + [last];
      assert d[..|d| - 1] == init;
      d
  }

  /** `str(n)` of an int: its digits, after a '-' when it is negative. */
  function Decimal(n: int): string {
    if n < 0 then "-" + NatDigits(0 - n) else NatDigits(n)
  }

  /** `int(str(n)) == n`: every int's decimal form parses back to it. */
  lemma ParseDecimal(n: int)
    ensures ParseInt(Decimal(n)) == Some(n)
  {
    if n < 0 {
      var d := NatDigits(0 - n);
      var s := "-" + d;
      assert s[1..] == d;
      assert d[0] !in WHITESPACE;
      assert AfterSign(s) == d;
    }
  }

  /** `lstrip` removes exactly a leading run of dropped characters. */
  lemma {:induction false} LStripRun(blanks: string, rest: string, drop: set<char>)
    requires forall i :: 0 <= i < |blanks| ==> blanks[i] in drop
    requires rest == [] || rest[0] !in drop
    ensures LStrip(blanks + rest, drop) == rest
    decreases |blanks|
  {
    if blanks == [] {
      assert blanks + rest == rest;
    } else {
      assert (blanks + rest)[1..] == blanks[1..] + rest;
      LStripRun(blanks[1..], rest, drop);
    }
  }

  /** Blanks between the sign and the digits are allowed: `int("- 1") == -1`. */
  lemma SpaceAfterSign()
    ensures ParseInt("- 1") == Some(-1)
  {
    var s := "- 1";
    assert s[1..] == " " + "1";
    LStripRun(" ", "1", WHITESPACE);
    assert AfterSign(s) == "1";
    SignedParse(s);
    assert DigitsValue("1") == 1;
  }

  lemma SignedParse(s: string)
    requires s != [] && (s[0] == '+' || s[0] == '-') && IsDigits(AfterSign(s))
    ensures ParseInt(s) == Some(if s[0] == '-' then 0 - DigitsValue(AfterSign(s)) else DigitsValue(AfterSign(s)))
  {
  }

  /** ASCII `lower()` of one character: a capital A-Z becomes the small letter at the same place in the alphabet; any other character, non-ASCII capitals included, is kept. */
  function LowerChar(c: char): (d: char)
    ensures 'A' <= c <= 'Z' ==> 'a' <= d <= 'z' && d as int - 'a' as int == c as int - 'A' as int
    ensures !('A' <= c <= 'Z') ==> d == c
  {
    if 'A' <= c <= 'Z' then (c as int + 32) as char else c
  }

  /**
   * `s.lower()` restricted to ASCII: only A-Z change. The slug library returns
   * unicode, whose `lower()` also folds non-ASCII capitals; that folding is not modelled.
   */
  function Lower(s: string): (r: string)
    ensures |r| == |s|
    ensures forall i :: 0 <= i < |s| ==> !('A' <= r[i] <= 'Z')
    ensures forall i :: 0 <= i < |s| && !('A' <= s[i] <= 'Z') ==> r[i] == s[i]
  {
    seq(|s|, i requires 0 <= i < |s| => LowerChar(s[i]))
  }

  /** Each character of `s.lower()` is the lower-case form of the character at the same place. */
  lemma LowerChars(s: string)
    ensures forall i :: 0 <= i < |s| ==> Lower(s)[i] == LowerChar(s[i])
  {
  }

  /** `os.path.join(a, b)` on POSIX: an absolute `b` wins, otherwise a "/" is put between them unless `a` is empty or ends in one. */
  function Join(a: string, b: string): (r: string)
    ensures !StartsWith(b, "/") && a != [] && !EndsWith(a, "/") ==> r == a + "/" + b
    ensures EndsWith(r, b)
  {
    if StartsWith(b, "/") then b
    else if a == [] || EndsWith(a, "/") then a + b
    else a + "/" + b
  }

  /** `' ' * n`: n spaces, or the empty string when n is not positive. */
  function Spaces(n: int): (r: string)
    ensures |r| == (if n > 0 then n else 0)
    ensures forall i :: 0 <= i < |r| ==> r[i] == ' '
  {
    if n > 0 then seq(n, _ => ' ') else []
  }
}
