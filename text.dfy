/** The pieces of Python's string handling the loader relies on:
    `str.split()`, `str.split('/')`, `" ".join`, `int()`, `str.lower()`
    and the POSIX `os.path` helpers. */
module PyText {
  import opened Wrappers

  /** The characters `str.split()` with no argument treats as white space. */
  predicate IsSpace(c: char) {
    var n := c as int;
    (9 <= n <= 13) || (0x1C <= n <= 0x20) || n == 0x85 || n == 0xA0 || n == 0x1680
    || (0x2000 <= n <= 0x200A) || n == 0x2028 || n == 0x2029 || n == 0x202F
    || n == 0x205F || n == 0x3000
  }

  /** A token produced by `str.split()`: non-empty, no white space. */
  predicate IsWord(t: string) {
    |t| > 0 && forall i :: 0 <= i < |t| ==> !IsSpace(t[i])
  }

  /** Length of the run of non-space characters at the start of `s`. */
  function WordLen(s: string): (n: nat)
    requires |s| > 0 && !IsSpace(s[0])
    ensures 0 < n <= |s|
    ensures forall i :: 0 <= i < n ==> !IsSpace(s[i])
    ensures n < |s| ==> IsSpace(s[n])
  {
    if |s| == 1 || IsSpace(s[1]) then 1 else 1 + WordLen(s[1..])
  }

  /** `s.split()`: the maximal runs of non-space characters, in order. */
  function Split(s: string): (ws: seq<string>)
    ensures forall i :: 0 <= i < |ws| ==> IsWord(ws[i])
    decreases |s|
  {
    if s == [] then []
    else if IsSpace(s[0]) then Split(s[1..])
    else
      var n := WordLen(s);
      [s[..n]] + Split(s[n..])
  }

  /** `sep.join(ws)`. */
  function Join(ws: seq<string>, sep: string): string {
    if ws == [] then ""
    else if |ws| == 1 then ws[0]
    else ws[0] + sep + Join(ws[1..], sep)
  }

  lemma {:induction false} WordLenOfWord(w: string, rest: string)
    requires IsWord(w)
    requires rest == [] || IsSpace(rest[0])
    ensures WordLen(w + rest) == |w|
    decreases |w|
  {
    var s := w + rest;
    if |w| == 1 {
      assert |s| == 1 || s[1] == rest[0];
    } else {
      assert s[1] == w[1];
      assert s[1..] == w[1..] + rest;
      WordLenOfWord(w[1..], rest);
    }
  }

  lemma SplitSkipsSpace(s: string)
    requires |s| > 0 && IsSpace(s[0])
    ensures Split(s) == Split(s[1..])
  {
  }

  /** A word followed by white space (or by nothing) splits off first. */
  lemma SplitWordFirst(w: string, rest: string)
    requires IsWord(w)
    requires rest == [] || IsSpace(rest[0])
    ensures Split(w + rest) == [w] + Split(rest)
  {
    var s := w + rest;
    WordLenOfWord(w, rest);
    assert s[..|w|] == w;
    assert s[|w|..] == rest;
  }

  /** Splitting words joined by single spaces gives the words back. */
  lemma {:induction false} SplitJoin(ws: seq<string>)
    requires forall i :: 0 <= i < |ws| ==> IsWord(ws[i])
    ensures Split(Join(ws, " ")) == ws
  {
    if ws == [] {
    } else if |ws| == 1 {
      SplitWordFirst(ws[0], "");
      assert ws[0] + "" == ws[0];
    } else {
      var rest := " " + Join(ws[1..], " ");
      assert Join(ws, " ") == ws[0] + rest;
      SplitWordFirst(ws[0], rest);
      SplitSkipsSpace(rest);
      assert rest[1..] == Join(ws[1..], " ");
      SplitJoin(ws[1..]);
      assert ws == [ws[0]] + ws[1..];
    }
  }

  /** `s.split(sep)` for a one-character separator: the pieces between
      separators, empty pieces included; never an empty list. */
  function SplitOn(s: string, sep: char): (parts: seq<string>)
    ensures |parts| >= 1
    ensures forall i :: 0 <= i < |parts| ==> sep !in parts[i]
  {
    if s == [] then [""]
    else
      var rest := SplitOn(s[1..], sep);
      if s[0] == sep then [""] + rest
      else [[s[0]] + rest[0]] + rest[1..]
  }

  /** Number of occurrences of `c` in `s`. */
  function Occurrences(s: string, c: char): nat {
    if s == [] then 0 else (if s[0] == c then 1 else 0) + Occurrences(s[1..], c)
  }

  /** `s.split(sep)` has one more piece than `s` has separators, and joining
      the pieces with the separator restores `s`. */
  lemma {:induction false} SplitOnJoin(s: string, sep: char)
    ensures |SplitOn(s, sep)| == Occurrences(s, sep) + 1
    ensures Join(SplitOn(s, sep), [sep]) == s
  {
    if s != [] {
      var rest := SplitOn(s[1..], sep);
      SplitOnJoin(s[1..], sep);
      if s[0] == sep {
        assert s == [sep] + s[1..];
      } else {
        if |rest| == 1 {
          assert Join(SplitOn(s, sep), [sep]) == [s[0]] + rest[0];
        } else {
          assert Join(rest, [sep]) == rest[0] + [sep] + Join(rest[1..], [sep]);
          assert Join(SplitOn(s, sep), [sep]) == [s[0]] + rest[0] + [sep] + Join(rest[1..], [sep]);
        }
        assert s == [s[0]] + s[1..];
      }
    }
  }

  predicate IsDigit(c: char) { '0' <= c <= '9' }

  /** The digit string `int()` accepts after an optional sign: ASCII digits,
      with single underscores allowed between two digits. */
  predicate IsDigitGroup(s: string) {
    && |s| > 0 && IsDigit(s[0]) && IsDigit(s[|s| - 1])
    && (forall i :: 0 <= i < |s| ==> IsDigit(s[i]) || s[i] == '_')
    && (forall i :: 0 <= i < |s| - 1 ==> s[i] == '_' ==> s[i + 1] != '_')
  }

  /** Value of a digit string, underscores skipped. */
  function DigitsValue(s: string): nat
    requires forall i :: 0 <= i < |s| ==> IsDigit(s[i]) || s[i] == '_'
  {
    if s == [] then 0
    else
      var last := s[|s| - 1];
      if last == '_' then DigitsValue(s[..|s| - 1])
      else 10 * DigitsValue(s[..|s| - 1]) + DigitOf(last)
  }

  function DigitOf(c: char): (d: nat)
    requires IsDigit(c)
    ensures d < 10
  {
    c as int - '0' as int
  }

  /** `int(s)` in base 10 on a string without surrounding white space;
      `None` where Python raises ValueError. */
  function ParseInt(s: string): Option<int> {
    if |s| > 0 && (s[0] == '+' || s[0] == '-') then
      if IsDigitGroup(s[1..]) then
        var v: int := DigitsValue(s[1..]);
        Some(if s[0] == '-' then -v else v)
      else None
    else if IsDigitGroup(s) then Some(DigitsValue(s))
    else None
  }

  /** `str(n)` for a natural number. */
  function Decimal(n: nat): (s: string)
    ensures |s| > 0 && forall i :: 0 <= i < |s| ==> IsDigit(s[i])
  {
    if n < 10 then [('0' as int + n) as char]
    else Decimal(n / 10) + [('0' as int + n % 10) as char]
  }

  lemma {:induction false} DecimalValue(n: nat)
    ensures DigitsValue(Decimal(n)) == n
  {
    if n >= 10 {
      var s := Decimal(n);
      assert s[..|s| - 1] == Decimal(n / 10);
      DecimalValue(n / 10);
    }
  }

  /** `int()` reads back what `str()` writes, with or without a minus sign. */
  lemma DecimalRoundTrip(n: nat)
    ensures ParseInt(Decimal(n)) == Some(n)
    ensures ParseInt("-" + Decimal(n)) == Some(-(n as int))
  {
    DecimalValue(n);
    var s := Decimal(n);
    assert ("-" + s)[1..] == s;
  }

  /** A string holding a character that is neither a digit, an underscore
      nor a leading sign is rejected by `int()`. */
  lemma ParseIntRejectsStray(s: string, i: nat)
    requires i < |s| && !IsDigit(s[i]) && s[i] != '_'
    requires i == 0 ==> s[0] != '+' && s[0] != '-'
    ensures ParseInt(s) == None
  {
    if i > 0 && (s[0] == '+' || s[0] == '-') {
      assert s[1..][i - 1] == s[i];
    }
  }

  function LowerChar(c: char): char {
    if 'A' <= c <= 'Z' then (c as int + 32) as char else c
  }

  /** `s.lower()` on ASCII letters. */
  function Lower(s: string): (r: string)
    ensures |r| == |s|
    ensures forall i :: 0 <= i < |s| ==> r[i] == LowerChar(s[i])
  {
    seq(|s|, i requires 0 <= i < |s| => LowerChar(s[i]))
  }

  /** POSIX `os.path.join(a, b)`: an absolute `b` replaces `a`; otherwise
      `a` and `b` with one `/` between them, unless `a` is empty or already
      ends with one. */
  function PathJoin(a: string, b: string): (p: string)
    ensures |b| > 0 && b[0] == '/' ==> p == b
    ensures !(|b| > 0 && b[0] == '/') ==>
      && |a| + |b| <= |p| <= |a| + |b| + 1
      && p[..|a|] == a && p[|p| - |b|..] == b
      && (|p| == |a| + |b| <==> a == [] || a[|a| - 1] == '/')
      && (|p| == |a| + |b| + 1 ==> p[|a|] == '/')
  {
    if |b| > 0 && b[0] == '/' then b
    else if a == [] || a[|a| - 1] == '/' then a + b
    else a + "/" + b
  }

  /** Index just past the last '/' of `p`, 0 when there is none. */
  function AfterLastSlash(p: string): (i: nat)
    ensures i <= |p|
    ensures i > 0 ==> p[i - 1] == '/'
    ensures forall j :: i <= j < |p| ==> p[j] != '/'
  {
    if p == [] then 0
    else if p[|p| - 1] == '/' then |p|
    else AfterLastSlash(p[..|p| - 1])
  }

  function StripTrailingSlashes(s: string): (r: string)
    ensures |r| <= |s| && r == s[..|r|]
    ensures r == [] || r[|r| - 1] != '/'
    ensures forall j :: |r| <= j < |s| ==> s[j] == '/'
  {
    if s != [] && s[|s| - 1] == '/' then StripTrailingSlashes(s[..|s| - 1]) else s
  }

  /** POSIX `os.path.split(p)[0]`: the directory part, trailing slashes
      removed unless it consists of slashes only. */
  function PathHead(p: string): (h: string)
    ensures |h| <= |p| && h == p[..|h|]
    // what follows the head is slashes, then a name without slashes
    ensures forall j, k :: |h| <= j < k < |p| && p[j] != '/' ==> p[k] != '/'
    // the head ends with `/` only when it is all slashes
    ensures h != [] && h[|h| - 1] == '/' ==> forall j :: 0 <= j < |h| ==> h[j] == '/'
    // a head holding a name stops before a `/` of the path
    ensures (exists j :: 0 <= j < |h| && h[j] != '/') ==> exists j :: |h| <= j < |p| && p[j] == '/'
  {
    var i := AfterLastSlash(p);
    var head := p[..i];
    if head != [] && (exists j :: 0 <= j < |head| && head[j] != '/') then
      var h := StripTrailingSlashes(head);
      assert forall j :: |h| <= j < i ==> p[j] == '/' by {
        assert forall j :: |h| <= j < i ==> head[j] == p[j];
      }
      assert h != [] ==> |h| < i by {
        if h != [] { assert h[|h| - 1] == head[|h| - 1]; }
      }
      h
    else
      head
  }

  /** Splitting off the directory of a file joined onto a directory gives
      that directory back: how a model's directory is recovered from its
      path and then used to find its material libraries and textures. */
  lemma PathHeadJoin(d: string, f: string)
    requires d != [] && d[|d| - 1] != '/' && '/' !in f
    ensures PathHead(PathJoin(d, f)) == d
  {
    var p := PathJoin(d, f);
    assert p == d + "/" + f;
    var i := AfterLastSlash(p);
    assert p[|d|] == '/';
    assert i == |d| + 1 by {
      if i <= |d| { assert false; }
      if i > |d| + 1 { assert false; }
    }
    var head := p[..i];
    assert head == d + "/";
    assert head[|d| - 1] != '/';
    var h := StripTrailingSlashes(head);
    assert |h| == |d| by {
      if |h| == |d| + 1 { assert false; }
      if |h| < |d| { assert false; }
    }
  }
}
