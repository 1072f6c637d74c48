/** String helpers that stand for the JavaScript string methods the core uses:
    `trim`, `startsWith`, `endsWith`, `includes`, `split`, `toLowerCase`,
    `toUpperCase`, `Number.prototype.toString` and `padStart(2, '0')`, plus a
    decoder for the clock strings the pages print. Case mapping covers ASCII letters. */
module Text {
  import opened Wrappers

  // ---------------------------------------------------------------- whitespace

  /** The WhiteSpace and LineTerminator code points of ECMAScript, which `trim` removes. */
  predicate IsWhitespace(c: char) {
    || c in {'\t', '\n', '\U{000B}', '\U{000C}', '\r', ' ', '\U{00A0}', '\U{1680}',
             '\U{2028}', '\U{2029}', '\U{202F}', '\U{205F}', '\U{3000}', '\U{FEFF}'}
    || ('\U{2000}' <= c <= '\U{200A}')
  }

  predicate IsBlank(s: string) {
    forall i :: 0 <= i < |s| ==> IsWhitespace(s[i])
  }

  /** Leading whitespace removed: what is left is a suffix that starts with a non-blank. */
  function TrimStart(s: string): (r: string)
    ensures |r| <= |s| && r == s[|s| - |r|..]
    ensures r == "" || !IsWhitespace(r[0])
    ensures IsBlank(s[..|s| - |r|])
  {
    if s != [] && IsWhitespace(s[0]) then
      var t := s[1..];
      var r := TrimStart(t);
      assert t[|t| - |r|..] == s[|s| - |r|..];
      assert IsBlank(s[..|s| - |r|]) by {
        var p, q := s[..|s| - |r|], t[..|t| - |r|];
        forall i | 0 <= i < |p| ensures IsWhitespace(p[i]) {
          if i > 0 {
            assert p[i] == q[i - 1];
          }
        }
      }
      r
    else s
  }

  /** Trailing whitespace removed: what is left is a prefix that ends with a non-blank. */
  function TrimEnd(s: string): (r: string)
    ensures |r| <= |s| && r == s[..|r|]
    ensures r == "" || !IsWhitespace(r[|r| - 1])
    ensures IsBlank(s[|r|..])
  {
    if s != [] && IsWhitespace(s[|s| - 1]) then
      var r := TrimEnd(s[..|s| - 1]);
      assert s[|r|..] == s[..|s| - 1][|r|..] + [s[|s| - 1]];
      r
    else s
  }

  /** `String.prototype.trim`. */
  function Trim(s: string): string {
    TrimEnd(TrimStart(s))
  }

  /** `!s.trim()` in the source: the trimmed text is empty exactly when every character is blank. */
  lemma TrimEmptyIffBlank(s: string)
    ensures Trim(s) == "" <==> IsBlank(s)
  {
    var t := TrimStart(s);
    if Trim(s) == "" {
      assert IsBlank(t[0..]);
      assert t == "";
      assert s == s[..|s|];
    }
  }

  /** `!s.trim()` evaluated by a handler: true exactly when every character is blank. */
  method TrimsToEmpty(s: string) returns (r: bool)
    ensures r <==> IsBlank(s)
  {
    TrimEmptyIffBlank(s);
    r := Trim(s) == "";
  }

  /** A string that neither starts nor ends with whitespace is its own trim. */
  lemma TrimKeepsEnds(s: string)
    requires s != [] && !IsWhitespace(s[0]) && !IsWhitespace(s[|s| - 1])
    ensures Trim(s) == s
  {
    assert TrimStart(s) == s;
  }

  // ---------------------------------------------------------------- searching

  predicate StartsWith(s: string, prefix: string) {
    |prefix| <= |s| && s[..|prefix|] == prefix
  }

  predicate EndsWith(s: string, suffix: string) {
    |suffix| <= |s| && s[|s| - |suffix|..] == suffix
  }

  /** `p` occurs in `s` at position `j`. */
  predicate MatchAt(s: string, p: string, j: nat) {
    j + |p| <= |s| && s[j..j + |p|] == p
  }

  /** The first occurrence of `p` in `s` at or after position `k`. */
  function IndexFrom(s: string, p: string, k: nat): (r: Option<nat>)
    requires k <= |s|
    ensures r.Some? ==> k <= r.value && MatchAt(s, p, r.value)
    ensures r.Some? ==> forall j :: k <= j < r.value ==> !MatchAt(s, p, j)
    ensures r.None? ==> forall j :: k <= j <= |s| ==> !MatchAt(s, p, j)
    decreases |s| - k
  {
    if MatchAt(s, p, k) then Some(k)
    else if k == |s| then None
    else IndexFrom(s, p, k + 1)
  }

  /** `s.indexOf(p)`, with `None` for -1: the first position where `p` occurs. */
  function IndexOf(s: string, p: string): (r: Option<nat>)
    ensures r.Some? ==> MatchAt(s, p, r.value) && forall j :: 0 <= j < r.value ==> !MatchAt(s, p, j)
    ensures r.None? ==> forall j :: 0 <= j <= |s| ==> !MatchAt(s, p, j)
  {
    IndexFrom(s, p, 0)
  }

  /** `s.includes(p)`. */
  predicate Contains(s: string, p: string) {
    IndexOf(s, p).Some?
  }

  lemma ContainsAt(s: string, p: string, j: nat)
    requires MatchAt(s, p, j)
    ensures Contains(s, p)
  {
  }

  /** `s.split(sep)` for a non-empty separator: the pieces between successive
      non-overlapping occurrences, scanning from the left. */
  function Split(s: string, sep: string): (r: seq<string>)
    requires |sep| > 0
    ensures |r| >= 1
    decreases |s|
  {
    match IndexOf(s, sep)
    case None => [s]
    case Some(i) => [s[..i]] + Split(s[i + |sep|..], sep)
  }

  /** `parts.join(sep)`. */
  function Join(parts: seq<string>, sep: string): string
    requires |parts| >= 1
  {
    if |parts| == 1 then parts[0] else parts[0] + sep + Join(parts[1..], sep)
  }

  predicate NoChar(s: string, c: char) {
    forall i :: 0 <= i < |s| ==> s[i] != c
  }

  lemma IndexOfAbsentChar(s: string, c: char)
    requires NoChar(s, c)
    ensures IndexOf(s, [c]).None?
  {
    forall j: nat | j < |s| ensures !MatchAt(s, [c], j) {
      assert s[j..j + 1] == [s[j]];
    }
  }

  lemma IndexOfFirstChar(a: string, c: char, rest: string)
    requires NoChar(a, c)
    ensures IndexOf(a + [c] + rest, [c]) == Some(|a|)
  {
    var s := a + [c] + rest;
    assert MatchAt(s, [c], |a|) by {
      assert s[|a|..|a| + 1] == [c];
    }
    forall j: nat | j < |a| ensures !MatchAt(s, [c], j) {
      assert s[j..j + 1] == [a[j]];
    }
  }

  /** Splitting a join on a one-character separator that no part contains gives the parts back. */
  lemma {:induction false} SplitJoin(parts: seq<string>, c: char)
    requires |parts| >= 1
    requires forall k :: 0 <= k < |parts| ==> NoChar(parts[k], c)
    ensures Split(Join(parts, [c]), [c]) == parts
  {
    if |parts| == 1 {
      IndexOfAbsentChar(parts[0], c);
    } else {
      var tail := Join(parts[1..], [c]);
      IndexOfFirstChar(parts[0], c, tail);
      var s := parts[0] + [c] + tail;
      assert s[..|parts[0]|] == parts[0];
      assert s[|parts[0]| + 1..] == tail;
      SplitJoin(parts[1..], c);
    }
  }

  /** `s.split(sep)[0]`: the text before the first occurrence of `sep`, or all of `s`. */
  function Before(s: string, sep: string): (r: string)
    requires |sep| > 0
    ensures StartsWith(s, r)
    ensures Contains(s, sep) ==> MatchAt(s, sep, |r|)
    ensures !Contains(s, sep) ==> r == s
    ensures forall j :: 0 <= j < |r| ==> !MatchAt(s, sep, j)
  {
    Split(s, sep)[0]
  }

  /** `s.split(sep)[1]`, `None` for `undefined`: present iff `sep` occurs, and then
      the text after its first occurrence up to the next one. */
  function After(s: string, sep: string): (r: Option<string>)
    requires |sep| > 0
    ensures r.Some? <==> Contains(s, sep)
    ensures r.Some? ==> r.value == Before(s[IndexOf(s, sep).value + |sep|..], sep)
  {
    var parts := Split(s, sep);
    if |parts| > 1 then Some(parts[1]) else None
  }

  /** A string lacking one of the characters of `p` does not contain `p`. */
  lemma IndexOfMissingChar(s: string, p: string, k: nat)
    requires k < |p| && NoChar(s, p[k])
    ensures IndexOf(s, p).None?
  {
    forall j: nat | j <= |s| ensures !MatchAt(s, p, j) {
      if j + |p| <= |s| {
        assert s[j..j + |p|][k] == s[j + k] != p[k];
      }
    }
  }

  /** When `b` starts with a character that `p` does not have, an occurrence of `p` in
      `a + b` cannot begin inside `a` unless it lies wholly inside `a`. */
  lemma NoMatchAcross(a: string, b: string, p: string)
    requires |b| > 0 && NoChar(p, b[0]) && IndexOf(a, p).None?
    ensures forall j :: 0 <= j < |a| ==> !MatchAt(a + b, p, j)
  {
    var s := a + b;
    forall j: nat | j < |a| ensures !MatchAt(s, p, j) {
      if j + |p| <= |a| {
        assert s[j..j + |p|] == a[j..j + |p|];
        assert !MatchAt(a, p, j);
      } else if j + |p| <= |s| {
        assert s[j..j + |p|][|a| - j] == b[0] != p[|a| - j];
      }
    }
  }

  /** The first occurrence of `p` in `a + p + rest` ends `a` when `a` has no `p[0]`. */
  lemma IndexOfAfterPrefix(a: string, p: string, rest: string)
    requires |p| > 0 && NoChar(a, p[0])
    ensures IndexOf(a + p + rest, p) == Some(|a|)
  {
    var s := a + p + rest;
    assert s[|a|..|a| + |p|] == p;
    forall j: nat | j < |a| ensures !MatchAt(s, p, j) {
      assert s[j] == a[j] != p[0];
      if j + |p| <= |s| {
        assert s[j..j + |p|][0] == s[j];
      }
    }
    assert MatchAt(s, p, |a|);
  }

  // ---------------------------------------------------------------- case

  function LowerChar(c: char): char {
    if 'A' <= c <= 'Z' then (c as int + 32) as char else c
  }

  function UpperChar(c: char): char {
    if 'a' <= c <= 'z' then (c as int - 32) as char else c
  }

  /** `s.toLowerCase()` on ASCII letters. */
  function ToLower(s: string): string {
    seq(|s|, i requires 0 <= i < |s| => LowerChar(s[i]))
  }

  /** `s.toUpperCase()` on ASCII letters. */
  function ToUpper(s: string): string {
    seq(|s|, i requires 0 <= i < |s| => UpperChar(s[i]))
  }

  lemma ToLowerIdempotent(s: string)
    ensures ToLower(ToLower(s)) == ToLower(s)
  {
  }

  /** Lower-casing forgets any earlier upper-casing. */
  lemma ToLowerAfterToUpper(s: string)
    ensures ToLower(ToUpper(s)) == ToLower(s)
  {
  }

  // ---------------------------------------------------------------- decimal numbers

  predicate IsDigit(c: char) {
    '0' <= c <= '9'
  }

  predicate AllDigits(s: string) {
    forall i :: 0 <= i < |s| ==> IsDigit(s[i])
  }

  function DigitChar(d: nat): (c: char)
    requires d < 10
    ensures IsDigit(c)
  {
    (d + '0' as int) as char
  }

  function DigitValue(c: char): nat
    requires IsDigit(c)
  {
    c as int - '0' as int
  }

  /** `n.toString()` for a whole number: its decimal digits, without leading zeros. */
  function NatToString(n: nat): string
    decreases n
  {
    if n < 10 then [DigitChar(n)] else NatToString(n / 10) + [DigitChar(n % 10)]
  }

  /** The value of a string of decimal digits (the empty string counts as 0). */
  function DigitsValue(s: string): nat
    requires AllDigits(s)
    decreases |s|
  {
    if s == [] then 0 else DigitsValue(s[..|s| - 1]) * 10 + DigitValue(s[|s| - 1])
  }

  /** Printing a number gives a non-empty digit string that reads back as the number. */
  lemma {:induction false} NatToStringRoundTrip(n: nat)
    ensures |NatToString(n)| > 0 && AllDigits(NatToString(n))
    ensures DigitsValue(NatToString(n)) == n
    decreases n
  {
    if n >= 10 {
      NatToStringRoundTrip(n / 10);
      var s := NatToString(n);
      assert s[..|s| - 1] == NatToString(n / 10);
    }
  }

  /** Printed numbers have no leading zero: only 0 itself starts with '0'. */
  lemma {:induction false} NatToStringNoLeadingZero(n: nat)
    ensures |NatToString(n)| > 0
    ensures NatToString(n)[0] == '0' <==> n == 0
    ensures NatToString(n)[0] == '0' ==> |NatToString(n)| == 1
    decreases n
  {
    if n >= 10 {
      NatToStringNoLeadingZero(n / 10);
      assert NatToString(n)[0] == NatToString(n / 10)[0];
    }
  }

  /** A whole number as `toString` prints it: digits, and a leading zero only in "0". */
  predicate PlainNumber(s: string) {
    |s| > 0 && AllDigits(s) && (|s| == 1 || s[0] != '0')
  }

  /** A two-digit clock field: 00 to 59. */
  predicate ClockField(s: string) {
    |s| == 2 && AllDigits(s) && DigitsValue(s) < 60
  }

  lemma NatToStringPlain(n: nat)
    ensures PlainNumber(NatToString(n)) && DigitsValue(NatToString(n)) == n
  {
    NatToStringRoundTrip(n);
    NatToStringNoLeadingZero(n);
  }

  lemma NatToStringShort(n: nat)
    ensures n < 10 ==> |NatToString(n)| == 1
    ensures 10 <= n < 100 ==> |NatToString(n)| == 2
  {
  }

  /** `s.padStart(2, '0')`. */
  function PadStart2(s: string): string {
    if |s| == 0 then "00" else if |s| == 1 then "0" + s else s
  }

  /** A number below 60, zero-padded to two digits, as the clock strings print it. */
  function TwoDigits(n: nat): (r: string)
    requires n < 60
    ensures |r| == 2 && AllDigits(r) && DigitsValue(r) == n
  {
    NatToStringShort(n);
    NatToStringRoundTrip(n);
    var r := PadStart2(NatToString(n));
    assert n < 10 ==> r == ['0', DigitChar(n)];
    assert 10 <= n ==> r == NatToString(n);
    r
  }

  // ---------------------------------------------------------------- clock strings

  /** The number a clock string `a:b:...` stands for, each field read in base 60;
      `None` when a field is empty or not all digits. */
  function ClockValue(s: string): Option<nat> {
    FieldsValue(Split(s, ":"))
  }

  function FieldsValue(fields: seq<string>): Option<nat>
    decreases |fields|
  {
    if fields == [] then Some(0)
    else
      var last := fields[|fields| - 1];
      if last == "" || !AllDigits(last) then None
      else match FieldsValue(fields[..|fields| - 1])
        case None => None
        case Some(v) => Some(v * 60 + DigitsValue(last))
  }

  /** Appending one digit field reads it in base 60 after the others. */
  lemma FieldsValueSnoc(fields: seq<string>, last: string, v: nat)
    requires last != "" && AllDigits(last) && FieldsValue(fields) == Some(v)
    ensures FieldsValue(fields + [last]) == Some(v * 60 + DigitsValue(last))
  {
    var fs := fields + [last];
    assert fs[..|fs| - 1] == fields && fs[|fs| - 1] == last;
  }

  lemma FieldsValuePair(a: string, b: string)
    requires a != "" && AllDigits(a) && b != "" && AllDigits(b)
    ensures FieldsValue([a, b]) == Some(DigitsValue(a) * 60 + DigitsValue(b))
  {
    FieldsValueSnoc([], a, 0);
    assert [] + [a] == [a];
    FieldsValueSnoc([a], b, DigitsValue(a));
    assert [a] + [b] == [a, b];
  }

  lemma FieldsValueTriple(a: string, b: string, c: string)
    requires a != "" && AllDigits(a) && b != "" && AllDigits(b) && c != "" && AllDigits(c)
    ensures FieldsValue([a, b, c]) == Some((DigitsValue(a) * 60 + DigitsValue(b)) * 60 + DigitsValue(c))
  {
    FieldsValuePair(a, b);
    FieldsValueSnoc([a, b], c, DigitsValue(a) * 60 + DigitsValue(b));
    assert [a, b] + [c] == [a, b, c];
  }

  lemma ModSixty(a: nat, k: nat, r: nat)
    requires a == k * 60 + r && r < 60
    ensures a % 60 == r && a / 60 == k
  {
  }

  lemma HoursMinutesSecondsArith(seconds: nat)
    ensures seconds == ((seconds / 3600) * 60 + (seconds % 3600) / 60) * 60 + seconds % 60
  {
    var q, rest := seconds / 3600, seconds % 3600;
    var mm, ss := rest / 60, rest % 60;
    assert seconds == q * 3600 + rest;
    assert rest == mm * 60 + ss;
    var k := q * 60 + mm;
    assert seconds == k * 60 + ss;
    ModSixty(seconds, k, ss);
  }

  lemma DigitsHaveNoColon(s: string)
    requires AllDigits(s)
    ensures NoChar(s, ':')
  {
  }

  /** Two digit fields joined by ':' split back into those fields. */
  lemma ClockJoin2(m: string, ss: string)
    requires m != "" && AllDigits(m) && ss != "" && AllDigits(ss)
    ensures var r := m + ":" + ss;
      && r[..|m|] == m && r[|m|] == ':' && r[|m| + 1..] == ss && r[0] == m[0]
      && ClockValue(r) == Some(DigitsValue(m) * 60 + DigitsValue(ss))
  {
    var r := m + ":" + ss;
    DigitsHaveNoColon(m);
    DigitsHaveNoColon(ss);
    assert r == Join([m, ss], [':']);
    SplitJoin([m, ss], ':');
    FieldsValuePair(m, ss);
    assert r[..|m|] == m && r[|m| + 1..] == ss;
  }

  lemma ClockJoin3(h: string, mm: string, ss: string)
    requires h != "" && AllDigits(h) && mm != "" && AllDigits(mm) && ss != "" && AllDigits(ss)
    ensures var r := h + ":" + mm + ":" + ss;
      && r[..|h|] == h && r[|h|] == ':' && r[|h| + 1..|h| + 1 + |mm|] == mm
      && r[|h| + 1 + |mm|] == ':' && r[|h| + 2 + |mm|..] == ss && r[0] == h[0]
      && ClockValue(r) == Some((DigitsValue(h) * 60 + DigitsValue(mm)) * 60 + DigitsValue(ss))
  {
    ClockSlices3(h, mm, ss);
    ClockValue3(h, mm, ss);
  }

  lemma ClockSlices3(h: string, mm: string, ss: string)
    requires h != ""
    ensures var r := h + ":" + mm + ":" + ss;
      && r[..|h|] == h && r[|h|] == ':' && r[|h| + 1..|h| + 1 + |mm|] == mm
      && r[|h| + 1 + |mm|] == ':' && r[|h| + 2 + |mm|..] == ss && r[0] == h[0]
  {
    var r := h + ":" + mm + ":" + ss;
    assert r[..|h|] == h && r[|h| + 1..|h| + 1 + |mm|] == mm && r[|h| + 2 + |mm|..] == ss;
  }

  lemma ClockValue3(h: string, mm: string, ss: string)
    requires h != "" && AllDigits(h) && mm != "" && AllDigits(mm) && ss != "" && AllDigits(ss)
    ensures ClockValue(h + ":" + mm + ":" + ss) == Some((DigitsValue(h) * 60 + DigitsValue(mm)) * 60 + DigitsValue(ss))
  {
    DigitsHaveNoColon(h);
    DigitsHaveNoColon(mm);
    DigitsHaveNoColon(ss);
    JoinThree(h, mm, ss);
    SplitJoin([h, mm, ss], ':');
    FieldsValueTriple(h, mm, ss);
  }

  lemma JoinThree(h: string, mm: string, ss: string)
    ensures Join([h, mm, ss], [':']) == h + ":" + mm + ":" + ss
  {
    assert [h, mm, ss][1..] == [mm, ss];
    assert Join([mm, ss], [':']) == mm + ":" + ss;
  }

  /** `${mins}:${secs.toString().padStart(2, '0')}`: whole minutes, unbounded and
      without leading zeros, then two-digit seconds below 60. */
  function MinutesSeconds(seconds: nat): (r: string)
    ensures |r| >= 4 && r[|r| - 3] == ':'
    ensures PlainNumber(r[..|r| - 3]) && DigitsValue(r[..|r| - 3]) == seconds / 60
    ensures ClockField(r[|r| - 2..]) && DigitsValue(r[|r| - 2..]) == seconds % 60
    ensures r[0] == '0' <==> seconds < 60
    ensures seconds < 600 ==> |r| == 4
    ensures 600 <= seconds < 6000 ==> |r| == 5
    ensures ClockValue(r) == Some(seconds)
  {
    var m := NatToString(seconds / 60);
    NatToStringShort(seconds / 60);
    var ss := TwoDigits(seconds % 60);
    NatToStringPlain(seconds / 60);
    NatToStringNoLeadingZero(seconds / 60);
    ClockJoin2(m, ss);
    m + ":" + ss
  }

  /** `${hrs}:${mins padded}:${secs padded}`: hours without leading zeros, then
      two-digit minutes and seconds, each below 60. */
  function HoursMinutesSeconds(seconds: nat): (r: string)
    ensures |r| >= 7 && r[|r| - 3] == ':' && r[|r| - 6] == ':'
    ensures PlainNumber(r[..|r| - 6]) && DigitsValue(r[..|r| - 6]) == seconds / 3600
    ensures ClockField(r[|r| - 5..|r| - 3]) && DigitsValue(r[|r| - 5..|r| - 3]) == seconds % 3600 / 60
    ensures ClockField(r[|r| - 2..]) && DigitsValue(r[|r| - 2..]) == seconds % 60
    ensures r[0] == '0' <==> seconds < 3600
    ensures ClockValue(r) == Some(seconds)
  {
    var h := NatToString(seconds / 3600);
    var mm := TwoDigits(seconds % 3600 / 60);
    var ss := TwoDigits(seconds % 60);
    NatToStringPlain(seconds / 3600);
    NatToStringNoLeadingZero(seconds / 3600);
    ClockJoin3(h, mm, ss);
    HoursMinutesSecondsArith(seconds);
    h + ":" + mm + ":" + ss
  }
}
