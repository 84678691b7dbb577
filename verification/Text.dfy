/** Go strings and byte slices: sequences of characters below 256, one per byte. */
module Text {
  type byte = c: char | c as int < 256

  type Bytes = seq<byte>

  // ----- white space -------------------------------------------------------------------

  // The UTF-8 encodings, of one, two and three bytes, of the code points Go calls white space.
  predicate IsSpace(a: char) { 9 <= a as int <= 13 || a as int == 32 }

  predicate IsSpace2(a: char, b: char) { a as int == 0xC2 && (b as int == 0x85 || b as int == 0xA0) }

  predicate IsSpace3(a: char, b: char, c: char) {
    || (a as int == 0xE1 && b as int == 0x9A && c as int == 0x80)
    || (a as int == 0xE2 && b as int == 0x80
        && (0x80 <= c as int <= 0x8A || c as int == 0xA8 || c as int == 0xA9 || c as int == 0xAF))
    || (a as int == 0xE2 && b as int == 0x81 && c as int == 0x9F)
    || (a as int == 0xE3 && b as int == 0x80 && c as int == 0x80)
  }

  // The code points above U+00FF that are white space.
  predicate IsWideSpace(u: int) {
    u in {0x1680, 0x2028, 0x2029, 0x202F, 0x205F, 0x3000} || 0x2000 <= u <= 0x200A
  }

  // Encoded in three bytes.
  predicate Encodes(a: char, b: char, c: char, u: int) {
    && 0x800 <= u <= 0xFFFF
    && a as int == 0xE0 + u / 0x1000 && b as int == 0x80 + u / 0x40 % 0x40 && c as int == 0x80 + u % 0x40
  }

  /** The encodings are those of the code points that Unicode counts as white space. */
  lemma {:induction false} SpacesAreEncoded(a: char, b: char, c: char)
    ensures IsSpace3(a, b, c) <==> exists u :: IsWideSpace(u) && Encodes(a, b, c, u)
  {
    var x, y, z := a as int - 0xE0, b as int - 0x80, c as int - 0x80;
    var u := 0x1000 * x + 0x40 * y + z;
    if IsSpace3(a, b, c) {
      assert IsWideSpace(u) && Encodes(a, b, c, u);
    }
    forall v | IsWideSpace(v) && Encodes(a, b, c, v)
      ensures IsSpace3(a, b, c)
    {
      assert v / 0x1000 == x && v / 0x40 % 0x40 == y && v % 0x40 == z;
    }
  }

  predicate HasPrefix(s: string, p: string) { |p| <= |s| && s[..|p|] == p }

  predicate HasSuffix(s: string, p: string) { |p| <= |s| && s[|s| - |p|..] == p }

  // Length of the white space rune at the start (or end) of s; zero when there is none.
  function SpaceAtStart(s: string): (n: nat)
    ensures n <= |s|
  {
    if |s| >= 1 && IsSpace(s[0]) then 1
    else if |s| >= 2 && IsSpace2(s[0], s[1]) then 2
    else if |s| >= 3 && IsSpace3(s[0], s[1], s[2]) then 3
    else 0
  }

  function SpaceAtEnd(s: string): (n: nat)
    ensures n <= |s|
  {
    if |s| >= 1 && IsSpace(s[|s| - 1]) then 1
    else if |s| >= 2 && IsSpace2(s[|s| - 2], s[|s| - 1]) then 2
    else if |s| >= 3 && IsSpace3(s[|s| - 3], s[|s| - 2], s[|s| - 1]) then 3
    else 0
  }

  function TrimLeft(s: string): (t: string)
    ensures |t| <= |s|
    decreases |s|
  {
    var n := SpaceAtStart(s);
    if n == 0 then s else TrimLeft(s[n..])
  }

  function TrimRight(s: string): (t: string)
    ensures |t| <= |s|
    decreases |s|
  {
    var n := SpaceAtEnd(s);
    if n == 0 then s else TrimRight(s[..|s| - n])
  }

  function TrimSpace(s: string): (t: string)
    ensures |t| <= |s|
  {
    TrimRight(TrimLeft(s))
  }

  lemma {:induction false} TrimLeftIsSuffix(s: string)
    ensures TrimLeft(s) == s[|s| - |TrimLeft(s)|..]
    decreases |s|
  {
    hide SpaceAtStart;
    var n := SpaceAtStart(s);
    if n != 0 {
      TrimLeftIsSuffix(s[n..]);
    }
  }

  lemma {:induction false} TrimRightIsPrefix(s: string)
    ensures TrimRight(s) == s[..|TrimRight(s)|]
    decreases |s|
  {
    hide SpaceAtEnd;
    var n := SpaceAtEnd(s);
    if n != 0 {
      TrimRightIsPrefix(s[..|s| - n]);
    }
  }

  lemma {:induction false} NoSpaceAtStartOfPrefix(s: string, n: nat)
    requires n <= |s| && SpaceAtStart(s) == 0
    ensures SpaceAtStart(s[..n]) == 0
  {
  }

  lemma {:induction false} TrimLeftIsDone(s: string)
    ensures SpaceAtStart(TrimLeft(s)) == 0
    decreases |s|
  {
    hide IsSpace, IsSpace2, IsSpace3;
    var n := SpaceAtStart(s);
    if n != 0 {
      TrimLeftIsDone(s[n..]);
    }
  }

  lemma {:induction false} TrimRightIsDone(s: string)
    ensures SpaceAtEnd(TrimRight(s)) == 0
    decreases |s|
  {
    hide IsSpace, IsSpace2, IsSpace3;
    var n := SpaceAtEnd(s);
    if n != 0 {
      TrimRightIsDone(s[..|s| - n]);
    }
  }

  lemma {:induction false} TrimIsIdempotent(s: string)
    ensures TrimSpace(TrimSpace(s)) == TrimSpace(s)
  {
    hide IsSpace, IsSpace2, IsSpace3;
    var left := TrimLeft(s);
    TrimLeftIsDone(s);
    TrimRightIsDone(left);
    TrimRightIsPrefix(left);
    NoSpaceAtStartOfPrefix(left, |TrimRight(left)|);
  }

  // A text that begins and ends with printable ASCII has nothing to trim.
  lemma {:induction false} NothingToTrim(s: string)
    requires s != "" && 33 <= s[0] as int <= 126 && 33 <= s[|s| - 1] as int <= 126
    ensures TrimSpace(s) == s
  {
    assert SpaceAtStart(s) == 0 && SpaceAtEnd(s) == 0;
    hide SpaceAtStart, SpaceAtEnd;
  }

  // ASCII white space, of one byte each.
  predicate Blank(s: string) { forall i :: 0 <= i < |s| ==> 9 <= s[i] as int <= 13 || s[i] as int == 32 }

  lemma {:induction false} TrimLeftBlanks(w: string, s: string)
    requires Blank(w)
    ensures TrimLeft(w + s) == TrimLeft(s)
    decreases |w|
  {
    if w == "" {
      assert w + s == s;
    } else {
      assert (w + s)[0] == w[0] && (w + s)[1..] == w[1..] + s;
      TrimLeftBlanks(w[1..], s);
      assert SpaceAtStart(w + s) == 1;
    }
  }

  lemma {:induction false} TrimRightBlanks(s: string, v: string)
    requires Blank(v)
    ensures TrimRight(s + v) == TrimRight(s)
    decreases |v|
  {
    if v == "" {
      assert s + v == s;
    } else {
      assert (s + v)[|s + v| - 1] == v[|v| - 1] && (s + v)[..|s + v| - 1] == s + v[..|v| - 1];
      TrimRightBlanks(s, v[..|v| - 1]);
      assert SpaceAtEnd(s + v) == 1;
    }
  }

  // Blanks after a text do not change where its leading white space ends.
  lemma {:induction false} TrimLeftBefore(s: string, v: string)
    requires Blank(v)
    ensures TrimLeft(s + v) == if TrimLeft(s) == "" then "" else TrimLeft(s) + v
    decreases |s|
  {
    if s == "" {
      TrimLeftBlanks(v, "");
      assert s + v == v + "";
    } else {
      var n := SpaceAtStart(s);
      assert forall i :: 0 <= i < |s| ==> (s + v)[i] == s[i];
      assert SpaceAtStart(s + v) == n;
      if n != 0 {
        assert (s + v)[n..] == s[n..] + v;
        TrimLeftBefore(s[n..], v);
      }
    }
  }

  /** Blanks around a text are trimmed off and nothing else is changed. */
  lemma {:induction false} TrimBlanks(w: string, s: string, v: string)
    requires Blank(w) && Blank(v)
    ensures TrimSpace(w + s + v) == TrimSpace(s)
  {
    hide TrimLeft, TrimRight, Blank;
    assert w + s + v == w + (s + v);
    TrimLeftBlanks(w, s + v);
    TrimLeftBefore(s, v);
    TrimRightBlanks(TrimLeft(s), v);
  }

  // A text that is trimmed already is still trimmed behind printable ASCII and blanks.
  lemma {:induction false} TrimmedBehind(head: string, w: string, s: string)
    requires head != "" && 33 <= head[0] as int <= 126 && 33 <= head[|head| - 1] as int <= 126 && Blank(w)
    requires s != "" && TrimSpace(s) == s
    ensures TrimSpace(head + w + s) == head + w + s
  {
    var whole := head + w + s;
    TrimmedEnds(s);
    TrimmedEnds(whole);
    assert forall i :: 0 <= i < |s| ==> whole[|head| + |w| + i] == s[i];
    assert whole[0] == head[0];
    assert whole[|head| + |w| - 1] == if w == "" then head[|head| - 1] else w[|w| - 1];
  }

  // ----- decimal numbers -----------------------------------------------------------------

  function Digits(n: nat): string {
    if n < 10 then [(48 + n) as char] else Digits(n / 10) + [(48 + n % 10) as char]
  }

  function FormatInt(n: int): string { if n < 0 then "-" + Digits(-n) else Digits(n) }

  predicate IsDigit(c: char) { '0' <= c <= '9' }

  // The value of a non-empty run of digits, or -1.
  function DigitsValue(s: string): (n: int)
    ensures n >= -1
  {
    if s == "" || !IsDigit(s[|s| - 1]) then -1
    else if |s| == 1 then s[0] as int - 48
    else
      var high := DigitsValue(s[..|s| - 1]);
      if high < 0 then -1 else 10 * high + (s[|s| - 1] as int - 48)
  }

  lemma {:induction false} DigitsRoundTrip(n: nat)
    ensures |Digits(n)| > 0 && DigitsValue(Digits(n)) == n
    ensures forall i :: 0 <= i < |Digits(n)| ==> IsDigit(Digits(n)[i])
  {
    if n >= 10 {
      DigitsRoundTrip(n / 10);
      assert Digits(n)[..|Digits(n)| - 1] == Digits(n / 10);
    }
  }

  // Leading zeros do not change the value.
  lemma {:induction false} LeadingZero(s: string)
    requires s != ""
    ensures DigitsValue("0" + s) == DigitsValue(s)
  {
    var longer := "0" + s;
    assert longer[|longer| - 1] == s[|s| - 1] && longer[..|longer| - 1] == "0" + s[..|s| - 1];
    if |s| > 1 {
      LeadingZero(s[..|s| - 1]);
    } else {
      assert DigitsValue("0") == 0;
    }
  }

  /** A number is written with a sign if it is negative, without leading zeros, and with the digits of its value. */
  lemma {:induction false} NumbersAreCanonical(n: int)
    ensures var text := FormatInt(n);
      && (n < 0 ==> text != "" && text[0] == '-' && DigitsValue(text[1..]) == -n)
      && (n >= 0 ==> text != "" && text[0] != '-' && DigitsValue(text) == n)
      && (n == 0 ==> text == "0") && (n > 0 ==> text[0] != '0') && (n < 0 ==> |text| > 1 && text[1] != '0')
  {
    DigitsRoundTrip(if n < 0 then -n else n);
    if n != 0 {
      NoLeadingZero(if n < 0 then -n else n);
    }
    assert n < 0 ==> FormatInt(n)[1..] == Digits(-n);
  }

  lemma {:induction false} NoLeadingZero(n: nat)
    requires n > 0
    ensures |Digits(n)| > 0 && Digits(n)[0] != '0'
  {
    if n >= 10 {
      NoLeadingZero(n / 10);
    }
  }

  // A text with anything but digits is no number.
  lemma {:induction false} NotDigits(s: string, k: nat)
    requires k < |s| && !IsDigit(s[k])
    ensures DigitsValue(s) == -1
  {
    if k < |s| - 1 {
      NotDigits(s[..|s| - 1], k);
    }
  }

  lemma DigitsInjective(m: nat, n: nat)
    requires Digits(m) == Digits(n)
    ensures m == n
  {
    DigitsRoundTrip(m);
    DigitsRoundTrip(n);
  }

  function Join(parts: seq<string>, separator: string): string {
    if parts == [] then "" else if |parts| == 1 then parts[0] else parts[0] + separator + Join(parts[1..], separator)
  }

  // ----- splitting at a separator ----------------------------------------------------------

  function IndexOf(s: string, c: char): (n: nat)
    ensures n <= |s| && c !in s[..n] && (n < |s| ==> s[n] == c)
  {
    if s == "" || s[0] == c then 0
    else
      var n := IndexOf(s[1..], c) + 1;
      assert s[..n] == [s[0]] + s[1..][..n - 1];
      n
  }

  function Split(s: string, c: char): (parts: seq<string>)
    ensures |parts| > 0
    decreases |s|
  {
    var n := IndexOf(s, c);
    if n == |s| then [s] else [s[..n]] + Split(s[n + 1..], c)
  }

  function Front(parts: seq<string>): seq<string>
    requires |parts| > 0
  {
    parts[..|parts| - 1]
  }

  function Last(parts: seq<string>): string
    requires |parts| > 0
  {
    parts[|parts| - 1]
  }

  /** The parts of a string are the only way to write it as separator-free pieces joined by the separator. */
  lemma {:induction false} SplitIsTheInverseOfJoin(s: string, c: char, parts: seq<string>)
    requires |parts| > 0
    ensures parts == Split(s, c) <==> Join(parts, [c]) == s && forall k :: 0 <= k < |parts| ==> c !in parts[k]
    decreases |s|
  {
    JoinSplit(s, c);
    if Join(parts, [c]) == s && forall k :: 0 <= k < |parts| ==> c !in parts[k] {
      SplitJoin(parts, c);
    }
  }

  lemma {:induction false} JoinSplit(s: string, c: char)
    ensures Join(Split(s, c), [c]) == s && forall k :: 0 <= k < |Split(s, c)| ==> c !in Split(s, c)[k]
    decreases |s|
  {
    var n := IndexOf(s, c);
    if n == |s| {
      assert s[..n] == s;
    } else {
      JoinSplit(s[n + 1..], c);
      assert s == s[..n] + [c] + s[n + 1..];
    }
  }

  lemma {:induction false} FirstAt(s: string, c: char, n: nat)
    requires n <= |s| && c !in s[..n] && (n < |s| ==> s[n] == c)
    ensures IndexOf(s, c) == n
  {
  }

  lemma {:induction false} SplitJoin(parts: seq<string>, c: char)
    requires |parts| > 0 && forall k :: 0 <= k < |parts| ==> c !in parts[k]
    ensures Split(Join(parts, [c]), c) == parts
    decreases |parts|
  {
    var s, n := Join(parts, [c]), |parts[0]|;
    assert s[..n] == parts[0];
    FirstAt(s, c, n);
    if |parts| > 1 {
      var rest := Join(parts[1..], [c]);
      SplitJoin(parts[1..], c);
      assert s[n + 1..] == rest;
      assert Split(s, c) == [parts[0]] + Split(rest, c);
    }
  }

  lemma {:induction false} FrontOfCons(x: string, ys: seq<string>, zs: seq<string>)
    requires |ys| > 0
    ensures Front([x] + ys) + zs == [x] + (Front(ys) + zs) && Last([x] + ys) == Last(ys)
  {
  }

  // More text only touches the last part.
  lemma {:induction false} SplitAppend(s: string, c: char, t: string)
    ensures Split(s + t, c) == Front(Split(s, c)) + Split(Last(Split(s, c)) + t, c)
    decreases |s|
  {
    var n := IndexOf(s, c);
    if n < |s| {
      var rest := s[n + 1..];
      assert (s + t)[..n] == s[..n];
      assert (s + t)[n + 1..] == rest + t;
      FirstAt(s + t, c, n);
      SplitAppend(rest, c, t);
      assert Split(s + t, c) == [s[..n]] + Split(rest + t, c);
      assert Split(s, c) == [s[..n]] + Split(rest, c);
      hide Split, IndexOf;
      FrontOfCons(s[..n], Split(rest, c), Split(Last(Split(rest, c)) + t, c));
    }
  }

  // ----- trimming what was split and joined ---------------------------------------------------

  lemma {:induction false} TrimIsPart(s: string)
    ensures forall c :: c in TrimSpace(s) ==> c in s
  {
    hide IsSpace, IsSpace2, IsSpace3;
    TrimLeftIsSuffix(s);
    TrimRightIsPrefix(TrimLeft(s));
    assert forall c :: c in TrimLeft(s) ==> c in s;
  }

  lemma {:induction false} TrimmedEnds(s: string)
    ensures TrimSpace(s) == s <==> SpaceAtStart(s) == 0 && SpaceAtEnd(s) == 0
  {
    hide IsSpace, IsSpace2, IsSpace3;
    TrimLeftIsDone(s);
    TrimRightIsDone(TrimLeft(s));
    TrimRightIsPrefix(TrimLeft(s));
    NoSpaceAtStartOfPrefix(TrimLeft(s), |TrimSpace(s)|);
  }

  // Ends that do not look like white space still do not when a comma follows or precedes them.
  lemma {:induction false} CommaKeepsEnds(s: string, t: string)
    requires s != ""
    ensures SpaceAtStart(s) == 0 ==> SpaceAtStart(s + "," + t) == 0
    ensures SpaceAtEnd(s) == 0 ==> SpaceAtEnd(t + "," + s) == 0
  {
    var a, b := s + "," + t, t + "," + s;
    assert a[|s|] == ',' && b[|t|] == ',';
  }

  lemma {:induction false} JoinIsTrimmed(parts: seq<string>)
    requires |parts| > 0 && forall i :: 0 <= i < |parts| ==> parts[i] != "" && TrimSpace(parts[i]) == parts[i]
    ensures Join(parts, ",") != "" && TrimSpace(Join(parts, ",")) == Join(parts, ",")
  {
    hide TrimSpace, SpaceAtStart, SpaceAtEnd;
    if |parts| > 1 {
      var rest := Join(parts[1..], ",");
      JoinIsTrimmed(parts[1..]);
      TrimmedEnds(parts[0]);
      TrimmedEnds(rest);
      CommaKeepsEnds(parts[0], rest);
      CommaKeepsEnds(rest, parts[0]);
      TrimmedEnds(Join(parts, ","));
    }
  }
}
