/** String operations the source performs through JavaScript's `String`
    and `Number` methods: `join`, `split`, `replace` with a character class,
    `toUpperCase`/`toLowerCase` (ASCII letters), `substring(0, n)`,
    `endsWith`, `includes` and `Number.prototype.toString(radix)`. */
module Strings {
  import opened Wrappers
  import opened Seqs

  /** The characters JavaScript's `\s` class matches. */
  predicate IsWhitespace(c: char) {
    c == ' ' || c == '\t' || c == '\n' || c == '\U{0B}' || c == '\U{0C}' || c == '\r' ||
    c == '\U{A0}' || c == '\U{1680}' || ('\U{2000}' <= c <= '\U{200A}') ||
    c == '\U{2028}' || c == '\U{2029}' || c == '\U{202F}' || c == '\U{205F}' ||
    c == '\U{3000}' || c == '\U{FEFF}'
  }

  predicate IsNotWhitespace(c: char) { !IsWhitespace(c) }

  /** `parts.join(sep)`; the empty list joins to the empty string. */
  function Join(parts: seq<string>, sep: string): string
    decreases |parts|
  {
    if parts == [] then ""
    else if |parts| == 1 then parts[0]
    else parts[0] + sep + Join(parts[1..], sep)
  }

  /** `s.substring(0, n)`. */
  function Prefix(s: string, n: nat): (r: string)
    ensures r <= s && |r| == Min(n, |s|)
  {
    Take(s, n)
  }

  predicate EndsWith(s: string, suffix: string) {
    |suffix| <= |s| && s[|s| - |suffix|..] == suffix
  }

  predicate StartsWith(s: string, prefix: string) {
    prefix <= s
  }

  /** `s.includes(c)` for a one-character argument. */
  predicate HasChar(s: string, c: char) { c in s }

  /** `s.replace(/\s+/g, '')`: every whitespace character removed. */
  function RemoveWhitespace(s: string): (r: string)
    ensures forall c :: c in r <==> c in s && !IsWhitespace(c)
    ensures IsSubsequence(r, s)
    ensures (forall c :: c in s ==> !IsWhitespace(c)) ==> r == s
  {
    FilterIsSubsequence(s, IsNotWhitespace);
    if forall c :: c in s ==> !IsWhitespace(c) then
      FilterKeepsAll(s, IsNotWhitespace);
      Filter(s, IsNotWhitespace)
    else
      Filter(s, IsNotWhitespace)
  }

  /** Removing the whitespace from two words around one space joins them. */
  lemma RemoveSpaceBetween(a: string, b: string)
    requires forall c :: c in a ==> !IsWhitespace(c)
    requires forall c :: c in b ==> !IsWhitespace(c)
    ensures RemoveWhitespace(a + " " + b) == a + b
  {
    var f := IsNotWhitespace;
    calc {
      Filter(a + " " + b, f);
    == { FilterAppend(a + " ", b, f); }
      Filter(a + " ", f) + Filter(b, f);
    == { FilterAppend(a, " ", f); }
      Filter(a, f) + Filter(" ", f) + Filter(b, f);
    == { FilterKeepsAll(a, f); FilterNonePass(" ", f); FilterKeepsAll(b, f); }
      a + [] + b;
    == { assert a + [] == a; }
      a + b;
    }
  }

  // ---------------------------------------------------------------------------
  // Splitting into runs

  /** Length of the run of non-separator characters at the front of `s`. */
  function LeadingRun(s: string, isSep: char -> bool): (n: nat)
    ensures n <= |s|
    ensures forall i :: 0 <= i < n ==> !isSep(s[i])
    ensures n < |s| ==> isSep(s[n])
    decreases |s|
  {
    if s == [] || isSep(s[0]) then 0 else 1 + LeadingRun(s[1..], isSep)
  }

  /** The maximal non-empty runs of characters that are not separators, in
      order. With `IsWhitespace` as the separator this is `s.split(/\s+/)`
      without the empty strings that `split` yields before leading and after
      trailing whitespace. */
  function Runs(s: string, isSep: char -> bool): seq<string>
    decreases |s|
  {
    if s == [] then []
    else if isSep(s[0]) then Runs(s[1..], isSep)
    else
      var n := LeadingRun(s, isSep);
      [s[..n]] + Runs(s[n..], isSep)
  }

  /** Every run is non-empty and free of separators. */
  lemma {:induction false} RunsAreSeparatorFree(s: string, isSep: char -> bool)
    ensures forall w :: w in Runs(s, isSep) ==> |w| > 0 && forall i :: 0 <= i < |w| ==> !isSep(w[i])
    decreases |s|
  {
    if s == [] {
    } else if isSep(s[0]) {
      RunsAreSeparatorFree(s[1..], isSep);
    } else {
      var n := LeadingRun(s, isSep);
      RunsAreSeparatorFree(s[n..], isSep);
    }
  }

  lemma {:induction false} LeadingRunAppend(a: string, b: string, isSep: char -> bool)
    requires b != [] && isSep(b[0])
    ensures LeadingRun(a + b, isSep) == LeadingRun(a, isSep)
    decreases |a|
  {
    if a == [] {
      assert a + b == b;
    } else {
      assert (a + b)[0] == a[0];
      assert (a + b)[1..] == a[1..] + b;
      if !isSep(a[0]) {
        LeadingRunAppend(a[1..], b, isSep);
      }
    }
  }

  /** A separator character splits the runs of what precedes it from the runs of
      what follows it. */
  lemma {:induction false} RunsAroundSeparator(a: string, c: char, b: string, isSep: char -> bool)
    requires isSep(c)
    ensures Runs(a + [c] + b, isSep) == Runs(a, isSep) + Runs(b, isSep)
    decreases |a|
  {
    var t := [c] + b;
    AppendAssoc(a, [c], b);
    if a == [] {
      assert a + t == t;
      assert t[1..] == b;
    } else {
      RunsStep(a, t, isSep);
      var n := if isSep(a[0]) then 1 else LeadingRun(a, isSep);
      AppendAssoc(a[n..], [c], b);
      RunsAroundSeparator(a[n..], c, b, isSep);
    }
  }

  /** The first step of `Runs` on `a + t`, where `t` starts with a separator,
      is the first step on `a`. */
  lemma RunsStep(a: string, t: string, isSep: char -> bool)
    requires a != [] && t != [] && isSep(t[0])
    ensures isSep(a[0]) ==> Runs(a + t, isSep) == Runs(a[1..] + t, isSep)
    ensures !isSep(a[0]) ==> var n := LeadingRun(a, isSep);
      Runs(a + t, isSep) == [a[..n]] + Runs(a[n..] + t, isSep)
  {
    var s := a + t;
    assert s[0] == a[0];
    if isSep(a[0]) {
      assert s[1..] == a[1..] + t;
    } else {
      LeadingRunAppend(a, t, isSep);
      AppendSplit(a, t, LeadingRun(a, isSep));
    }
  }

  /** Splitting the space-joined texts gives the runs of each text, in order. */
  lemma {:induction false} RunsOfJoin(parts: seq<string>)
    ensures Runs(Join(parts, " "), IsWhitespace) == Flatten(Map(parts, (p: string) => Runs(p, IsWhitespace)))
    decreases |parts|
  {
    var f := (p: string) => Runs(p, IsWhitespace);
    if parts == [] {
    } else if |parts| == 1 {
      assert Map(parts, f)[1..] == [];
    } else {
      RunsOfJoin(parts[1..]);
      RunsAroundSeparator(parts[0], ' ', Join(parts[1..], " "), IsWhitespace);
      assert parts[0] + " " + Join(parts[1..], " ") == parts[0] + [' '] + Join(parts[1..], " ");
      assert Map(parts, f)[1..] == Map(parts[1..], f);
    }
  }

  /** The runs of two non-empty lists of parts joined with a space are the
      runs of each list, in order. */
  lemma RunsOfJoinAppend(a: seq<string>, b: seq<string>)
    requires a != [] && b != []
    ensures Runs(Join(a + b, " "), IsWhitespace) == Runs(Join(a, " "), IsWhitespace) + Runs(Join(b, " "), IsWhitespace)
  {
    var ja, jb := Join(a, " "), Join(b, " ");
    JoinAppend(a, b, " ");
    assert Join(a + b, " ") == ja + [' '] + jb;
    RunsAroundSeparator(ja, ' ', jb, IsWhitespace);
  }

  /** Joining two non-empty lists of parts is joining each and putting the
      separator between. */
  lemma {:induction false} JoinAppend(a: seq<string>, b: seq<string>, sep: string)
    requires a != [] && b != []
    ensures Join(a + b, sep) == Join(a, sep) + sep + Join(b, sep)
    decreases |a|
  {
    if |a| == 1 {
      assert (a + b)[1..] == b;
    } else {
      assert (a + b)[1..] == a[1..] + b;
      JoinAppend(a[1..], b, sep);
    }
  }

  // ---------------------------------------------------------------------------
  // Splitting on one character, as `s.split(c)` does

  function IndexOf(s: string, c: char): (i: nat)
    requires c in s
    ensures i < |s| && s[i] == c && c !in s[..i]
  {
    if s[0] == c then 0 else 1 + IndexOf(s[1..], c)
  }

  /** `s.split(c)`: the pieces between occurrences of `c`, empty pieces kept. */
  function SplitOn(s: string, c: char): (r: seq<string>)
    ensures |r| > 0
    ensures forall w :: w in r ==> c !in w
    decreases |s|
  {
    if c !in s then [s]
    else
      var i := IndexOf(s, c);
      [s[..i]] + SplitOn(s[i + 1..], c)
  }

  lemma SplitOnAfterPiece(a: string, c: char, b: string)
    requires c !in a
    ensures SplitOn(a + [c] + b, c) == [a] + SplitOn(b, c)
  {
    var s := a + [c] + b;
    assert s[|a|] == c;
    var i := IndexOf(s, c);
    assert s[..i] == a;
    assert s[i + 1..] == b;
  }

  /** Four pieces joined, written out. */
  lemma JoinFour(a: string, b: string, c: string, d: string, sep: string)
    ensures Join([a, b, c, d], sep) == a + sep + b + sep + c + sep + d
  {
    assert [a, b, c, d][1..] == [b, c, d];
    assert [b, c, d][1..] == [c, d];
    assert [c, d][1..] == [d];
    assert Join([c, d], sep) == c + sep + d;
    assert Join([b, c, d], sep) == b + sep + (c + sep + d);
  }

  /** Four dash-free pieces joined with dashes split back into themselves. */
  lemma SplitFourOnDash(a: string, b: string, c: string, d: string)
    requires '-' !in a && '-' !in b && '-' !in c && '-' !in d
    ensures SplitOn(a + "-" + b + "-" + c + "-" + d, '-') == [a, b, c, d]
  {
    JoinFour(a, b, c, d, "-");
    var parts := [a, b, c, d];
    assert forall k :: 0 <= k < |parts| ==> '-' !in parts[k];
    SplitOnJoin(parts, '-');
  }

  /** Splitting pieces joined by a character none of them contains gives the
      pieces back. */
  lemma {:induction false} SplitOnJoin(parts: seq<string>, c: char)
    requires parts != []
    requires forall k :: 0 <= k < |parts| ==> c !in parts[k]
    ensures SplitOn(Join(parts, [c]), c) == parts
    decreases |parts|
  {
    if |parts| > 1 {
      SplitOnJoin(parts[1..], c);
      SplitOnAfterPiece(parts[0], c, Join(parts[1..], [c]));
      assert parts == [parts[0]] + parts[1..];
    }
  }

  // ---------------------------------------------------------------------------
  // ASCII case mapping

  function UpperChar(c: char): char {
    if 'a' <= c <= 'z' then (c as int - 32) as char else c
  }

  function LowerChar(c: char): char {
    if 'A' <= c <= 'Z' then (c as int + 32) as char else c
  }

  /** `s.toUpperCase()` on ASCII letters. */
  function Upper(s: string): (r: string)
    ensures |r| == |s| && forall i :: 0 <= i < |s| ==> r[i] == UpperChar(s[i])
  {
    Map(s, UpperChar)
  }

  /** `s.toLowerCase()` on ASCII letters. */
  function Lower(s: string): (r: string)
    ensures |r| == |s| && forall i :: 0 <= i < |s| ==> r[i] == LowerChar(s[i])
  {
    Map(s, LowerChar)
  }

  // ---------------------------------------------------------------------------
  // Numbers as text

  /** The digit `d` as `Number.prototype.toString` writes it: `0-9` then `a-z`. */
  function DigitChar(d: nat): (c: char)
    requires d < 36
  {
    if d < 10 then ('0' as int + d) as char else ('a' as int + d - 10) as char
  }

  /** The value of a digit character, either case; 36 for any other character. */
  function DigitValue(c: char): (v: nat)
    ensures v <= 36
  {
    if '0' <= c <= '9' then c as int - '0' as int
    else if 'a' <= c <= 'z' then c as int - 'a' as int + 10
    else if 'A' <= c <= 'Z' then c as int - 'A' as int + 10
    else 36
  }

  predicate IsDigitOf(c: char, radix: nat) { DigitValue(c) < radix }

  /** The number a string of digits stands for, most significant first. */
  function DigitsValue(s: string, radix: nat): nat
    decreases |s|
  {
    if s == [] then 0 else DigitsValue(s[..|s| - 1], radix) * radix + DigitValue(s[|s| - 1])
  }

  /** A digit character reads back as its value, is never an upper-case
      letter, and is `0` only for zero. */
  lemma DigitCharValue(d: nat)
    requires d < 36
    ensures DigitValue(DigitChar(d)) == d && !('A' <= DigitChar(d) <= 'Z')
    ensures DigitChar(d) == '0' <==> d == 0
  {
  }

  lemma DivMod(n: nat, radix: nat)
    requires 2 <= radix
    ensures (n / radix) * radix + n % radix == n && n % radix < radix
    ensures radix <= n ==> 0 < n / radix < n
  {
  }

  /** `n.toString(radix)` for a non-negative integer: lower-case digits, no
      leading zero, and reading the digits back gives `n`. */
  function Radix(n: nat, radix: nat): (s: string)
    requires 2 <= radix <= 36
    ensures |s| > 0
    ensures forall i :: 0 <= i < |s| ==> IsDigitOf(s[i], radix) && !('A' <= s[i] <= 'Z')
    ensures s[0] == '0' ==> n == 0
    ensures DigitsValue(s, radix) == n
    decreases n
  {
    if n < radix then
      DigitCharValue(n);
      [DigitChar(n)]
    else
      DivMod(n, radix);
      var high := Radix(n / radix, radix);
      var low := n % radix;
      DigitCharValue(low);
      var r := high + [DigitChar(low)];
      assert r[..|r| - 1] == high;
      assert DigitsValue(r, radix) == DigitsValue(high, radix) * radix + low;
      r
  }

  /** `n.toString()`: decimal notation. */
  function Decimal(n: nat): (s: string)
    ensures |s| > 0 && forall i :: 0 <= i < |s| ==> '0' <= s[i] <= '9'
  {
    Radix(n, 10)
  }

  /** Reads a string of digits back into a number; `None` when the string is
      empty or holds a character that is not a digit of this radix. */
  function ParseRadix(s: string, radix: nat): (r: Option<nat>)
    ensures r.Some? <==> |s| > 0 && forall i :: 0 <= i < |s| ==> IsDigitOf(s[i], radix)
  {
    if |s| > 0 && forall i :: 0 <= i < |s| ==> IsDigitOf(s[i], radix) then Some(DigitsValue(s, radix)) else None
  }

  /** Upper-casing keeps the value of every digit. */
  lemma {:induction false} DigitsValueUpper(s: string, radix: nat)
    ensures DigitsValue(Upper(s), radix) == DigitsValue(s, radix)
    decreases |s|
  {
    if s != [] {
      assert Upper(s)[..|s| - 1] == Upper(s[..|s| - 1]);
      DigitsValueUpper(s[..|s| - 1], radix);
    }
  }

  /** `n.toString(radix).toUpperCase()` uses only `0-9` and `A-Z` and reads back as `n`. */
  lemma UpperRadixRoundTrip(n: nat, radix: nat)
    requires 2 <= radix <= 36
    ensures var s := Upper(Radix(n, radix));
      (forall i :: 0 <= i < |s| ==> ('0' <= s[i] <= '9' || 'A' <= s[i] <= 'Z')) &&
      ParseRadix(s, radix) == Some(n)
  {
    var s := Radix(n, radix);
    DigitsValueUpper(s, radix);
    forall i | 0 <= i < |s| ensures IsDigitOf(Upper(s)[i], radix) {
    }
  }
}
