/**
 * The JavaScript string operations the client relies on, over `seq<char>`:
 * `trim`, `split` on one character, `join`, removal of a character class,
 * decimal digits, and the default string order used by `Array.prototype.sort`.
 */
module Text {

  /** The characters `String.prototype.trim` removes: ECMAScript WhiteSpace and LineTerminator. */
  predicate IsSpace(c: char) {
    c in Spaces
  }

  const Spaces: set<char> := {
    '\t', '\n', '\U{000B}', '\U{000C}', '\r', ' ', '\U{00A0}', '\U{1680}',
    '\U{2000}', '\U{2001}', '\U{2002}', '\U{2003}', '\U{2004}', '\U{2005}',
    '\U{2006}', '\U{2007}', '\U{2008}', '\U{2009}', '\U{200A}',
    '\U{2028}', '\U{2029}', '\U{202F}', '\U{205F}', '\U{3000}', '\U{FEFF}'
  }

  /** The number of white-space characters `s` starts with. */
  function Leading(s: string): (n: nat)
    ensures n <= |s|
    ensures forall i :: 0 <= i < n ==> IsSpace(s[i])
    ensures n < |s| ==> !IsSpace(s[n])
  {
    if |s| > 0 && IsSpace(s[0]) then 1 + Leading(s[1..]) else 0
  }

  /** The number of white-space characters `s` ends with. */
  function Trailing(s: string): (n: nat)
    ensures n <= |s|
    ensures forall i :: |s| - n <= i < |s| ==> IsSpace(s[i])
    ensures n < |s| ==> !IsSpace(s[|s| - n - 1])
  {
    if |s| > 0 && IsSpace(s[|s| - 1]) then 1 + Trailing(s[..|s| - 1]) else 0
  }

  /** Where the trimmed text ends in `s`. */
  function TrimEnd(s: string): (b: nat)
    ensures Leading(s) <= b <= |s|
  {
    |s| - Trailing(s[Leading(s)..])
  }

  /** `s.trim()`: the text between the leading and the trailing white space. */
  function Trim(s: string): (r: string)
    ensures r == s[Leading(s)..TrimEnd(s)]
    ensures r == [] <==> forall i :: 0 <= i < |s| ==> IsSpace(s[i])
    ensures r != [] ==> !IsSpace(r[0]) && !IsSpace(r[|r| - 1])
  {
    var a := Leading(s);
    assert a < |s| ==> TrimEnd(s) > a;
    s[a..TrimEnd(s)]
  }

  /** A string JavaScript's `s.trim()` treats as falsy. */
  predicate IsBlank(s: string) {
    Trim(s) == []
  }

  /** True iff no character of `s` is in `bad`. */
  predicate Avoids(s: string, bad: set<char>) {
    forall i :: 0 <= i < |s| ==> s[i] !in bad
  }

  lemma TrimAvoids(s: string, bad: set<char>)
    requires Avoids(s, bad)
    ensures Avoids(Trim(s), bad)
  {
    var r, a := Trim(s), Leading(s);
    forall i | 0 <= i < |r| ensures r[i] !in bad {
      assert r[i] == s[a + i];
    }
  }

  /** What the removal keeps of one character. */
  function Kept(c: char, bad: set<char>): string {
    if c in bad then [] else [c]
  }

  /** `s.replace(/[...]/g, '')`: every character of `bad` removed. */
  function RemoveAll(s: string, bad: set<char>): (r: string)
    ensures Avoids(r, bad)
    ensures |r| <= |s|
  {
    if s == [] then []
    else Kept(s[0], bad) + RemoveAll(s[1..], bad)
  }

  /** Every character outside `bad` is kept, as often as it occurs. */
  lemma {:induction false} RemoveAllKeeps(s: string, bad: set<char>)
    ensures forall c :: c !in bad ==> multiset(RemoveAll(s, bad))[c] == multiset(s)[c]
  {
    if s != [] {
      RemoveAllKeeps(s[1..], bad);
      assert s == [s[0]] + s[1..];
      assert multiset(s) == multiset{s[0]} + multiset(s[1..]);
      assert multiset(RemoveAll(s, bad)) == multiset(Kept(s[0], bad)) + multiset(RemoveAll(s[1..], bad));
    }
  }

  /** A text with nothing to remove comes back unchanged. */
  lemma {:induction false} RemoveAllClean(s: string, bad: set<char>)
    requires Avoids(s, bad)
    ensures RemoveAll(s, bad) == s
  {
    if s != [] {
      RemoveAllClean(s[1..], bad);
      assert s == [s[0]] + s[1..];
    }
  }

  /** The removal works character by character, so the kept characters keep their order. */
  lemma {:induction false} RemoveAllAppend(a: string, b: string, bad: set<char>)
    ensures RemoveAll(a + b, bad) == RemoveAll(a, bad) + RemoveAll(b, bad)
  {
    if a == [] {
      assert a + b == b;
    } else {
      RemoveAllAppend(a[1..], b, bad);
      assert (a + b)[0] == a[0] && (a + b)[1..] == a[1..] + b;
      AppendAssociates(Kept(a[0], bad), RemoveAll(a[1..], bad), RemoveAll(b, bad));
    }
  }

  lemma AppendAssociates(x: string, y: string, z: string)
    ensures x + (y + z) == (x + y) + z
  {
  }

  /** `s.split(sep)` for a one-character separator: never empty, `"".split(sep) == [""]`. */
  function Split(s: string, sep: char): (parts: seq<string>)
    ensures |parts| >= 1
    ensures forall i :: 0 <= i < |parts| ==> sep !in parts[i]
  {
    if s == [] then [[]]
    else
      var rest := Split(s[1..], sep);
      if s[0] == sep then [[]] + rest
      else [[s[0]] + rest[0]] + rest[1..]
  }

  /** `parts.join(sep)`. */
  function Join(parts: seq<string>, sep: char): string {
    if parts == [] then []
    else if |parts| == 1 then parts[0]
    else parts[0] + [sep] + Join(parts[1..], sep)
  }

  /** The concatenation of `parts`, in order (`acc += part` for each part). */
  function Concat(parts: seq<string>): string {
    if parts == [] then [] else Concat(parts[..|parts| - 1]) + parts[|parts| - 1]
  }

  /** Every part but the last: the complete, separator-terminated pieces. */
  function Init(parts: seq<string>): seq<string>
    requires |parts| >= 1
  {
    parts[..|parts| - 1]
  }

  function Last(parts: seq<string>): string
    requires |parts| >= 1
  {
    parts[|parts| - 1]
  }

  /** Joining the pieces of a split gives the string back. */
  lemma {:induction false} JoinSplit(s: string, sep: char)
    ensures Join(Split(s, sep), sep) == s
  {
    if s != [] {
      var rest := Split(s[1..], sep);
      JoinSplit(s[1..], sep);
      if s[0] == sep {
        assert Split(s, sep) == [[]] + rest;
        assert s == [sep] + s[1..];
      } else {
        var parts := Split(s, sep);
        assert parts == [[s[0]] + rest[0]] + rest[1..];
        if |rest| == 1 {
          assert Join(rest, sep) == rest[0];
        } else {
          assert Join(rest, sep) == rest[0] + [sep] + Join(rest[1..], sep);
          assert parts[1..] == rest[1..];
        }
        assert s == [s[0]] + s[1..];
      }
    }
  }

  /** Splitting `p + [sep] + t` where `p` has no separator yields `p` first. */
  lemma {:induction false} SplitAtSeparator(p: string, sep: char, t: string)
    requires sep !in p
    ensures Split(p + [sep] + t, sep) == [p] + Split(t, sep)
  {
    if p == [] {
      assert [sep] + t == p + [sep] + t;
      assert ([sep] + t)[1..] == t;
    } else {
      assert (p + [sep] + t)[1..] == p[1..] + [sep] + t;
      SplitAtSeparator(p[1..], sep, t);
      assert [p[0]] + p[1..] == p;
    }
  }

  lemma {:induction false} SplitNoSeparator(p: string, sep: char)
    requires sep !in p
    ensures Split(p, sep) == [p]
  {
    if p != [] {
      SplitNoSeparator(p[1..], sep);
      assert [p[0]] + p[1..] == p;
    }
  }

  /** Splitting a join of separator-free pieces gives the pieces back. */
  lemma {:induction false} SplitJoin(parts: seq<string>, sep: char)
    requires |parts| >= 1
    requires forall i :: 0 <= i < |parts| ==> sep !in parts[i]
    ensures Split(Join(parts, sep), sep) == parts
  {
    if |parts| == 1 {
      SplitNoSeparator(parts[0], sep);
    } else {
      SplitJoin(parts[1..], sep);
      SplitAtSeparator(parts[0], sep, Join(parts[1..], sep));
      assert [parts[0]] + parts[1..] == parts;
    }
  }

  /** One step of `Split`: how a leading character extends the first piece. */
  lemma SplitCons(c: char, t: string, sep: char)
    ensures Split([c] + t, sep) == if c == sep then [[]] + Split(t, sep)
                                  else [[c] + Split(t, sep)[0]] + Split(t, sep)[1..]
  {
    assert ([c] + t)[1..] == t;
  }

  /**
   * Appending text after a buffer: the complete pieces of `a` stay as they
   * are, and the rest is the split of `a`'s trailing piece extended by `b`.
   * This is why line framing does not depend on where chunks are cut.
   */
  lemma {:induction false} SplitAppend(a: string, b: string, sep: char)
    ensures Split(a + b, sep) == Init(Split(a, sep)) + Split(Last(Split(a, sep)) + b, sep)
  {
    if a == [] {
      assert a + b == b;
    } else {
      var c, a' := a[0], a[1..];
      assert a == [c] + a';
      assert a + b == [c] + (a' + b);
      SplitAppend(a', b, sep);
      SplitCons(c, a' + b, sep);
      SplitCons(c, a', sep);
      if c == sep {
        SplitAppendSeparator(Split(a', sep), Split(a' + b, sep), Split(Last(Split(a', sep)) + b, sep));
      } else {
        var rest := Split(a', sep);
        SplitCons(c, Last(rest) + b, sep);
        assert ([c] + Last(rest)) + b == [c] + (Last(rest) + b);
        SplitAppendOther(c, Split(a', sep), Split(a' + b, sep), Split(Last(Split(a', sep)) + b, sep));
      }
    }
  }

  lemma SplitAppendSeparator(rest: seq<string>, tail: seq<string>, more: seq<string>)
    requires |rest| >= 1 && tail == Init(rest) + more
    ensures [[]] + tail == Init([[]] + rest) + more
    ensures Last([[]] + rest) == Last(rest)
  {
    assert Init([[]] + rest) == [[]] + Init(rest);
  }

  lemma SplitAppendOther(c: char, rest: seq<string>, tail: seq<string>, more: seq<string>)
    requires |rest| >= 1 && |more| >= 1 && tail == Init(rest) + more
    ensures var parts := [[c] + rest[0]] + rest[1..];
      [[c] + tail[0]] + tail[1..]
      == Init(parts) + (if |rest| == 1 then [[c] + more[0]] + more[1..] else more)
    ensures var parts := [[c] + rest[0]] + rest[1..];
      Last(parts) == if |rest| == 1 then [c] + Last(rest) else Last(rest)
  {
    var parts := [[c] + rest[0]] + rest[1..];
    if |rest| > 1 {
      assert Init(parts) == [[c] + rest[0]] + Init(rest)[1..];
    }
  }

  lemma {:induction false} SplitAvoids(s: string, sep: char, bad: set<char>)
    requires Avoids(s, bad)
    ensures forall i :: 0 <= i < |Split(s, sep)| ==> Avoids(Split(s, sep)[i], bad)
  {
    if s != [] {
      SplitAvoids(s[1..], sep, bad);
    }
  }

  lemma {:induction false} JoinAvoids(parts: seq<string>, sep: char, bad: set<char>)
    requires sep !in bad
    requires forall i :: 0 <= i < |parts| ==> Avoids(parts[i], bad)
    ensures Avoids(Join(parts, sep), bad)
  {
    if |parts| > 1 {
      JoinAvoids(parts[1..], sep, bad);
    }
  }

  predicate IsDigit(c: char) {
    '0' <= c <= '9'
  }

  predicate AllDigits(s: string) {
    forall i :: 0 <= i < |s| ==> IsDigit(s[i])
  }

  /** `parseInt(s, 10)` on a string of decimal digits. */
  function DigitsValue(s: string): nat
    requires AllDigits(s)
  {
    if s == [] then 0
    else DigitsValue(s[..|s| - 1]) * 10 + (s[|s| - 1] as int - '0' as int)
  }

  /** The decimal rendering of `n`, as a template literal writes it. */
  function NatToString(n: nat): (s: string)
    ensures |s| >= 1 && AllDigits(s)
  {
    var d := ['0' + ((n % 10) as char)];
    if n < 10 then d else NatToString(n / 10) + d
  }

  /** Parsing a rendered number gives the number back. */
  lemma {:induction false} DigitsValueOfNatToString(n: nat)
    ensures DigitsValue(NatToString(n)) == n
  {
    var s := NatToString(n);
    if n >= 10 {
      DigitsValueOfNatToString(n / 10);
      assert s[..|s| - 1] == NatToString(n / 10);
    }
  }

  /** JavaScript's default sort order on strings: lexicographic by character. */
  predicate StrLe(a: string, b: string) {
    a == [] || (b != [] && (a[0] < b[0] || (a[0] == b[0] && StrLe(a[1..], b[1..]))))
  }

  lemma {:induction false} StrLeTotal(a: string, b: string)
    ensures StrLe(a, b) || StrLe(b, a)
  {
    if a != [] && b != [] && a[0] == b[0] {
      StrLeTotal(a[1..], b[1..]);
    }
  }

  lemma {:induction false} StrLeTransitive(a: string, b: string, c: string)
    requires StrLe(a, b) && StrLe(b, c)
    ensures StrLe(a, c)
  {
    if a != [] && b != [] && c != [] && a[0] == b[0] && b[0] == c[0] {
      StrLeTransitive(a[1..], b[1..], c[1..]);
    }
  }

  lemma {:induction false} StrLeAntisymmetric(a: string, b: string)
    requires StrLe(a, b) && StrLe(b, a)
    ensures a == b
  {
    if a != [] && b != [] {
      StrLeAntisymmetric(a[1..], b[1..]);
      assert a == [a[0]] + a[1..] && b == [b[0]] + b[1..];
    }
  }
}
