/** The pieces of JavaScript value and string semantics that the portfolio's
    components rely on: optional values, truthiness, `String.prototype.trim`,
    `includes`, `toLowerCase`, `replace` and `Array.prototype.filter`. */
module Js {

  /** An optional configuration value: `undefined` or a value. */
  datatype Option<T> = None | Some(value: T)

  /** Truthiness of an optional string: `undefined` and `""` are falsy. */
  predicate Truthy(o: Option<string>) {
    o.Some? && o.value != ""
  }

  /** `o || fallback` on an optional string. */
  function OrElse(o: Option<string>, fallback: string): (r: string)
    ensures Truthy(o) ==> r == o.value
    ensures !Truthy(o) ==> r == fallback
  {
    if Truthy(o) then o.value else fallback
  }

  /** `s || ""` on an optional string: the value, or "" when it is absent. */
  function OrEmpty(o: Option<string>): (r: string)
    ensures o.Some? ==> r == o.value
    ensures o.None? ==> r == ""
  {
    if o.Some? then o.value else ""
  }

  // ---------------------------------------------------------------- trim

  /** The code points ECMAScript's `trim` removes: WhiteSpace and LineTerminator
      (tab, VT, FF, space, NBSP, BOM, the Zs category, LF, CR, LS, PS). */
  predicate IsWhiteSpace(c: char) {
    c == '\t' || c == '\U{000B}' || c == '\U{000C}' || c == ' ' || c == '\U{00A0}'
    || c == '\U{FEFF}' || c == '\U{1680}' || ('\U{2000}' <= c <= '\U{200A}')
    || c == '\U{202F}' || c == '\U{205F}' || c == '\U{3000}'
    || c == '\n' || c == '\r' || c == '\U{2028}' || c == '\U{2029}'
  }

  /** Removes leading white space. */
  function TrimStart(s: string): string {
    if s != [] && IsWhiteSpace(s[0]) then TrimStart(s[1..]) else s
  }

  /** What `TrimStart` leaves is a suffix not starting with white space, and
      everything it cut off is white space. */
  lemma {:induction false} TrimStartCuts(s: string)
    ensures var r := TrimStart(s);
      |r| <= |s| && r == s[|s| - |r|..]
      && (r != [] ==> !IsWhiteSpace(r[0]))
      && forall i :: 0 <= i < |s| - |r| ==> IsWhiteSpace(s[i])
  {
    if s != [] && IsWhiteSpace(s[0]) {
      var t := s[1..];
      TrimStartCuts(t);
      var r := TrimStart(s);
      assert r == TrimStart(t);
      assert t[|t| - |r|..] == s[|s| - |r|..];
      forall i | 0 <= i < |s| - |r|
        ensures IsWhiteSpace(s[i])
      {
        if i > 0 {
          assert s[i] == t[i - 1];
        }
      }
    }
  }

  /** Removes trailing white space. */
  function TrimEnd(s: string): string {
    if s != [] && IsWhiteSpace(s[|s| - 1]) then TrimEnd(s[..|s| - 1]) else s
  }

  /** What `TrimEnd` leaves is a prefix not ending with white space, and
      everything it cut off is white space. */
  lemma {:induction false} TrimEndCuts(s: string)
    ensures var r := TrimEnd(s);
      |r| <= |s| && r == s[..|r|]
      && (r != [] ==> !IsWhiteSpace(r[|r| - 1]))
      && forall i :: |r| <= i < |s| ==> IsWhiteSpace(s[i])
  {
    if s != [] && IsWhiteSpace(s[|s| - 1]) {
      var t := s[..|s| - 1];
      TrimEndCuts(t);
      var r := TrimEnd(s);
      assert r == TrimEnd(t);
      assert t[..|r|] == s[..|r|];
      forall i | |r| <= i < |s|
        ensures IsWhiteSpace(s[i])
      {
        if i < |s| - 1 {
          assert s[i] == t[i];
        }
      }
    }
  }

  /** `s.trim()`: white space removed from both ends. */
  function Trim(s: string): string {
    TrimEnd(TrimStart(s))
  }

  /** The trimmed string is a slice of `s` that neither starts nor ends with
      white space. */
  lemma TrimIsInnerSlice(s: string)
    ensures exists i :: OccursAt(s, Trim(s), i)
    ensures var r := Trim(s); r != [] ==> !IsWhiteSpace(r[0]) && !IsWhiteSpace(r[|r| - 1])
  {
    var t := TrimStart(s);
    var r := TrimEnd(t);
    assert Trim(s) == r;
    TrimStartCuts(s);
    TrimEndCuts(t);
    var k := |s| - |t|;
    if r != [] {
      assert r[0] == t[0];
    }
    assert s[k..k + |r|] == r by {
      assert t == s[k..];
      assert r == t[..|r|];
    }
    assert OccursAt(s, r, k);
  }

  /** `s.trim() === ""` holds exactly when every character of `s` is white space. */
  lemma BlankIffAllWhiteSpace(s: string)
    ensures Trim(s) == "" <==> forall i :: 0 <= i < |s| ==> IsWhiteSpace(s[i])
  {
    TrimIsInnerSlice(s);
    TrimStartCuts(s);
    TrimEndCuts(TrimStart(s));
    if Trim(s) != "" {
      var r := Trim(s);
      var i :| OccursAt(s, r, i);
      assert s[i] == r[0];
    }
  }

  /** The configuration idiom `x && x.trim() !== ""`: present, and not blank. */
  predicate Filled(o: Option<string>) {
    Truthy(o) && Trim(o.value) != ""
  }

  /** A filled value is one holding at least one character that is not white space. */
  lemma FilledIffVisible(o: Option<string>)
    ensures Filled(o) <==> o.Some? && exists i :: 0 <= i < |o.value| && !IsWhiteSpace(o.value[i])
  {
    if o.Some? {
      BlankIffAllWhiteSpace(o.value);
    }
  }

  // ------------------------------------------------------------ includes

  /** `sub` occurs in `s` at position `i`. */
  predicate OccursAt(s: string, sub: string, i: int) {
    0 <= i && i + |sub| <= |s| && s[i..i + |sub|] == sub
  }

  /** `s.includes(sub)`: substring containment, anywhere in `s`. */
  function Includes(s: string, sub: string): (b: bool)
    ensures b <==> exists i :: OccursAt(s, sub, i)
    decreases |s|
  {
    if |sub| <= |s| && s[..|sub|] == sub then
      assert OccursAt(s, sub, 0);
      true
    else if s == [] then
      assert forall i :: !OccursAt(s, sub, i);
      false
    else
      var b := Includes(s[1..], sub);
      assert b ==> exists i :: OccursAt(s, sub, i) by {
        if b {
          var j :| OccursAt(s[1..], sub, j);
          assert s[1..][j..j + |sub|] == s[j + 1..j + 1 + |sub|];
          assert OccursAt(s, sub, j + 1);
        }
      }
      assert (exists i :: OccursAt(s, sub, i)) ==> b by {
        if exists i :: OccursAt(s, sub, i) {
          var i :| OccursAt(s, sub, i);
          assert i != 0;
          assert s[1..][i - 1..i - 1 + |sub|] == s[i..i + |sub|];
          assert OccursAt(s[1..], sub, i - 1);
        }
      }
      b
  }

  /** Nothing but the empty string occurs in the empty string. */
  lemma NothingInEmpty(sub: string)
    requires sub != ""
    ensures !Includes("", sub)
  {
  }

  // --------------------------------------------------------- toLowerCase

  /** Lower-cases the ASCII capitals and leaves every other character alone. */
  function LowerChar(c: char): (r: char)
    ensures 'A' <= c <= 'Z' ==> r as int == c as int + 32
    ensures !('A' <= c <= 'Z') ==> r == c
  {
    if 'A' <= c <= 'Z' then (c as int + 32) as char else c
  }

  /** `s.toLowerCase()`, restricted to the ASCII letters. */
  function ToLower(s: string): (r: string)
    ensures |r| == |s|
    ensures forall i :: 0 <= i < |s| ==> r[i] == LowerChar(s[i])
  {
    if s == [] then [] else [LowerChar(s[0])] + ToLower(s[1..])
  }

  /** Lower-casing twice is lower-casing once. */
  lemma ToLowerIdempotent(s: string)
    ensures ToLower(ToLower(s)) == ToLower(s)
  {
  }

  /** A lower-cased string has no ASCII capital in it. */
  lemma ToLowerHasNoCapitals(s: string)
    ensures forall i :: 0 <= i < |s| ==> !('A' <= ToLower(s)[i] <= 'Z')
  {
  }

  /** A string without ASCII capitals is its own lower case. */
  lemma ToLowerOfLower(s: string)
    requires forall i :: 0 <= i < |s| ==> !('A' <= s[i] <= 'Z')
    ensures ToLower(s) == s
  {
  }

  // ------------------------------------------------------------- replace

  predicate IsDigit(c: char) {
    '0' <= c <= '9'
  }

  /** `s.replace(/[^0-9]/g, "")`: the digits of `s`, in their order. */
  function StripNonDigits(s: string): string {
    if s == [] then []
    else if IsDigit(s[0]) then [s[0]] + StripNonDigits(s[1..])
    else StripNonDigits(s[1..])
  }

  /** What remains is no longer than `s` and consists of digits only. */
  lemma {:induction false} StripNonDigitsOnlyDigits(s: string)
    ensures |StripNonDigits(s)| <= |s|
    ensures forall i :: 0 <= i < |StripNonDigits(s)| ==> IsDigit(StripNonDigits(s)[i])
  {
    if s != [] {
      StripNonDigitsOnlyDigits(s[1..]);
    }
  }

  /** Stripping distributes over concatenation, so the digits keep their order. */
  lemma {:induction false} StripNonDigitsAppend(a: string, b: string)
    ensures StripNonDigits(a + b) == StripNonDigits(a) + StripNonDigits(b)
  {
    if a != [] {
      assert (a + b)[0] == a[0] && (a + b)[1..] == a[1..] + b;
      StripNonDigitsAppend(a[1..], b);
    } else {
      assert a + b == b;
    }
  }

  /** One character at a time: a digit is kept, anything else dropped. */
  lemma StripNonDigitsCons(c: char, s: string)
    ensures StripNonDigits([c] + s) == (if IsDigit(c) then [c] else []) + StripNonDigits(s)
  {
    assert ([c] + s)[1..] == s;
  }

  /** A string of digits is left as it is. */
  lemma {:induction false} StripNonDigitsKeepsDigits(s: string)
    requires forall i :: 0 <= i < |s| ==> IsDigit(s[i])
    ensures StripNonDigits(s) == s
  {
    if s != [] {
      StripNonDigitsKeepsDigits(s[1..]);
    }
  }

  /** Every digit of `s` survives, as many times as it occurs. */
  lemma {:induction false} StripNonDigitsCounts(s: string, d: char)
    requires IsDigit(d)
    ensures multiset(StripNonDigits(s))[d] == multiset(s)[d]
  {
    if s != [] {
      assert s == [s[0]] + s[1..];
      StripNonDigitsCounts(s[1..], d);
    }
  }

  /** Position of the first `c` in `s`. */
  function FirstIndex(s: string, c: char): (k: nat)
    requires c in s
    ensures k < |s| && s[k] == c && c !in s[..k]
  {
    if s[0] == c then 0 else 1 + FirstIndex(s[1..], c)
  }

  /** The first `c` of `a + [c] + b`, when `a` holds none, is the one after `a`. */
  lemma {:induction false} FirstIndexAfter(a: string, c: char, b: string)
    requires c !in a
    ensures c in a + [c] + b && FirstIndex(a + [c] + b, c) == |a|
  {
    var s := a + [c] + b;
    assert s[|a|] == c;
    if a != [] {
      FirstIndexAfter(a[1..], c, b);
      assert s[1..] == a[1..] + [c] + b;
    }
  }

  /** `s.replace(c, "")` with a one-character string pattern: only the first
      occurrence of `c`, wherever it is, is removed. */
  function RemoveFirst(s: string, c: char): string {
    if s == [] then []
    else if s[0] == c then s[1..]
    else [s[0]] + RemoveFirst(s[1..], c)
  }

  /** Without a `c`, nothing is removed. */
  lemma {:induction false} RemoveFirstAbsent(s: string, c: char)
    requires c !in s
    ensures RemoveFirst(s, c) == s
  {
    if s != [] {
      assert s == [s[0]] + s[1..];
      RemoveFirstAbsent(s[1..], c);
    }
  }

  /** With a `c`, exactly the character at the first one goes. */
  lemma {:induction false} RemoveFirstPresent(s: string, c: char)
    requires c in s
    ensures RemoveFirst(s, c) == s[..FirstIndex(s, c)] + s[FirstIndex(s, c) + 1..]
  {
    if s[0] != c {
      var t := s[1..];
      assert s == [s[0]] + t;
      assert c in t;
      RemoveFirstPresent(t, c);
      var k := FirstIndex(t, c);
      assert FirstIndex(s, c) == k + 1;
      assert s[..k + 1] == [s[0]] + t[..k];
      assert s[k + 2..] == t[k + 1..];
    }
  }

  /** Exactly the character at the first `c` goes; nothing changes without one. */
  lemma RemoveFirstCutsFirst(s: string, c: char)
    ensures c !in s ==> RemoveFirst(s, c) == s
    ensures c in s ==> RemoveFirst(s, c) == s[..FirstIndex(s, c)] + s[FirstIndex(s, c) + 1..]
  {
    if c in s {
      RemoveFirstPresent(s, c);
    } else {
      RemoveFirstAbsent(s, c);
    }
  }

  /** Removing a character adds none: every character left was in the input. */
  lemma RemoveFirstOnlyRemoves(s: string, c: char)
    ensures forall x :: x in RemoveFirst(s, c) ==> x in s
  {
    RemoveFirstCutsFirst(s, c);
    if c in s {
      var k := FirstIndex(s, c);
      var r := RemoveFirst(s, c);
      assert forall i :: 0 <= i < |r| ==> r[i] == (if i < k then s[i] else s[i + 1]);
    }
  }

  // -------------------------------------------------------------- filter

  /** `s.filter(f)`. */
  function Filter<T(!new)>(s: seq<T>, f: T -> bool): (r: seq<T>)
    ensures |r| <= |s|
    ensures forall x :: x in r <==> x in s && f(x)
  {
    if s == [] then []
    else if f(s[0]) then [s[0]] + Filter(s[1..], f)
    else Filter(s[1..], f)
  }

  /** Filtering a sequence whose keys strictly increase keeps them strictly
      increasing: the survivors keep their relative order. */
  lemma {:induction false} FilterKeepsOrder<T(!new)>(s: seq<T>, f: T -> bool, key: T -> int)
    requires forall i, j :: 0 <= i < j < |s| ==> key(s[i]) < key(s[j])
    ensures forall i, j :: 0 <= i < j < |Filter(s, f)| ==> key(Filter(s, f)[i]) < key(Filter(s, f)[j])
  {
    if s != [] {
      FilterKeepsOrder(s[1..], f, key);
      var rest := Filter(s[1..], f);
      forall x | x in rest ensures key(s[0]) < key(x) {
        var j :| 0 <= j < |s[1..]| && s[1..][j] == x;
        assert s[j + 1] == x;
      }
    }
  }
}
