/**
 * The string operations of JavaScript that the core uses: `trim`,
 * `toLowerCase`, `includes`, `startsWith` and removal of a character class.
 */
module Text {

  /** The characters `String.prototype.trim` removes: white space and line terminators. */
  predicate IsSpace(c: char)
  {
    c == ' ' || c == '\t' || c == '\n' || c == '\r' || c == '\U{B}' || c == '\U{C}'
    || c == '\U{A0}' || c == '\U{1680}' || ('\U{2000}' <= c <= '\U{200A}')
    || c == '\U{2028}' || c == '\U{2029}' || c == '\U{202F}' || c == '\U{205F}'
    || c == '\U{3000}' || c == '\U{FEFF}'
  }

  function TrimStart(s: string): (r: string)
    ensures |r| <= |s| && r == s[|s| - |r|..]
    ensures r == [] || !IsSpace(r[0])
    ensures forall i :: 0 <= i < |s| - |r| ==> IsSpace(s[i])
  {
    if s != [] && IsSpace(s[0]) then TrimStart(s[1..]) else s
  }

  function TrimEnd(s: string): (r: string)
    ensures |r| <= |s| && r == s[..|r|]
    ensures r == [] || !IsSpace(r[|r| - 1])
    ensures forall i :: |r| <= i < |s| ==> IsSpace(s[i])
  {
    if s != [] && IsSpace(s[|s| - 1]) then TrimEnd(s[..|s| - 1]) else s
  }

  /** Every character of s is white space. */
  predicate Blank(s: string)
  {
    forall i :: 0 <= i < |s| ==> IsSpace(s[i])
  }

  /** `s.trim()`: the longest infix without white space at either end. */
  function Trim(s: string): (r: string)
    ensures r == [] || (!IsSpace(r[0]) && !IsSpace(r[|r| - 1]))
    ensures exists i :: OccursAt(s, r, i)
  {
    var t := TrimStart(s);
    var r := TrimEnd(t);
    assert OccursAt(s, r, |s| - |t|);
    r
  }

  /**
   * All that trimming cuts off, before and after the result, is white
   * space: with the ends `Trim` keeps, this pins the result down.
   */
  lemma TrimDropsBlanks(s: string)
    ensures var r := Trim(s);
            exists i :: OccursAt(s, r, i) && Blank(s[..i]) && Blank(s[i + |r|..])
  {
    var t := TrimStart(s);
    var r := TrimEnd(t);
    var i := |s| - |t|;
    assert OccursAt(s, r, i);
    var head := s[..i];
    forall m | 0 <= m < |head| ensures IsSpace(head[m]) {
      assert head[m] == s[m];
    }
    var tail := s[i + |r|..];
    forall m | 0 <= m < |tail| ensures IsSpace(tail[m]) {
      assert tail[m] == t[|r| + m];
    }
  }

  /** p occurs in s starting at index i. */
  predicate OccursAt(s: string, p: string, i: int)
  {
    0 <= i <= |s| - |p| && s[i..i + |p|] == p
  }

  /** `toLowerCase` on the ASCII letters. */
  function LowerChar(c: char): char
  {
    if 'A' <= c <= 'Z' then (c as int + 32) as char else c
  }

  function Lower(s: string): (r: string)
    ensures |r| == |s|
    ensures forall i :: 0 <= i < |s| ==> r[i] == LowerChar(s[i])
  {
    seq(|s|, i requires 0 <= i < |s| => LowerChar(s[i]))
  }

  /** `s.startsWith(p)` */
  predicate StartsWith(s: string, p: string)
  {
    |p| <= |s| && s[..|p|] == p
  }

  /** `s.includes(p)` */
  predicate Contains(s: string, p: string)
  {
    exists i | 0 <= i <= |s| :: OccursAt(s, p, i)
  }

  /** Remove every character satisfying `drop`, as `s.replace(/[...]/g, '')` does. */
  function RemoveAll(s: string, drop: char -> bool): (r: string)
    ensures |r| <= |s|
    ensures forall c :: c in r ==> c in s && !drop(c)
    ensures forall c :: c in s && !drop(c) ==> c in r
  {
    if s == [] then []
    else if drop(s[0]) then RemoveAll(s[1..], drop)
    else [s[0]] + RemoveAll(s[1..], drop)
  }

  /** A single character is kept exactly when it is not dropped. */
  lemma RemoveAllOne(c: char, drop: char -> bool)
    ensures RemoveAll([c], drop) == if drop(c) then [] else [c]
  {
  }

  /**
   * Removal works piece by piece: together with `RemoveAllOne` this says
   * the kept characters appear in their original order and number.
   */
  lemma {:induction false} RemoveAllAppend(a: string, b: string, drop: char -> bool)
    ensures RemoveAll(a + b, drop) == RemoveAll(a, drop) + RemoveAll(b, drop)
  {
    if a == [] {
      assert a + b == b;
    } else {
      assert (a + b)[0] == a[0] && (a + b)[1..] == a[1..] + b;
      RemoveAllAppend(a[1..], b, drop);
      if !drop(a[0]) {
        calc {
          RemoveAll(a + b, drop);
          [a[0]] + RemoveAll(a[1..] + b, drop);
          [a[0]] + (RemoveAll(a[1..], drop) + RemoveAll(b, drop));
          ([a[0]] + RemoveAll(a[1..], drop)) + RemoveAll(b, drop);
        }
      }
    }
  }
}

/**
 * The two ways the core counts the length of a string. JavaScript's
 * `.length` (and Mongoose's `minlength`, which reads it) counts UTF-16 code
 * units, so a character outside the Basic Multilingual Plane counts twice.
 * The `isLength` rule of the validator library counts a surrogate pair once
 * and does not count the variation selectors U+FE0E and U+FE0F.
 */
module Lengths {
  import opened Text

  /** A character JavaScript stores as a surrogate pair. */
  predicate Astral(c: char)
  {
    c as int >= 0x1_0000
  }

  /** The presentation selectors the validator leaves out of a length. */
  predicate VariationSelector(c: char)
  {
    c == '\U{FE0E}' || c == '\U{FE0F}'
  }

  /** `s.length` in JavaScript: one unit per character, two for an astral one. */
  function Utf16Length(s: string): (n: nat)
    ensures |s| <= n <= 2 * |s|
  {
    if s == [] then 0 else (if Astral(s[0]) then 2 else 1) + Utf16Length(s[1..])
  }

  /** `.length` counts characters exactly when none is astral, and twice them exactly when all are. */
  lemma {:induction false} Utf16LengthExact(s: string)
    ensures Utf16Length(s) == |s| <==> forall i :: 0 <= i < |s| ==> !Astral(s[i])
    ensures Utf16Length(s) == 2 * |s| <==> forall i :: 0 <= i < |s| ==> Astral(s[i])
  {
    if s != [] {
      Utf16LengthExact(s[1..]);
      assert forall i :: 0 < i < |s| ==> s[i] == s[1..][i - 1];
    }
  }

  /** The length `isLength` measures: characters other than the variation selectors. */
  function IsLengthCount(s: string): (n: nat)
    ensures n <= |s|
  {
    |RemoveAll(s, VariationSelector)|
  }

  /** `isLength` counts every character exactly when there is no variation selector. */
  lemma IsLengthCountExact(s: string)
    ensures IsLengthCount(s) == |s| <==> forall i :: 0 <= i < |s| ==> !VariationSelector(s[i])
  {
    RemoveAllCount(s, VariationSelector);
  }

  /** Removal shortens a string exactly when some character is dropped. */
  lemma {:induction false} RemoveAllCount(s: string, drop: char -> bool)
    ensures |RemoveAll(s, drop)| == |s| <==> forall i :: 0 <= i < |s| ==> !drop(s[i])
  {
    if s != [] {
      RemoveAllCount(s[1..], drop);
      assert forall i :: 0 < i < |s| ==> s[i] == s[1..][i - 1];
      if !(forall i :: 0 <= i < |s| ==> !drop(s[i])) && !drop(s[0]) {
        var i :| 0 <= i < |s| && drop(s[i]);
        assert drop(s[1..][i - 1]);
      }
    }
  }

  /** Text made of characters below the selectors, such as ASCII, measures its own length. */
  lemma PlainCount(s: string)
    requires forall i :: 0 <= i < |s| ==> s[i] < '\U{FE0E}'
    ensures IsLengthCount(s) == |s|
  {
    IsLengthCountExact(s);
  }

  /** The same for a four-character word. */
  lemma PlainWordCount(a: char, b: char, c: char, d: char)
    requires a < '\U{FE0E}' && b < '\U{FE0E}' && c < '\U{FE0E}' && d < '\U{FE0E}'
    ensures IsLengthCount([a, b, c, d]) == 4
  {
    PlainCount([a, b, c, d]);
  }

  /** Neither count exceeds the other: `isLength` never measures more than `.length`. */
  lemma IsLengthWithinUtf16(s: string)
    ensures IsLengthCount(s) <= |s| <= Utf16Length(s)
  {
  }

  /** Three astral emoji are six code units, so Mongoose and `.length < 6` accept them. */
  lemma EmojiPasswordLength()
    ensures Utf16Length("\U{1F600}\U{1F600}\U{1F600}") == 6
    ensures IsLengthCount("\U{1F600}\U{1F600}\U{1F600}") == 3
  {
  }

  /** A trailing U+FE0F is not counted by `isLength`. */
  lemma SelectorNotCounted()
    ensures IsLengthCount("abcde\U{FE0F}") == 5
    ensures Utf16Length("abcde\U{FE0F}") == 6
  {
    var plain, sel := "abcde", "\U{FE0F}";
    assert plain + sel == "abcde\U{FE0F}";
    PlainCount(plain);
    RemoveAllAppend(plain, sel, VariationSelector);
    RemoveAllOne('\U{FE0F}', VariationSelector);
  }
}
