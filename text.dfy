/**
 * String primitives the JavaScript code relies on: the `\s` character
 * class and `String.prototype.trim`, ASCII letter and digit classes,
 * `toLowerCase`, `includes` and a code-point ordering that stands in for
 * `localeCompare`.
 */
module Text {

  /** The characters matched by `\s` and removed by `trim()` in ECMAScript. */
  predicate IsSpace(c: char)
  {
    var k := c as int;
    k == 0x09 || k == 0x0A || k == 0x0B || k == 0x0C || k == 0x0D || k == 0x20
    || k == 0xA0 || k == 0x1680 || (0x2000 <= k <= 0x200A) || k == 0x2028
    || k == 0x2029 || k == 0x202F || k == 0x205F || k == 0x3000 || k == 0xFEFF
  }

  predicate IsLower(c: char) { 'a' <= c <= 'z' }
  predicate IsUpper(c: char) { 'A' <= c <= 'Z' }
  predicate IsLetter(c: char) { IsLower(c) || IsUpper(c) }
  predicate IsDigit(c: char) { '0' <= c <= '9' }

  /** Some character of `s` satisfies `p` (a regex look-ahead `(?=.*[…])`). */
  predicate Exists(s: string, p: char -> bool)
  {
    exists i :: 0 <= i < |s| && p(s[i])
  }

  function TrimStart(s: string): (r: string)
    ensures |r| <= |s| && r == s[|s| - |r|..]
    ensures r != [] ==> !IsSpace(r[0])
    ensures forall i :: 0 <= i < |s| - |r| ==> IsSpace(s[i])
  {
    if s != [] && IsSpace(s[0]) then TrimStart(s[1..]) else s
  }

  function TrimEnd(s: string): (r: string)
    ensures |r| <= |s| && r == s[..|r|]
    ensures r != [] ==> !IsSpace(r[|r| - 1])
    ensures forall i :: |r| <= i < |s| ==> IsSpace(s[i])
  {
    if s != [] && IsSpace(s[|s| - 1]) then TrimEnd(s[..|s| - 1]) else s
  }

  /** `s.trim()`: `s` without its leading and trailing white space. */
  function Trim(s: string): (r: string)
    ensures |r| <= |s|
    ensures r != [] ==> !IsSpace(r[0]) && !IsSpace(r[|r| - 1])
    ensures exists i :: OccursAt(s, r, i)
  {
    var t := TrimStart(s);
    var r := TrimEnd(t);
    assert OccursAt(s, r, |s| - |t|);
    r
  }

  /** A string that neither starts nor ends with white space is its own trim. */
  lemma TrimUnpadded(s: string)
    requires s != [] && !IsSpace(s[0]) && !IsSpace(s[|s| - 1])
    ensures Trim(s) == s
  {
    assert TrimStart(s) == s;
  }

  /** A string made only of white space trims to the empty string. */
  lemma TrimAllSpace(s: string)
    requires forall i :: 0 <= i < |s| ==> IsSpace(s[i])
    ensures Trim(s) == []
  {
  }

  /** `toLowerCase()` on ASCII letters; every other character is unchanged. */
  function LowerChar(c: char): (d: char)
    ensures !IsUpper(d)
    ensures IsLetter(c) <==> IsLetter(d)
  {
    if IsUpper(c) then ((c as int) + 32) as char else c
  }

  function ToLower(s: string): (r: string)
    ensures |r| == |s| && forall i :: 0 <= i < |s| ==> r[i] == LowerChar(s[i])
  {
    seq(|s|, i requires 0 <= i < |s| => LowerChar(s[i]))
  }

  /** `sub` occurs in `s` at position `i`. */
  ghost predicate OccursAt(s: string, sub: string, i: int)
  {
    0 <= i && i + |sub| <= |s| && s[i..i + |sub|] == sub
  }

  /** `s.includes(sub)`. */
  function Includes(s: string, sub: string): (b: bool)
    ensures b <==> exists i :: OccursAt(s, sub, i)
  {
    if sub <= s then
      assert OccursAt(s, sub, 0);
      true
    else if s == [] then
      assert forall i :: !OccursAt(s, sub, i);
      false
    else
      var b := Includes(s[1..], sub);
      IncludesStep(s, sub);
      b
  }

  lemma IncludesStep(s: string, sub: string)
    requires s != [] && !(sub <= s)
    ensures (exists i :: OccursAt(s, sub, i)) <==> (exists i :: OccursAt(s[1..], sub, i))
  {
    if exists i :: OccursAt(s, sub, i) {
      var i :| OccursAt(s, sub, i);
      assert i != 0;
      assert s[1..][i - 1..i - 1 + |sub|] == s[i..i + |sub|];
      assert OccursAt(s[1..], sub, i - 1);
    }
    if exists i :: OccursAt(s[1..], sub, i) {
      var i :| OccursAt(s[1..], sub, i);
      assert s[1..][i..i + |sub|] == s[i + 1..i + 1 + |sub|];
      assert OccursAt(s, sub, i + 1);
    }
  }

  /** The empty string is included in every string (`"abc".includes("")`). */
  lemma IncludesEmpty(s: string)
    ensures Includes(s, "")
  {
  }

  /** Code-point ordering of strings, used for `a.localeCompare(b) <= 0`. */
  predicate LexLe(a: string, b: string)
  {
    if a == [] then true
    else if b == [] then false
    else if a[0] != b[0] then a[0] < b[0]
    else LexLe(a[1..], b[1..])
  }

  lemma {:induction false} LexLeTotal(a: string, b: string)
    ensures LexLe(a, b) || LexLe(b, a)
  {
    if a != [] && b != [] && a[0] == b[0] {
      LexLeTotal(a[1..], b[1..]);
    }
  }

  lemma {:induction false} LexLeTransitive(a: string, b: string, c: string)
    requires LexLe(a, b) && LexLe(b, c)
    ensures LexLe(a, c)
  {
    if a != [] && b != [] && c != [] && a[0] == b[0] && b[0] == c[0] {
      LexLeTransitive(a[1..], b[1..], c[1..]);
    }
  }

  // ---------------------------------------------------------------------------
  // Splitting on a separator

  /** `s.split(c)` for a one-character separator: every piece, empty ones included. */
  function Split(s: string, c: char): (parts: seq<string>)
    ensures |parts| >= 1
  {
    if s == [] then [""]
    else
      var init := Split(s[..|s| - 1], c);
      var last := s[|s| - 1];
      if last == c then init + [""]
      else init[..|init| - 1] + [init[|init| - 1] + [last]]
  }

  /** `parts.join(c)`. */
  function Join(parts: seq<string>, c: char): string
    requires |parts| >= 1
  {
    if |parts| == 1 then parts[0]
    else Join(parts[..|parts| - 1], c) + [c] + parts[|parts| - 1]
  }

  /** No piece of a split contains the separator. */
  lemma {:induction false} SplitPiecesFree(s: string, c: char)
    ensures forall k :: 0 <= k < |Split(s, c)| ==> c !in Split(s, c)[k]
  {
    if s != [] {
      SplitPiecesFree(s[..|s| - 1], c);
    }
  }

  /** Joining the pieces with the separator gives the string back. */
  lemma {:induction false} JoinSplit(s: string, c: char)
    ensures Join(Split(s, c), c) == s
  {
    if s != [] {
      var t, last := s[..|s| - 1], s[|s| - 1];
      assert s == t + [last];
      var init := Split(t, c);
      JoinSplit(t, c);
      if last == c {
        var parts := init + [""];
        assert Split(s, c) == parts;
        assert parts[..|init|] == init;
        assert Join(parts, c) == Join(init, c) + [c] + "";
      } else {
        var parts := init[..|init| - 1] + [init[|init| - 1] + [last]];
        assert Split(s, c) == parts;
        JoinLastGrows(init, c, last);
      }
    }
  }

  /** Appending a character to the last piece appends it to the joined string. */
  lemma JoinLastGrows(parts: seq<string>, c: char, x: char)
    requires |parts| >= 1
    ensures Join(parts[..|parts| - 1] + [parts[|parts| - 1] + [x]], c) == Join(parts, c) + [x]
  {
    var parts' := parts[..|parts| - 1] + [parts[|parts| - 1] + [x]];
    if |parts| > 1 {
      assert parts'[..|parts'| - 1] == parts[..|parts| - 1];
    }
  }

  /** Splitting a join of separator-free pieces gives the pieces back. */
  lemma {:induction false} SplitJoin(parts: seq<string>, c: char)
    requires |parts| >= 1
    requires forall k :: 0 <= k < |parts| ==> c !in parts[k]
    ensures Split(Join(parts, c), c) == parts
  {
    if |parts| == 1 {
      SplitFree(parts[0], c);
    } else {
      var init := parts[..|parts| - 1];
      SplitJoin(init, c);
      SplitAfterSeparator(Join(init, c), c, parts[|parts| - 1]);
    }
  }

  /** A string without the separator splits into itself. */
  lemma {:induction false} SplitFree(s: string, c: char)
    requires c !in s
    ensures Split(s, c) == [s]
  {
    if s != [] {
      assert c !in s[..|s| - 1] && s[|s| - 1] != c;
      SplitFree(s[..|s| - 1], c);
      assert s[..|s| - 1] + [s[|s| - 1]] == s;
    }
  }

  /** Splitting `s + [c] + t` for a separator-free `t` adds `t` as one more piece. */
  lemma {:induction false} SplitAfterSeparator(s: string, c: char, t: string)
    requires c !in t
    ensures Split(s + [c] + t, c) == Split(s, c) + [t]
  {
    if t == [] {
      assert (s + [c] + t)[..|s + [c] + t| - 1] == s;
    } else {
      var u := s + [c] + t;
      assert u[..|u| - 1] == s + [c] + t[..|t| - 1];
      SplitAfterSeparator(s, c, t[..|t| - 1]);
      assert t[..|t| - 1] + [t[|t| - 1]] == t;
    }
  }

  // ---------------------------------------------------------------------------
  // Lengths

  /** A character that UTF-16 writes as two code units (a surrogate pair). */
  predicate Astral(c: char)
  {
    c as int >= 0x1_0000
  }

  /** Every character of `s` fits one UTF-16 code unit. */
  predicate InBmp(s: string)
  {
    forall i | 0 <= i < |s| :: !Astral(s[i])
  }

  /** `s.length` in JavaScript: UTF-16 code units, so a character above U+FFFF counts twice. */
  function Utf16Length(s: string): (n: nat)
    ensures |s| <= n <= 2 * |s|
    ensures s == [] <==> n == 0
  {
    if s == [] then 0 else Utf16Length(s[..|s| - 1]) + (if Astral(s[|s| - 1]) then 2 else 1)
  }

  /** `.length` agrees with the character count exactly when no character lies above U+FFFF. */
  lemma {:induction false} Utf16LengthOfBmp(s: string)
    ensures Utf16Length(s) == |s| <==> InBmp(s)
  {
    if s != [] {
      var init := s[..|s| - 1];
      Utf16LengthOfBmp(init);
      assert InBmp(s) <==> InBmp(init) && !Astral(s[|s| - 1]) by {
        assert forall i | 0 <= i < |init| :: init[i] == s[i];
      }
    }
  }

  /** The variation selectors U+FE0E and U+FE0F, which validator.js does not count. */
  predicate VariationSelector(c: char)
  {
    c == '\U{FE0E}' || c == '\U{FE0F}'
  }

  /**
   * validator.js `isLength`: `str.length` less one per surrogate pair and
   * one per variation selector, i.e. the characters other than the two
   * selectors.
   */
  function ValidatorLength(s: string): (n: nat)
    ensures n <= |s|
    ensures n <= Utf16Length(s)
  {
    if s == [] then 0 else ValidatorLength(s[..|s| - 1]) + (if VariationSelector(s[|s| - 1]) then 0 else 1)
  }

  /** On text within U+0000..U+FFFF and free of variation selectors, the browser and the server count alike. */
  lemma {:induction false} LengthsAgree(s: string)
    requires InBmp(s) && forall i | 0 <= i < |s| :: !VariationSelector(s[i])
    ensures ValidatorLength(s) == |s| == Utf16Length(s)
  {
    Utf16LengthOfBmp(s);
    if s != [] {
      var init := s[..|s| - 1];
      assert forall i | 0 <= i < |init| :: init[i] == s[i];
      LengthsAgree(init);
    }
  }

  /** Text made only of characters above U+FFFF is twice as long to the browser as to the server. */
  lemma {:induction false} AstralCountsTwice(s: string)
    requires forall i | 0 <= i < |s| :: Astral(s[i])
    ensures Utf16Length(s) == 2 * ValidatorLength(s) == 2 * |s|
  {
    if s != [] {
      var init := s[..|s| - 1];
      assert forall i | 0 <= i < |init| :: init[i] == s[i];
      AstralCountsTwice(init);
    }
  }
}
