/** The two fixed search patterns of the finder component.

    Both patterns have the same form, `^[<class>]{<count>}$`: a character class,
    given as a list of inclusive ranges, repeated exactly `count` times and
    anchored at both ends. In a JavaScript regular expression without the `m`
    flag, `$` matches only at the very end of the input, so a trailing newline
    is not accepted. Instead of a general regex engine, this module matches that
    one form directly, one character at a time, and proves the matcher equal to
    the "length plus character class" reading of the pattern.
 */
module Patterns {

  /** An inclusive character range inside a bracket expression, like `a-z`. */
  datatype Range = Range(lo: char, hi: char)

  /** `^[cls]{count}$` */
  datatype Pattern = Anchored(cls: seq<Range>, count: nat)

  /** BLOCK_REGEX, `^[A-Fa-f0-9]{64}$`: block hashes and transaction ids. */
  const BLOCK_PATTERN: Pattern := Anchored([Range('A', 'F'), Range('a', 'f'), Range('0', '9')], 64)

  /** ADDRESS_REGEX, `^[a-zA-Z0-9]{34}$`: addresses. The class is every ASCII
      letter and digit, not the base58 alphabet: `0`, `O`, `I` and `l` are in it. */
  const ADDRESS_PATTERN: Pattern := Anchored([Range('a', 'z'), Range('A', 'Z'), Range('0', '9')], 34)

  /** Whether `c` falls in one of the ranges of the bracket expression `cls`. */
  function InClass(cls: seq<Range>, c: char): bool
  {
    cls != [] && ((cls[0].lo <= c <= cls[0].hi) || InClass(cls[1..], c))
  }

  /** Whether `s` is exactly `n` characters of class `cls`, read left to right. */
  function Repeat(cls: seq<Range>, n: nat, s: string): bool
  {
    if n == 0 then s == []
    else s != [] && InClass(cls, s[0]) && Repeat(cls, n - 1, s[1..])
  }

  /** `RegExp.test` for an anchored pattern. */
  function Matches(p: Pattern, s: string): bool
  {
    Repeat(p.cls, p.count, s)
  }

  predicate IsAsciiAlnum(c: char)
  {
    'a' <= c <= 'z' || 'A' <= c <= 'Z' || '0' <= c <= '9'
  }

  predicate IsHexDigit(c: char)
  {
    '0' <= c <= '9' || 'a' <= c <= 'f' || 'A' <= c <= 'F'
  }

  /** The test `new RegExp(ADDRESS_REGEX).test(token)` of onSubmit. */
  predicate AddressShaped(token: string)
  {
    Matches(ADDRESS_PATTERN, token)
  }

  /** A token that BLOCK_REGEX accepts. */
  predicate BlockShaped(token: string)
  {
    Matches(BLOCK_PATTERN, token)
  }

  /** A character is in a bracket expression exactly when some range holds it. */
  lemma {:induction false} InClassIff(cls: seq<Range>, c: char)
    ensures InClass(cls, c) <==> exists k :: 0 <= k < |cls| && cls[k].lo <= c <= cls[k].hi
  {
    if cls != [] {
      InClassIff(cls[1..], c);
      if InClass(cls[1..], c) {
        var k :| 0 <= k < |cls[1..]| && cls[1..][k].lo <= c <= cls[1..][k].hi;
        assert cls[k + 1] == cls[1..][k];
      }
      if exists k :: 0 <= k < |cls| && cls[k].lo <= c <= cls[k].hi {
        var k :| 0 <= k < |cls| && cls[k].lo <= c <= cls[k].hi;
        if k > 0 {
          assert cls[1..][k - 1] == cls[k];
        }
      }
    }
  }

  /** The matcher accepts exactly the strings of length `n` whose every
      character is in the class. */
  lemma {:induction false} RepeatIff(cls: seq<Range>, n: nat, s: string)
    ensures Repeat(cls, n, s) <==> |s| == n && forall i :: 0 <= i < |s| ==> InClass(cls, s[i])
  {
    if n > 0 && s != [] {
      RepeatIff(cls, n - 1, s[1..]);
      if |s| == n && forall i :: 0 <= i < |s| ==> InClass(cls, s[i]) {
        forall i | 0 <= i < |s[1..]| ensures InClass(cls, s[1..][i]) {
          assert s[1..][i] == s[i + 1];
        }
      }
      if Repeat(cls, n, s) {
        forall i | 0 <= i < |s| ensures InClass(cls, s[i]) {
          if i > 0 {
            assert s[i] == s[1..][i - 1];
          }
        }
      }
    }
  }

  lemma AddressClassIsAlnum(c: char)
    ensures InClass(ADDRESS_PATTERN.cls, c) <==> IsAsciiAlnum(c)
  {
    InClassIff(ADDRESS_PATTERN.cls, c);
    if IsAsciiAlnum(c) {
      if 'a' <= c <= 'z' {
        assert ADDRESS_PATTERN.cls[0].lo <= c <= ADDRESS_PATTERN.cls[0].hi;
      } else if 'A' <= c <= 'Z' {
        assert ADDRESS_PATTERN.cls[1].lo <= c <= ADDRESS_PATTERN.cls[1].hi;
      } else {
        assert ADDRESS_PATTERN.cls[2].lo <= c <= ADDRESS_PATTERN.cls[2].hi;
      }
    }
  }

  lemma BlockClassIsHex(c: char)
    ensures InClass(BLOCK_PATTERN.cls, c) <==> IsHexDigit(c)
  {
    InClassIff(BLOCK_PATTERN.cls, c);
    if IsHexDigit(c) {
      if 'A' <= c <= 'F' {
        assert BLOCK_PATTERN.cls[0].lo <= c <= BLOCK_PATTERN.cls[0].hi;
      } else if 'a' <= c <= 'f' {
        assert BLOCK_PATTERN.cls[1].lo <= c <= BLOCK_PATTERN.cls[1].hi;
      } else {
        assert BLOCK_PATTERN.cls[2].lo <= c <= BLOCK_PATTERN.cls[2].hi;
      }
    }
  }

  /** A token is address-shaped iff it is 34 ASCII letters and digits. */
  lemma AddressShapedIff(token: string)
    ensures AddressShaped(token) <==> |token| == 34 && forall i :: 0 <= i < |token| ==> IsAsciiAlnum(token[i])
  {
    RepeatIff(ADDRESS_PATTERN.cls, 34, token);
    forall i | 0 <= i < |token| ensures InClass(ADDRESS_PATTERN.cls, token[i]) <==> IsAsciiAlnum(token[i]) {
      AddressClassIsAlnum(token[i]);
    }
  }

  /** A token is block/transaction-shaped iff it is 64 hex digits of either case. */
  lemma BlockShapedIff(token: string)
    ensures BlockShaped(token) <==> |token| == 64 && forall i :: 0 <= i < |token| ==> IsHexDigit(token[i])
  {
    RepeatIff(BLOCK_PATTERN.cls, 64, token);
    forall i | 0 <= i < |token| ensures InClass(BLOCK_PATTERN.cls, token[i]) <==> IsHexDigit(token[i]) {
      BlockClassIsHex(token[i]);
    }
  }

  /** No token has both shapes: the two lengths differ. */
  lemma ShapesDisjoint(token: string)
    ensures !(AddressShaped(token) && BlockShaped(token))
  {
    AddressShapedIff(token);
    BlockShapedIff(token);
  }

  /** The empty string has neither shape. */
  lemma EmptyHasNoShape()
    ensures !AddressShaped("") && !BlockShaped("")
  {
  }
}
