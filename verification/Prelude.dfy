/** Shared result types, machine limits, text rules and facts about finite collections. */
module Prelude {
  const MaxU64: nat := 0xFFFF_FFFF_FFFF_FFFF
  const MaxI64: nat := 0x7FFF_FFFF_FFFF_FFFF
  const NanosPerMilli: nat := 1_000_000

  /** First and last representable instants, as nanoseconds around the epoch. */
  const MinInstant: int := -8_334_601_228_800 * 1_000_000_000
  const MaxInstant: int := 8_210_266_876_799 * 1_000_000_000 + 999_999_999

  datatype Option<+T> = None | Some(value: T)

  /** The Unicode White_Space property. */
  predicate Whitespace(c: char) {
    || '\U{09}' <= c <= '\U{0D}' || c == ' ' || c == '\U{85}' || c == '\U{A0}' || c == '\U{1680}'
    || '\U{2000}' <= c <= '\U{200A}' || c == '\U{2028}' || c == '\U{2029}' || c == '\U{202F}' || c == '\U{205F}' || c == '\U{3000}'
  }

  /** A text that `str::trim` would empty. */
  predicate Blank(s: string) {
    forall i :: 0 <= i < |s| ==> Whitespace(s[i])
  }

  /** `char::is_control`: the Cc category. */
  predicate Control(c: char) {
    c <= '\U{1F}' || '\U{7F}' <= c <= '\U{9F}'
  }

  function Utf8Bytes(c: char): nat {
    if c < '\U{80}' then 1 else if c < '\U{800}' then 2 else if c < '\U{10000}' then 3 else 4
  }

  /** `str::len`: the length in UTF-8 bytes. */
  function Utf8Length(s: string): nat {
    if s == [] then 0 else Utf8Bytes(s[0]) + Utf8Length(s[1..])
  }

  /** A lower-case SHA-256 digest. */
  predicate IsSha(s: string) {
    |s| == 64 && forall i :: 0 <= i < |s| ==> s[i] in "0123456789abcdef"
  }

  predicate Distinct<T(==)>(s: seq<T>) {
    forall i, j :: 0 <= i < j < |s| ==> s[i] != s[j]
  }

  ghost function Members<T>(s: seq<T>): set<T> {
    set x | x in s
  }

  lemma SubsetSize<T>(small: set<T>, large: set<T>)
    requires small <= large
    ensures |small| <= |large|
  {
    assert large == small + (large - small);
  }

  lemma {:induction false} MembersAtMostLength<T>(s: seq<T>)
    ensures |Members(s)| <= |s|
  {
    if s != [] {
      MembersAtMostLength(s[1..]);
      assert Members(s) == Members(s[1..]) + {s[0]};
    } else {
      assert Members(s) == {};
    }
  }

  lemma SameSizeSubset<T>(small: set<T>, large: set<T>)
    requires small <= large && |small| == |large|
    ensures small == large
  {
    assert large == small + (large - small);
    assert |large - small| == 0;
  }

  lemma {:induction false} DistinctSize<T(!new)>(s: seq<T>)
    requires Distinct(s)
    ensures |Members(s)| == |s|
  {
    if s != [] {
      DistinctSize(s[1..]);
      assert Members(s) == Members(s[1..]) + {s[0]};
      assert s[0] !in s[1..];
    } else {
      assert Members(s) == {};
    }
  }
}
