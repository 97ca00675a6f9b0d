/** The few `java.lang.String` and Spring `StringUtils` operations the
    user and token code relies on: `trim`, `isBlank`, `hasText`,
    `startsWith` and an ASCII-only `toLowerCase`. */
module JavaStrings {
  import opened Wrappers

  /** `Character.isWhitespace`: the Unicode space separators other than the
      no-break spaces U+00A0, U+2007 and U+202F, the line and paragraph
      separators, and the controls U+0009-U+000D and U+001C-U+001F. */
  predicate IsWhitespace(c: char) {
    || '\U{0009}' <= c <= '\U{000D}'
    || '\U{001C}' <= c <= '\U{0020}'
    || c == '\U{1680}'
    || '\U{2000}' <= c <= '\U{2006}'
    || '\U{2008}' <= c <= '\U{200A}'
    || c == '\U{2028}' || c == '\U{2029}'
    || c == '\U{205F}' || c == '\U{3000}'
  }

  /** `String.trim` removes every leading and trailing char at or below U+0020. */
  predicate TrimmedAway(c: char) {
    c <= ' '
  }

  /** The index of the first kept char at or after `i`. */
  function SkipLeading(s: string, i: nat): (j: nat)
    requires i <= |s|
    ensures i <= j <= |s|
    ensures forall k :: i <= k < j ==> TrimmedAway(s[k])
    ensures j < |s| ==> !TrimmedAway(s[j])
    decreases |s| - i
  {
    if i < |s| && TrimmedAway(s[i]) then SkipLeading(s, i + 1) else i
  }

  /** The end of the kept part: `hi` moved down over trimmed chars, not below `lo`. */
  function SkipTrailing(s: string, lo: nat, hi: nat): (j: nat)
    requires lo <= hi <= |s|
    ensures lo <= j <= hi
    ensures forall k :: j <= k < hi ==> TrimmedAway(s[k])
    ensures lo < j ==> !TrimmedAway(s[j - 1])
    decreases hi
  {
    if lo < hi && TrimmedAway(s[hi - 1]) then SkipTrailing(s, lo, hi - 1) else hi
  }

  /** `String.trim`: the longest middle part that neither starts nor ends
      with a char at or below U+0020. */
  function Trim(s: string): (r: string)
    ensures |r| <= |s|
    ensures r == [] || (!TrimmedAway(r[0]) && !TrimmedAway(r[|r| - 1]))
  {
    var lo := SkipLeading(s, 0);
    s[lo..SkipTrailing(s, lo, |s|)]
  }

  /** `Trim` is characterised by where the kept part starts and ends: any
      cut whose outside is all trimmable and whose inside starts and ends
      with kept chars is the one `Trim` makes. */
  lemma TrimIsTheCut(s: string, lo: nat, hi: nat)
    requires lo <= hi <= |s|
    requires forall k :: 0 <= k < lo ==> TrimmedAway(s[k])
    requires forall k :: hi <= k < |s| ==> TrimmedAway(s[k])
    requires lo < hi ==> !TrimmedAway(s[lo]) && !TrimmedAway(s[hi - 1])
    ensures Trim(s) == s[lo..hi]
  {
    var start := SkipLeading(s, 0);
    if lo < hi {
      assert start == lo;
      var end := SkipTrailing(s, lo, |s|);
      assert end == hi;
    } else {
      assert start == |s|;
    }
  }

  /** `Trim` removes only trimmable chars, and only at the two ends. */
  lemma TrimDropsOnlyPadding(s: string) returns (lo: nat)
    ensures lo + |Trim(s)| <= |s| && s[lo..lo + |Trim(s)|] == Trim(s)
    ensures forall k :: 0 <= k < lo ==> TrimmedAway(s[k])
    ensures forall k :: lo + |Trim(s)| <= k < |s| ==> TrimmedAway(s[k])
  {
    lo := SkipLeading(s, 0);
  }

  /** Trimming twice trims no more than trimming once. */
  lemma TrimIdempotent(s: string)
    ensures Trim(Trim(s)) == Trim(s)
  {
    var t := Trim(s);
    TrimIsTheCut(t, 0, |t|);
  }

  /** Trimmable padding on either side makes no difference. */
  lemma TrimIgnoresPadding(pre: string, t: string, post: string)
    requires forall k :: 0 <= k < |pre| ==> TrimmedAway(pre[k])
    requires forall k :: 0 <= k < |post| ==> TrimmedAway(post[k])
    requires t == [] || (!TrimmedAway(t[0]) && !TrimmedAway(t[|t| - 1]))
    ensures Trim(pre + t + post) == t
  {
    var s := pre + t + post;
    if t == [] {
      assert forall k :: 0 <= k < |s| ==> TrimmedAway(s[k]) by {
        forall k | 0 <= k < |s| ensures TrimmedAway(s[k]) {
          if k < |pre| { assert s[k] == pre[k]; } else { assert s[k] == post[k - |pre|]; }
        }
      }
      TrimIsTheCut(s, |pre|, |pre|);
    } else {
      TrimIsTheCut(s, |pre|, |pre| + |t|);
    }
    assert s[|pre|..|pre| + |t|] == t;
  }

  /** `String.isBlank`: empty or only `Character.isWhitespace` chars. */
  predicate IsBlank(s: string) {
    forall k :: 0 <= k < |s| ==> IsWhitespace(s[k])
  }

  /** `StringUtils.hasText`: not null and holding a char that is not whitespace. */
  predicate HasText(s: Option<string>) {
    s.Some? && exists k :: 0 <= k < |s.value| && !IsWhitespace(s.value[k])
  }

  /** `String.startsWith`, case-sensitive. */
  predicate StartsWith(s: string, prefix: string) {
    |prefix| <= |s| && s[..|prefix|] == prefix
  }

  /** An ASCII capital letter lower-cased; every other char unchanged. */
  function LowerChar(c: char): char {
    if 'A' <= c <= 'Z' then (c as int + 32) as char else c
  }

  /** `String.toLowerCase` on the ASCII range. */
  function ToLower(s: string): (r: string)
    ensures |r| == |s|
    ensures forall k :: 0 <= k < |r| ==> !('A' <= r[k] <= 'Z')
    ensures forall k :: 0 <= k < |r| ==> (TrimmedAway(r[k]) <==> TrimmedAway(s[k]))
  {
    seq(|s|, k requires 0 <= k < |s| => LowerChar(s[k]))
  }

  /** Lower-casing lower-case text changes nothing. */
  lemma ToLowerIdempotent(s: string)
    ensures ToLower(ToLower(s)) == ToLower(s)
  {
    var t := ToLower(s);
    assert forall k :: 0 <= k < |t| ==> ToLower(t)[k] == t[k];
  }

  /** The email normalisation of `crearUsuario`: trimmed, then lower-cased. */
  function NormalizeEmail(email: string): (r: string)
    ensures |r| <= |email|
    ensures r == [] || (!TrimmedAway(r[0]) && !TrimmedAway(r[|r| - 1]))
    ensures forall k :: 0 <= k < |r| ==> !('A' <= r[k] <= 'Z')
  {
    ToLower(Trim(email))
  }

  /** A normalised email normalises to itself, so a stored email is found
      again by the duplicate check. */
  lemma NormalizeEmailIdempotent(email: string)
    ensures NormalizeEmail(NormalizeEmail(email)) == NormalizeEmail(email)
  {
    var n := NormalizeEmail(email);
    TrimIsTheCut(n, 0, |n|);
    assert Trim(n) == n;
    ToLowerIdempotent(Trim(email));
  }

  /** Case and surrounding blanks do not tell addresses apart. */
  lemma NormalizeEmailExample()
    ensures NormalizeEmail(" A@b\U{0009}") == "a@b"
  {
    assert " A@b\U{0009}" == " " + "A@b" + "\U{0009}";
    TrimIgnoresPadding(" ", "A@b", "\U{0009}");
    assert ToLower("A@b") == "a@b" by {
      assert ToLower("A@b")[0] == 'a';
    }
  }
}
