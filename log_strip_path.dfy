/**
  `StripPath` from `SampleCommon/Src/Misc/Log.c`: turns a source file path
  into a log tag by dropping everything up to the last '/' or '\\' and
  everything from the first '.' on, truncated to fit the caller's buffer
  (NUL-terminated).

  A C string is modelled as a `string` without NUL characters; the index
  `|filePath|` stands for its terminating NUL.
 */
module LogStripPath {

  const NUL: char := 0 as char

  predicate IsSeparator(c: char) { c == '/' || c == '\\' }

  predicate IsCString(s: string) { forall i :: 0 <= i < |s| ==> s[i] != NUL }

  /** The character the C code reads at index `i`: the terminator at `|s|`. */
  function CharAt(s: string, i: nat): char
    requires i <= |s|
  {
    if i == |s| then NUL else s[i]
  }

  /** Index just after the last separator of `s`, or 0 when `s` has none. */
  function NameStart(s: string): (start: nat)
    ensures start <= |s|
    ensures start > 0 ==> IsSeparator(s[start - 1])
    ensures forall j :: start <= j < |s| ==> !IsSeparator(s[j])
  {
    if s == [] then 0
    else if IsSeparator(s[|s| - 1]) then |s|
    else NameStart(s[..|s| - 1])
  }

  /** The prefix of `s` before its first '.'. */
  function BeforeDot(s: string): (r: string)
    ensures r <= s
    ensures '.' !in r
    ensures |r| < |s| ==> s[|r|] == '.'
  {
    if s == [] || s[0] == '.' then []
    else [s[0]] + BeforeDot(s[1..])
  }

  /** The tag `StripPath` writes for a buffer of `size` characters (the NUL not counted). */
  function Tag(filePath: string, size: nat): string
    requires size >= 1
  {
    var stem := BeforeDot(filePath[NameStart(filePath)..]);
    if |stem| <= size - 1 then stem else stem[..size - 1]
  }

  /** The tag fits the buffer together with its NUL terminator. */
  lemma TagFits(filePath: string, size: nat)
    requires size >= 1
    ensures |Tag(filePath, size)| <= size - 1
  {
  }

  /** The tag never contains a separator nor a '.'. */
  lemma TagHasNoSeparatorOrDot(filePath: string, size: nat)
    requires size >= 1
    ensures forall i :: 0 <= i < |Tag(filePath, size)| ==>
              !IsSeparator(Tag(filePath, size)[i]) && Tag(filePath, size)[i] != '.'
  {
    var start := NameStart(filePath);
    var stem := BeforeDot(filePath[start..]);
    forall i | 0 <= i < |Tag(filePath, size)|
      ensures !IsSeparator(Tag(filePath, size)[i]) && Tag(filePath, size)[i] != '.'
    {
      assert Tag(filePath, size)[i] == stem[i] == filePath[start + i];
    }
  }

  /** With no separator the tag starts at index 0; with room enough it is the whole name up to the first '.'. */
  lemma TagStartsAfterLastSeparator(filePath: string, size: nat)
    requires size >= 1
    ensures (forall i :: 0 <= i < |filePath| ==> !IsSeparator(filePath[i])) ==>
              Tag(filePath, size) <= filePath
    ensures Tag(filePath, size) <= filePath[NameStart(filePath)..]
    ensures |BeforeDot(filePath[NameStart(filePath)..])| <= size - 1 ==>
              Tag(filePath, size) == BeforeDot(filePath[NameStart(filePath)..])
  {
  }

  /**
    The C function. `filePath` must be non-empty: for the empty string the
    code reads `filePath[-1]`. `strippedTagSize` is at least 1, or
    `strippedTagSize - 1` wraps around.
   */
  method StripPath(filePath: string, strippedTag: array<char>)
    requires IsCString(filePath) && |filePath| >= 1
    requires strippedTag.Length >= 1
    modifies strippedTag
    ensures var t := Tag(filePath, strippedTag.Length);
            |t| < strippedTag.Length && strippedTag[..|t|] == t && strippedTag[|t|] == NUL
            && forall j :: |t| < j < strippedTag.Length ==> strippedTag[j] == old(strippedTag[j])
  {
    var slash := ScanBackForSeparator(filePath);
    var i := CopyStem(filePath, slash, strippedTag);
    TagIsCopied(filePath, strippedTag.Length, i);
    strippedTag[i] := NUL;
    assert strippedTag[..i] == Tag(filePath, strippedTag.Length);
  }

  /**
    The forward copy of `StripPath`: the name from `slash` up to its first
    '.' or the terminator, cut off where only the terminator's place is left.
   */
  method CopyStem(filePath: string, slash: nat, strippedTag: array<char>) returns (i: nat)
    requires IsCString(filePath) && slash <= |filePath| && strippedTag.Length >= 1
    modifies strippedTag
    ensures i <= strippedTag.Length - 1 && i <= |BeforeDot(filePath[slash..])|
    ensures i < strippedTag.Length - 1 ==> i == |BeforeDot(filePath[slash..])|
    ensures forall k :: 0 <= k < i ==> strippedTag[k] == BeforeDot(filePath[slash..])[k]
    ensures forall k :: i <= k < strippedTag.Length ==> strippedTag[k] == old(strippedTag[k])
  {
    ghost var stem := BeforeDot(filePath[slash..]);
    i := 0;
    while i < strippedTag.Length - 1
      invariant 0 <= i <= strippedTag.Length - 1
      invariant i <= |stem| && slash + i <= |filePath|
      invariant forall k :: 0 <= k < i ==> strippedTag[k] == stem[k]
      invariant forall k :: i <= k < strippedTag.Length ==> strippedTag[k] == old(strippedTag[k])
    {
      var c := CharAt(filePath, slash + i);
      StemAt(filePath, slash, i);
      if c == '.' || c == NUL {
        return;
      }
      strippedTag[i] := c;
      i := i + 1;
    }
  }

  /** The backward scan of `StripPath`: from the last character down to the first separator, stopping at index 0. */
  method ScanBackForSeparator(filePath: string) returns (slash: nat)
    requires |filePath| >= 1
    ensures slash == NameStart(filePath)
  {
    slash := |filePath| - 1;
    assert filePath[..slash + 1] == filePath;
    while slash > 0 && !IsSeparator(filePath[slash])
      invariant 0 <= slash <= |filePath| - 1
      invariant NameStart(filePath[..slash + 1]) == NameStart(filePath)
    {
      assert filePath[..slash + 1][..slash] == filePath[..slash];
      slash := slash - 1;
    }
    if IsSeparator(filePath[slash]) {
      slash := slash + 1;
    } else {
      assert filePath[..1][..0] == [];
    }
  }

  /** Where the forward copy stops, what it has copied is the tag. */
  lemma TagIsCopied(p: string, size: nat, i: nat)
    requires size >= 1 && i <= size - 1
    requires i <= |BeforeDot(p[NameStart(p)..])|
    requires i < size - 1 ==> i == |BeforeDot(p[NameStart(p)..])|
    ensures |Tag(p, size)| == i
    ensures forall k :: 0 <= k < i ==> Tag(p, size)[k] == BeforeDot(p[NameStart(p)..])[k]
  {
  }

  /** What the forward copy sees at offset `i` of the name starting at `start`. */
  lemma StemAt(p: string, start: nat, i: nat)
    requires IsCString(p) && start <= |p|
    requires i <= |BeforeDot(p[start..])| && start + i <= |p|
    ensures i < |BeforeDot(p[start..])| <==> CharAt(p, start + i) != '.' && CharAt(p, start + i) != NUL
    ensures i < |BeforeDot(p[start..])| ==> BeforeDot(p[start..])[i] == p[start + i]
  {
    var rest := p[start..];
    if start + i < |p| && p[start + i] != '.' {
      BeforeDotContinues(rest, i);
    }
    if start + i == |p| || p[start + i] == '.' {
      BeforeDotStops(rest, i);
    }
  }

  lemma BeforeDotStops(s: string, i: nat)
    requires i <= |s| && (i == |s| || s[i] == '.' || s[i] == NUL)
    requires IsCString(s)
    requires forall j :: 0 <= j < i ==> s[j] != '.'
    ensures |BeforeDot(s)| == i
  {
    if i > 0 { BeforeDotStops(s[1..], i - 1); }
  }

  lemma BeforeDotContinues(s: string, i: nat)
    requires i < |s| && s[i] != '.'
    requires forall j :: 0 <= j < i ==> s[j] != '.'
    ensures i < |BeforeDot(s)|
  {
    if i > 0 { BeforeDotContinues(s[1..], i - 1); }
  }
}
