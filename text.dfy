/** The string operations the gateway relies on: `toLowerCase`, `trim` and the
    first-occurrence `replace` used to strip the `Bearer ` prefix. */
module Text {
  import opened Values

  // ---------------------------------------------------------------- case

  predicate IsUpper(c: char) {
    'A' <= c <= 'Z'
  }

  function LowerChar(c: char): char {
    if IsUpper(c) then (c as int + 32) as char else c
  }

  /** `String.prototype.toLowerCase`, on the ASCII letters. */
  function ToLower(s: string): string {
    if s == [] then [] else [LowerChar(s[0])] + ToLower(s[1..])
  }

  /** The `value === value.toLowerCase()` refinement of the name schemas. */
  predicate IsLowercase(s: string) {
    s == ToLower(s)
  }

  lemma {:induction false} ToLowerAt(s: string, i: nat)
    requires i < |s|
    ensures |ToLower(s)| == |s|
    ensures ToLower(s)[i] == LowerChar(s[i])
  {
    if i > 0 {
      ToLowerAt(s[1..], i - 1);
    } else if |s| > 1 {
      ToLowerAt(s[1..], 0);
    }
  }

  /** A string equals its own lowercase exactly when it holds no upper-case letter. */
  lemma {:induction false} LowercaseIffNoUpper(s: string)
    ensures IsLowercase(s) <==> forall i :: 0 <= i < |s| ==> !IsUpper(s[i])
  {
    if s != [] {
      LowercaseIffNoUpper(s[1..]);
      assert forall i :: 1 <= i < |s| ==> s[i] == s[1..][i - 1];
      if IsLowercase(s) {
        assert LowerChar(s[0]) == s[0];
        assert ToLower(s[1..]) == s[1..];
      }
    }
  }

  /** Lowering always yields a lowercase string of the same length, so lowering twice
      changes nothing. */
  lemma {:induction false} ToLowerIsLowercase(s: string)
    ensures |ToLower(s)| == |s|
    ensures IsLowercase(ToLower(s))
  {
    var t := ToLower(s);
    if s != [] {
      ToLowerAt(s, 0);
    }
    forall i | 0 <= i < |t| ensures !IsUpper(t[i]) {
      ToLowerAt(s, i);
    }
    LowercaseIffNoUpper(t);
  }

  // ---------------------------------------------------------------- trim

  /** The characters `String.prototype.trim` removes: ECMAScript WhiteSpace (tab, vertical
      tab, form feed, space, no-break space, byte-order mark and the Zs space separators)
      and LineTerminator (line feed, carriage return, U+2028, U+2029). */
  predicate IsSpace(c: char) {
    c == '\t' || c == '\n' || c == '\U{000B}' || c == '\U{000C}' || c == '\r' || c == ' '
    || c == '\U{00A0}' || c == '\U{1680}' || ('\U{2000}' <= c <= '\U{200A}')
    || c == '\U{2028}' || c == '\U{2029}' || c == '\U{202F}' || c == '\U{205F}'
    || c == '\U{3000}' || c == '\U{FEFF}'
  }

  function TrimStart(s: string): string {
    if s != [] && IsSpace(s[0]) then TrimStart(s[1..]) else s
  }

  function TrimEnd(s: string): string {
    if s != [] && IsSpace(s[|s| - 1]) then TrimEnd(s[..|s| - 1]) else s
  }

  /** `trimStart` drops exactly the leading run of spaces. */
  lemma {:induction false} TrimStartDropsLeadingSpaces(s: string)
    ensures |TrimStart(s)| <= |s| && TrimStart(s) == s[|s| - |TrimStart(s)|..]
    ensures TrimStart(s) == [] || !IsSpace(TrimStart(s)[0])
    ensures forall i :: 0 <= i < |s| - |TrimStart(s)| ==> IsSpace(s[i])
  {
    if s != [] && IsSpace(s[0]) {
      TrimStartDropsLeadingSpaces(s[1..]);
      assert forall i :: 1 <= i < |s| ==> s[i] == s[1..][i - 1];
    }
  }

  /** `trimEnd` drops exactly the trailing run of spaces. */
  lemma {:induction false} TrimEndDropsTrailingSpaces(s: string)
    ensures |TrimEnd(s)| <= |s| && TrimEnd(s) == s[..|TrimEnd(s)|]
    ensures TrimEnd(s) == [] || !IsSpace(TrimEnd(s)[|TrimEnd(s)| - 1])
    ensures forall i :: |TrimEnd(s)| <= i < |s| ==> IsSpace(s[i])
  {
    if s != [] && IsSpace(s[|s| - 1]) {
      TrimEndDropsTrailingSpaces(s[..|s| - 1]);
      assert forall i :: 0 <= i < |s| - 1 ==> s[i] == s[..|s| - 1][i];
    }
  }

  /** `String.prototype.trim`. */
  function Trim(s: string): string {
    TrimEnd(TrimStart(s))
  }

  /** Trimming keeps a contiguous middle part of the string. */
  lemma TrimSlice(s: string) returns (i: nat, j: nat)
    ensures i <= j <= |s| && Trim(s) == s[i..j]
    ensures forall k :: 0 <= k < i ==> IsSpace(s[k])
    ensures forall k :: j <= k < |s| ==> IsSpace(s[k])
  {
    var a := TrimStart(s);
    TrimStartDropsLeadingSpaces(s);
    TrimEndDropsTrailingSpaces(a);
    i := |s| - |a|;
    j := i + |TrimEnd(a)|;
    assert forall k :: j <= k < |s| ==> s[k] == a[k - i];
  }

  /** A trimmed string has no space at either end, so trimming it again changes nothing. */
  lemma TrimIdempotent(s: string)
    ensures Trim(s) == [] || (!IsSpace(Trim(s)[0]) && !IsSpace(Trim(s)[|Trim(s)| - 1]))
    ensures Trim(Trim(s)) == Trim(s)
  {
    var t := Trim(s);
    TrimStartDropsLeadingSpaces(s);
    TrimEndDropsTrailingSpaces(TrimStart(s));
    assert t != [] ==> t[0] == TrimStart(s)[0];
    assert TrimStart(t) == t;
    TrimEndDropsTrailingSpaces(t);
  }

  /** A slice of a lowercase string is lowercase. */
  lemma LowercaseSlice(s: string, i: nat, j: nat)
    requires i <= j <= |s| && IsLowercase(s)
    ensures IsLowercase(s[i..j])
  {
    LowercaseIffNoUpper(s);
    LowercaseIffNoUpper(s[i..j]);
  }

  /** The mongoose `lowercase` and `trim` options, applied in that order. */
  function Normalize(s: string): string {
    Trim(ToLower(s))
  }

  /** Stored values are already normalised: normalising twice changes nothing. */
  lemma NormalizeIdempotent(s: string)
    ensures IsLowercase(Normalize(s))
    ensures Normalize(Normalize(s)) == Normalize(s)
  {
    var l := ToLower(s);
    ToLowerIsLowercase(s);
    var i, j := TrimSlice(l);
    LowercaseSlice(l, i, j);
    TrimIdempotent(l);
  }

  // ---------------------------------------------------------------- replace

  predicate OccursAt(s: string, p: string, i: nat) {
    i + |p| <= |s| && s[i..i + |p|] == p
  }

  /** The first position at or after `from` where `p` occurs in `s`. */
  function IndexFrom(s: string, p: string, from: nat): (r: Option<nat>)
    requires from <= |s|
    ensures r.Some? ==> from <= r.value && OccursAt(s, p, r.value)
    ensures r.Some? ==> forall j :: from <= j < r.value ==> !OccursAt(s, p, j)
    ensures r.None? ==> forall j :: from <= j <= |s| ==> !OccursAt(s, p, j)
    decreases |s| - from
  {
    if OccursAt(s, p, from) then Some(from)
    else if from == |s| then None
    else IndexFrom(s, p, from + 1)
  }

  /** `String.prototype.indexOf` with a string pattern. */
  function IndexOf(s: string, p: string): Option<nat> {
    IndexFrom(s, p, 0)
  }

  /** `s.replace(p, "")`: a string pattern replaces only its first occurrence. */
  function RemoveFirst(s: string, p: string): string {
    match IndexOf(s, p)
    case None => s
    case Some(i) => s[..i] + s[i + |p|..]
  }

  /** A string with no occurrence of the pattern is left as it is. */
  lemma RemoveFirstAbsent(s: string, p: string)
    requires forall j :: 0 <= j <= |s| ==> !OccursAt(s, p, j)
    ensures RemoveFirst(s, p) == s
  {
  }

  /** Removing the pattern from the front of `p + rest` gives back `rest`, whatever `rest`
      holds (including further occurrences of the pattern). */
  lemma RemoveFirstPrefix(p: string, rest: string)
    ensures RemoveFirst(p + rest, p) == rest
  {
    assert OccursAt(p + rest, p, 0) by {
      assert (p + rest)[0..|p|] == p;
    }
    assert (p + rest)[|p|..] == rest;
  }
}
