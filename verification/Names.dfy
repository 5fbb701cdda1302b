/**
 Canonical provider and service names: lower case, runs of other characters replaced, punctuation
 trimmed from the edges, cut to 128 characters. Texts are ASCII. When such a name matches the
 contract's pattern, and when making it canonical again changes it.
 */
module Names {
  import opened Sequences

  const MAX_NAME := 128

  predicate IsSpace(c: char) { c == ' ' || '\t' <= c <= '\r' }

  function Lower(c: char): char {
    if 'A' <= c <= 'Z' then (c as int + 32) as char else c
  }

  function ToLower(s: string): string { seq(|s|, i requires 0 <= i < |s| => Lower(s[i])) }

  function TrimLeft(s: string): string {
    if s != "" && IsSpace(s[0]) then TrimLeft(s[1..]) else s
  }

  function TrimRight(s: string): string {
    if s != "" && IsSpace(s[|s| - 1]) then TrimRight(s[..|s| - 1]) else s
  }

  function TrimSpace(s: string): string { TrimRight(TrimLeft(s)) }

  predicate HasPrefix(s: string, prefix: string) { prefix <= s }

  function TrimPrefix(s: string, prefix: string): string {
    if HasPrefix(s, prefix) then s[|prefix|..] else s
  }

  predicate HasSuffix(s: string, suffix: string) {
    |suffix| <= |s| && s[|s| - |suffix|..] == suffix
  }

  predicate Contains(s: string, part: string) {
    part <= s || (s != "" && Contains(s[1..], part))
  }

  predicate IsAlnum(c: char) { 'a' <= c <= 'z' || '0' <= c <= '9' }

  predicate IsPunct(c: char) { c == '_' || c == '-' || c == '.' }

  predicate IsNameChar(c: char) { IsAlnum(c) || IsPunct(c) }

  /** Each maximal run of other characters becomes one underscore. */
  function ReplaceRuns(s: string, inRun: bool): string {
    if s == "" then ""
    else if IsNameChar(s[0]) then [s[0]] + ReplaceRuns(s[1..], false)
    else (if inRun then "" else "_") + ReplaceRuns(s[1..], true)
  }

  function TrimPunctLeft(s: string): string {
    if s != "" && IsPunct(s[0]) then TrimPunctLeft(s[1..]) else s
  }

  function TrimPunctRight(s: string): string {
    if s != "" && IsPunct(s[|s| - 1]) then TrimPunctRight(s[..|s| - 1]) else s
  }

  function TrimPunct(s: string): string { TrimPunctRight(TrimPunctLeft(s)) }

  function Truncate(s: string, max: nat): string { if |s| > max then s[..max] else s }

  function Cleaned(value: string): string {
    var v := ToLower(TrimSpace(value));
    TrimPunct(ReplaceRuns(TrimPrefix(TrimPrefix(v, "https://"), "http://"), false))
  }

  function CanonicalName(value: string, fallback: string): string {
    var v := Truncate(Cleaned(value), MAX_NAME);
    if v == "" then fallback else v
  }

  /** ^[a-z0-9][a-z0-9._-]{0,127}$ */
  predicate IsCanonical(s: string) {
    && 1 <= |s| <= MAX_NAME && IsAlnum(s[0])
    && forall i :: 0 <= i < |s| ==> IsNameChar(s[i])
  }

  predicate NameChars(s: string) { forall i :: 0 <= i < |s| ==> IsNameChar(s[i]) }

  lemma {:induction false} ReplacedChars(s: string, inRun: bool)
    ensures NameChars(ReplaceRuns(s, inRun))
  {
    if s != "" { ReplacedChars(s[1..], !IsNameChar(s[0])); }
  }

  lemma {:induction false} TrimmedLeft(s: string)
    requires NameChars(s)
    ensures NameChars(TrimPunctLeft(s))
    ensures TrimPunctLeft(s) == "" || IsAlnum(TrimPunctLeft(s)[0])
  {
    if s != "" && IsPunct(s[0]) { TrimmedLeft(s[1..]); }
  }

  lemma {:induction false} TrimmedRight(s: string)
    requires NameChars(s)
    ensures TrimPunctRight(s) <= s && NameChars(TrimPunctRight(s))
    ensures TrimPunctRight(s) == "" || IsAlnum(TrimPunctRight(s)[|TrimPunctRight(s)| - 1])
  {
    if s != "" && IsPunct(s[|s| - 1]) { TrimmedRight(s[..|s| - 1]); }
  }

  lemma CleanedShape(value: string)
    ensures var s := Cleaned(value); NameChars(s) && (s == "" || (IsAlnum(s[0]) && IsAlnum(s[|s| - 1])))
  {
    var v := ToLower(TrimSpace(value));
    var bare := TrimPrefix(TrimPrefix(v, "https://"), "http://");
    ReplacedChars(bare, false);
    TrimmedLeft(ReplaceRuns(bare, false));
    TrimmedRight(TrimPunctLeft(ReplaceRuns(bare, false)));
  }

  /** Whatever the input, the result matches the contract's name pattern. */
  lemma CanonicalNameMatches(value: string, fallback: string)
    requires IsCanonical(fallback)
    ensures IsCanonical(CanonicalName(value, fallback))
  {
    CleanedShape(value);
  }

  // ---------------------------------------------------------------- applying it twice

  lemma {:induction false} LowerFixed(s: string)
    requires NameChars(s)
    ensures ToLower(s) == s
  {
  }

  lemma {:induction false} ReplaceFixed(s: string)
    requires NameChars(s)
    ensures ReplaceRuns(s, false) == s
  {
    if s != "" { ReplaceFixed(s[1..]); }
  }

  /** A name ending in a letter or digit is its own cleaned form. */
  lemma CleanedFixed(s: string)
    requires s != "" && NameChars(s) && IsAlnum(s[0]) && IsAlnum(s[|s| - 1])
    ensures Cleaned(s) == s
  {
    TrimSpaceShrinks(s);
    LowerFixed(s);
    NotUrl(s);
    ReplaceFixed(s);
    assert TrimPunctLeft(s) == s && TrimPunctRight(s) == s;
    hide ReplaceRuns, TrimSpace, ToLower, TrimPunctLeft, TrimPunctRight;
  }

  lemma NotUrl(s: string)
    requires NameChars(s)
    ensures !HasPrefix(s, "https://") && !HasPrefix(s, "http://")
  {
    assert "https://"[5] == ':' && "http://"[4] == ':' && !IsNameChar(':');
  }

  lemma {:induction false} TrimRightShrinks(s: string)
    ensures TrimPunctRight(s) <= s
    ensures s != "" && IsPunct(s[|s| - 1]) ==> |TrimPunctRight(s)| < |s|
  {
    if s != "" && IsPunct(s[|s| - 1]) { TrimRightShrinks(s[..|s| - 1]); }
  }

  lemma {:induction false} TrimLeftShrinks(s: string)
    ensures |TrimPunctLeft(s)| <= |s|
  {
    if s != "" && IsPunct(s[0]) { TrimLeftShrinks(s[1..]); }
  }

  lemma {:induction false} TrimSpaceShrinks(s: string)
    requires NameChars(s)
    ensures TrimSpace(s) == s
  {
  }

  lemma CutFixed(s: string, fallback: string)
    requires s != "" && |s| <= MAX_NAME && NameChars(s) && IsAlnum(s[0])
    ensures CanonicalName(s, fallback) == s <==> IsAlnum(s[|s| - 1])
  {
    if IsAlnum(s[|s| - 1]) {
      CleanedFixed(s);
    } else {
      TrimSpaceShrinks(s);
      LowerFixed(s);
      NotUrl(s);
      ReplaceFixed(s);
      assert TrimPunctLeft(s) == s;
      TrimRightShrinks(s);
      assert Cleaned(s) == TrimPunctRight(s);
      TrimmedRight(s);
      StillAlnum(s);
    }
  }

  lemma {:induction false} TrimsShorten(s: string)
    ensures |TrimLeft(s)| <= |s| && |TrimRight(s)| <= |s|
  {
    if s != "" { TrimsShorten(s[1..]); TrimsShorten(s[..|s| - 1]); }
  }

  lemma {:induction false} ReplaceShortens(s: string, inRun: bool)
    ensures |ReplaceRuns(s, inRun)| <= |s|
  {
    if s != "" { ReplaceShortens(s[1..], !IsNameChar(s[0])); }
  }

  lemma CleanedShortens(value: string)
    ensures |Cleaned(value)| <= |value|
  {
    TrimsShorten(value);
    TrimsShorten(TrimLeft(value));
    var bare := TrimPrefix(TrimPrefix(ToLower(TrimSpace(value)), "https://"), "http://");
    ReplaceShortens(bare, false);
    ReplacedChars(bare, false);
    TrimLeftShrinks(ReplaceRuns(bare, false));
    TrimRightShrinks(TrimPunctLeft(ReplaceRuns(bare, false)));
  }

  /** A fallback is given back for itself exactly when nothing of it is a name, or it is a name cleaned already. */
  lemma FallbackFixed(fallback: string)
    ensures CanonicalName(fallback, fallback) == fallback
            <==> Cleaned(fallback) == "" || (IsCanonical(fallback) && IsAlnum(fallback[|fallback| - 1]))
  {
    CleanedShape(fallback);
    CleanedShortens(fallback);
    if IsCanonical(fallback) { CutFixed(fallback, fallback); }
  }

  /**
   Cutting to 128 characters happens after the edges were trimmed: the function is its own fixed
   point exactly when nothing is cut, or the cut leaves a letter or digit at the end.
   */
  lemma IdempotentIff(value: string, fallback: string)
    ensures var c, s := Cleaned(value), CanonicalName(value, fallback);
            CanonicalName(s, fallback) == s <==>
              if c != "" then |c| <= MAX_NAME || IsAlnum(c[MAX_NAME - 1])
              else Cleaned(fallback) == "" || (IsCanonical(fallback) && IsAlnum(fallback[|fallback| - 1]))
  {
    CleanedShape(value);
    if Cleaned(value) != "" { CutFixed(CanonicalName(value, fallback), fallback); } else { FallbackFixed(fallback); }
  }

  /** 127 letters, a dash and a letter: the cut leaves the dash, which a second pass trims. */
  lemma CutLeavesDash(fallback: string)
    ensures var value := seq(127, i => 'a') + "-a";
            CanonicalName(CanonicalName(value, fallback), fallback) != CanonicalName(value, fallback)
  {
    var value := seq(127, i => 'a') + "-a";
    CleanedFixed(value);
    IdempotentIff(value, fallback);
  }

  /** Trimming the right edge of a name that starts with a letter or digit leaves something. */
  lemma {:induction false} StillAlnum(s: string)
    requires s != "" && IsAlnum(s[0])
    ensures TrimPunctRight(s) != ""
  {
    if IsPunct(s[|s| - 1]) {
      assert |s| > 1;
      StillAlnum(s[..|s| - 1]);
    }
  }
}
