/**
 * The few JavaScript string operations the extension relies on, written out
 * as ECMAScript defines them: the character classes of `.` and `trim()`,
 * literal search, and the `$`-patterns that `String.prototype.replace`
 * interprets in a replacement string.
 */
module JsText {
  import opened Wrappers

  /** The LineTerminator code points; the regular-expression `.` does not match them. */
  predicate IsLineTerminator(c: char) {
    c == '\n' || c == '\r' || c == '\U{2028}' || c == '\U{2029}'
  }

  /** WhiteSpace (including every Zs space separator) or LineTerminator: what `trim()` removes. */
  predicate IsWhiteSpace(c: char) {
    || IsLineTerminator(c)
    || c == '\t' || c == '\U{000B}' || c == '\U{000C}' || c == ' '
    || c == '\U{00A0}' || c == '\U{FEFF}' || c == '\U{1680}'
    || ('\U{2000}' <= c <= '\U{200A}')
    || c == '\U{202F}' || c == '\U{205F}' || c == '\U{3000}'
  }

  predicate AllWhiteSpace(s: string) {
    forall i :: 0 <= i < |s| ==> IsWhiteSpace(s[i])
  }

  /** Drops leading white space. */
  function TrimStart(s: string): (r: string)
    ensures |r| <= |s| && r == s[|s| - |r|..]
    ensures AllWhiteSpace(s[..|s| - |r|])
    ensures r == [] || !IsWhiteSpace(r[0])
  {
    if s != [] && IsWhiteSpace(s[0]) then
      var r := TrimStart(s[1..]);
      TrimStartStep(s, r);
      r
    else
      s
  }

  /** Cutting one more white-space character in front keeps the cut all white space. */
  lemma TrimStartStep(s: string, r: string)
    requires s != [] && IsWhiteSpace(s[0])
    requires |r| <= |s| - 1 && r == s[1..][|s| - 1 - |r|..]
    requires AllWhiteSpace(s[1..][..|s| - 1 - |r|])
    ensures r == s[|s| - |r|..]
    ensures AllWhiteSpace(s[..|s| - |r|])
  {
    var cut := s[..|s| - |r|];
    var tail := s[1..][..|s| - 1 - |r|];
    forall i | 0 <= i < |cut| ensures IsWhiteSpace(cut[i]) {
      if i > 0 {
        assert cut[i] == tail[i - 1];
      }
    }
  }

  /** Drops trailing white space. */
  function TrimEnd(s: string): (r: string)
    ensures |r| <= |s| && r == s[..|r|]
    ensures AllWhiteSpace(s[|r|..])
    ensures r == [] || !IsWhiteSpace(r[|r| - 1])
  {
    if s != [] && IsWhiteSpace(s[|s| - 1]) then
      var r := TrimEnd(s[..|s| - 1]);
      TrimEndStep(s, r);
      r
    else
      s
  }

  /** Cutting one more white-space character at the back keeps the cut all white space. */
  lemma TrimEndStep(s: string, r: string)
    requires s != [] && IsWhiteSpace(s[|s| - 1])
    requires |r| <= |s| - 1 && r == s[..|s| - 1][..|r|]
    requires AllWhiteSpace(s[..|s| - 1][|r|..])
    ensures r == s[..|r|]
    ensures AllWhiteSpace(s[|r|..])
  {
    var cut := s[|r|..];
    var head := s[..|s| - 1][|r|..];
    forall i | 0 <= i < |cut| ensures IsWhiteSpace(cut[i]) {
      if i < |head| {
        assert cut[i] == head[i];
      }
    }
  }

  /** `String.prototype.trim`. */
  function Trim(s: string): string {
    TrimEnd(TrimStart(s))
  }

  /**
   * Cutting white space off the front of `s` to get `t`, and then off the back
   * of `t` to get `r`, leaves `r` as an inner slice of `s` with white space cut
   * on both sides.
   */
  lemma CutBothEnds(s: string, t: string, r: string) returns (i: nat, j: nat)
    requires |t| <= |s| && t == s[|s| - |t|..] && AllWhiteSpace(s[..|s| - |t|])
    requires t == [] || !IsWhiteSpace(t[0])
    requires |r| <= |t| && r == t[..|r|] && AllWhiteSpace(t[|r|..])
    requires r == [] || !IsWhiteSpace(r[|r| - 1])
    ensures i <= j <= |s| && r == s[i..j]
    ensures AllWhiteSpace(s[..i]) && AllWhiteSpace(s[j..])
    ensures r == [] || (!IsWhiteSpace(r[0]) && !IsWhiteSpace(r[|r| - 1]))
  {
    i := |s| - |t|;
    j := i + |r|;
    assert s[j..] == t[|r|..];
    if r != [] {
      assert r[0] == t[0];
    }
  }

  /** What `trim()` leaves is a slice of the input with only white space cut off either side. */
  lemma TrimIsInnerSlice(s: string) returns (i: nat, j: nat)
    ensures i <= j <= |s| && Trim(s) == s[i..j]
    ensures AllWhiteSpace(s[..i]) && AllWhiteSpace(s[j..])
    ensures Trim(s) == [] || (!IsWhiteSpace(Trim(s)[0]) && !IsWhiteSpace(Trim(s)[|Trim(s)| - 1]))
  {
    var t := TrimStart(s);
    i, j := CutBothEnds(s, t, TrimEnd(t));
  }

  /** A trimmed string is empty exactly when the input was all white space. */
  lemma TrimEmptyIff(s: string)
    ensures Trim(s) == [] <==> AllWhiteSpace(s)
  {
    var i, j := TrimIsInnerSlice(s);
    if Trim(s) == [] {
      assert s == s[..i] + s[j..];
    }
  }

  /** Trimming twice is trimming once, so the source's second `trim()` changes nothing. */
  lemma TrimIdempotent(s: string)
    ensures Trim(Trim(s)) == Trim(s)
  {
    var i, j := TrimIsInnerSlice(s);
  }

  /** A string with no white space at either end is left as it is. */
  lemma TrimOfTrimmed(s: string)
    requires s == [] || (!IsWhiteSpace(s[0]) && !IsWhiteSpace(s[|s| - 1]))
    ensures Trim(s) == s
  {
    assert TrimStart(s) == s;
  }

  /** A string that has something left after trimming keeps it when trimmed again. */
  lemma TrimAgainNonEmpty(s: string)
    requires Trim(s) != []
    ensures Trim(Trim(s)) != []
  {
    var i, j := TrimIsInnerSlice(s);
    TrimEmptyIff(Trim(s));
  }

  /** `pat` occurs in `s` starting at index `i`. */
  predicate OccursAt(s: string, pat: string, i: nat) {
    i + |pat| <= |s| && s[i..i + |pat|] == pat
  }

  /** `s.indexOf(pat, from)`: the first occurrence at or after `from`, if any. */
  function IndexOf(s: string, pat: string, from: nat): (r: Option<nat>)
    decreases |s| - from
    ensures r.Some? ==> from <= r.value && OccursAt(s, pat, r.value)
    ensures r.Some? ==> forall j :: from <= j < r.value ==> !OccursAt(s, pat, j)
    ensures r.None? ==> forall j :: from <= j ==> !OccursAt(s, pat, j)
  {
    if from + |pat| > |s| then None
    else if OccursAt(s, pat, from) then Some(from)
    else IndexOf(s, pat, from + 1)
  }

  /** A string that starts with `pat` has its first occurrence of `pat` at index 0. */
  lemma IndexOfPrefix(s: string, pat: string)
    requires pat <= s
    ensures IndexOf(s, pat, 0) == Some(0)
  {
    assert s[0..|pat|] == pat;
  }

  /**
   * GetSubstitution for a match without capture groups: in the replacement
   * template `$$` stands for `$`, `$&` for the matched text, `` $` `` for the
   * text before the match and `$'` for the text after it; every other `$` is
   * literal (with no groups `$1` and `$<` are left as written).
   */
  function Substitution(template: string, matched: string, before: string, after: string): string
    decreases |template|
  {
    if template == [] then []
    else if |template| >= 2 && template[0] == '$' && template[1] == '$' then
      "$" + Substitution(template[2..], matched, before, after)
    else if |template| >= 2 && template[0] == '$' && template[1] == '&' then
      matched + Substitution(template[2..], matched, before, after)
    else if |template| >= 2 && template[0] == '$' && template[1] == '`' then
      before + Substitution(template[2..], matched, before, after)
    else if |template| >= 2 && template[0] == '$' && template[1] == '\'' then
      after + Substitution(template[2..], matched, before, after)
    else
      [template[0]] + Substitution(template[1..], matched, before, after)
  }

  /** Text without `$` at the front of a replacement template is inserted literally. */
  lemma {:induction false} SubstitutionPlainPrefix(plain: string, rest: string, matched: string, before: string, after: string)
    requires '$' !in plain
    ensures Substitution(plain + rest, matched, before, after) == plain + Substitution(rest, matched, before, after)
  {
    if plain != [] {
      var t := plain + rest;
      assert t[0] == plain[0] != '$';
      assert t[1..] == plain[1..] + rest;
      SubstitutionPlainPrefix(plain[1..], rest, matched, before, after);
      assert plain == [plain[0]] + plain[1..];
    } else {
      assert plain + rest == rest;
    }
  }

  /** A replacement template without `$` is inserted as it is. */
  lemma SubstitutionOfPlainText(template: string, matched: string, before: string, after: string)
    requires '$' !in template
    ensures Substitution(template, matched, before, after) == template
  {
    SubstitutionPlainPrefix(template, [], matched, before, after);
    assert template + [] == template;
  }

  /** `s.replace(/pat/, template)` for a literal pattern: only the first occurrence is replaced. */
  function ReplaceFirst(s: string, pat: string, template: string): string {
    match IndexOf(s, pat, 0)
    case None => s
    case Some(i) => s[..i] + Substitution(template, pat, s[..i], s[i + |pat|..]) + s[i + |pat|..]
  }

  /** The replacement at the first occurrence, with the text before and after it. */
  lemma ReplaceFirstAt(s: string, pat: string, template: string, i: nat)
    requires IndexOf(s, pat, 0) == Some(i)
    ensures i + |pat| <= |s|
    ensures ReplaceFirst(s, pat, template) == s[..i] + Substitution(template, pat, s[..i], s[i + |pat|..]) + s[i + |pat|..]
  {
  }

  /** Replacing a leading `pat` keeps everything after it. */
  lemma ReplaceLeading(s: string, pat: string, template: string)
    requires pat <= s
    ensures ReplaceFirst(s, pat, template) == Substitution(template, pat, "", s[|pat|..]) + s[|pat|..]
  {
    IndexOfPrefix(s, pat);
    ReplaceFirstAt(s, pat, template, 0);
    var before, after := s[..0], s[|pat|..];
    assert before == "";
    var inserted := Substitution(template, pat, before, after);
    assert before + inserted + after == inserted + after;
  }
}
