/**
 * The project name that the extension reads out of an intercepted download
 * URL with `url.replace(/.+&baseDir=/, '').replace(/&.+/, '')`.
 *
 * Both replacements are non-global, so each removes the first match that
 * the JavaScript matcher finds: it tries start positions from left to
 * right and, at each one, lets the greedy `.+` take as much as it can
 * before backing off.  `.` matches every character except a line
 * terminator, and the surrounding definitions keep that exception.
 */
module ProjectNameChain {
  import opened Wrappers
  import opened JsText

  const BaseDirKey := "&baseDir="

  /** `.` can match every character of `s[i..j]`. */
  predicate Dots(s: string, i: nat, j: nat) {
    i <= j <= |s| && forall m :: i <= m < j ==> !IsLineTerminator(s[m])
  }

  predicate NoLineTerminators(s: string) {
    Dots(s, 0, |s|)
  }

  /** `/.+&baseDir=/` matches `s[p..k + 9]`, its `.+` taking `s[p..k]`. */
  predicate BaseDirMatch(s: string, p: nat, k: nat) {
    p < k && Dots(s, p, k) && OccursAt(s, BaseDirKey, k)
  }

  /** `/&.+/` matches `s[p..q]`, its `.+` taking `s[p + 1..q]`. */
  predicate AmpMatch(s: string, p: nat, q: nat) {
    p + 1 < q && Dots(s, p + 1, q) && s[p] == '&'
  }

  /** The end of the run of `.`-matchable characters that starts at `i`. */
  function RunEnd(s: string, i: nat): (e: nat)
    requires i <= |s|
    decreases |s| - i
    ensures i <= e <= |s| && Dots(s, i, e)
    ensures e < |s| ==> IsLineTerminator(s[e])
  {
    if i == |s| || IsLineTerminator(s[i]) then i else RunEnd(s, i + 1)
  }

  /** The last occurrence of `&baseDir=` strictly between `lo` and `hi`. */
  function LastKeyBetween(s: string, lo: nat, hi: nat): (r: Option<nat>)
    decreases hi
    ensures r.Some? ==> lo < r.value < hi && OccursAt(s, BaseDirKey, r.value)
    ensures r.Some? ==> forall k :: r.value < k < hi ==> !OccursAt(s, BaseDirKey, k)
    ensures r.None? ==> forall k :: lo < k < hi ==> !OccursAt(s, BaseDirKey, k)
  {
    if hi <= lo + 1 then None
    else if OccursAt(s, BaseDirKey, hi - 1) then Some(hi - 1)
    else LastKeyBetween(s, lo, hi - 1)
  }

  /** A match that starts at `p` ends its `.+` before the run of `p` ends. */
  lemma BaseDirMatchInsideRun(s: string, p: nat)
    requires p <= |s|
    ensures forall k: nat :: BaseDirMatch(s, p, k) ==> k < RunEnd(s, p)
  {
    var e := RunEnd(s, p);
    forall k: nat | BaseDirMatch(s, p, k) ensures k < e {
      assert s[k] == s[k..k + |BaseDirKey|][0];
    }
  }

  /**
   * The match of `/.+&baseDir=/` that the matcher finds when it starts
   * looking at `p`: the leftmost start, and for that start the longest `.+`.
   */
  function FindBaseDir(s: string, p: nat): (r: Option<(nat, nat)>)
    requires p <= |s|
    decreases |s| - p
    ensures r.Some? ==> p <= r.value.0 && BaseDirMatch(s, r.value.0, r.value.1)
    ensures r.Some? ==> forall q, k :: p <= q < r.value.0 ==> !BaseDirMatch(s, q, k)
    ensures r.Some? ==> forall k :: r.value.1 < k ==> !BaseDirMatch(s, r.value.0, k)
    ensures r.None? ==> forall q, k :: p <= q ==> !BaseDirMatch(s, q, k)
  {
    if p == |s| then None
    else
      BaseDirMatchInsideRun(s, p);
      match LastKeyBetween(s, p, RunEnd(s, p))
      case Some(k) => Some((p, k))
      case None => FindBaseDir(s, p + 1)
  }

  /** The match of `/&.+/` found when the search starts at `p`. */
  function FindAmp(s: string, p: nat): (r: Option<(nat, nat)>)
    decreases |s| - p
    ensures r.Some? ==> p <= r.value.0 && AmpMatch(s, r.value.0, r.value.1)
    ensures r.Some? ==> forall q, j :: p <= q < r.value.0 ==> !AmpMatch(s, q, j)
    ensures r.Some? ==> forall j :: r.value.1 < j ==> !AmpMatch(s, r.value.0, j)
    ensures r.None? ==> forall q, j :: p <= q ==> !AmpMatch(s, q, j)
  {
    if p + 1 >= |s| then None
    else if s[p] == '&' && !IsLineTerminator(s[p + 1]) then Some((p, RunEnd(s, p + 1)))
    else FindAmp(s, p + 1)
  }

  /** `url.replace(/.+&baseDir=/, '')`. */
  function StripThroughBaseDir(url: string): string {
    match FindBaseDir(url, 0)
    case None => url
    case Some((p, k)) => url[..p] + url[k + |BaseDirKey|..]
  }

  /** `s.replace(/&.+/, '')`. */
  function CutAtAmpersand(s: string): string {
    match FindAmp(s, 0)
    case None => s
    case Some((p, q)) => s[..p] + s[q..]
  }

  /** Line 27 of the extension: the project name of an intercepted URL. */
  function ProjectName(url: string): string {
    CutAtAmpersand(StripThroughBaseDir(url))
  }

  /** `k` is the last `&baseDir=` that has at least one character before it. */
  ghost predicate IsLastKey(s: string, k: nat) {
    1 <= k && OccursAt(s, BaseDirKey, k) && forall k' :: k < k' ==> !OccursAt(s, BaseDirKey, k')
  }

  /** `p` is the first `&` that has a character after it. */
  ghost predicate IsFirstInnerAmp(s: string, p: nat) {
    p + 1 < |s| && s[p] == '&' && forall i :: 0 <= i < p ==> !(s[i] == '&' && i + 1 < |s|)
  }

  /**
   * Without line terminators the first replacement deletes everything up to
   * and including the last `&baseDir=` that starts at index 1 or later, and
   * leaves a URL without such an occurrence alone.
   */
  lemma StripWithoutLineTerminators(s: string)
    requires NoLineTerminators(s)
    ensures (forall k :: 1 <= k ==> !OccursAt(s, BaseDirKey, k)) ==> StripThroughBaseDir(s) == s
    ensures forall k: nat :: IsLastKey(s, k) ==> StripThroughBaseDir(s) == s[k + |BaseDirKey|..]
  {
    var found := FindBaseDir(s, 0);
    forall k: nat | IsLastKey(s, k) ensures StripThroughBaseDir(s) == s[k + |BaseDirKey|..] {
      assert BaseDirMatch(s, 0, k);
    }
  }

  /**
   * Without line terminators the second replacement truncates at the first
   * `&` that has a character after it, and leaves a string without one alone.
   */
  lemma CutWithoutLineTerminators(s: string)
    requires NoLineTerminators(s)
    ensures forall p: nat :: IsFirstInnerAmp(s, p) ==> CutAtAmpersand(s) == s[..p]
    ensures (forall i :: 0 <= i < |s| - 1 ==> s[i] != '&') ==> CutAtAmpersand(s) == s
  {
    var found := FindAmp(s, 0);
    forall p: nat | IsFirstInnerAmp(s, p) ensures CutAtAmpersand(s) == s[..p] {
      assert AmpMatch(s, p, |s|);
    }
  }

  /** A slice of a string without line terminators has none either. */
  lemma SliceWithoutLineTerminators(s: string, i: nat)
    requires NoLineTerminators(s) && i <= |s|
    ensures NoLineTerminators(s[i..])
  {
    forall m | 0 <= m < |s[i..]| ensures !IsLineTerminator(s[i..][m]) {
      assert s[i..][m] == s[i + m];
    }
  }

  /**
   * The project name is what follows the last `&baseDir=` (one that has a
   * character before it), with the second replacement applied to it.
   */
  lemma ProjectNameAfterLastKey(url: string, k: nat)
    requires NoLineTerminators(url) && IsLastKey(url, k)
    ensures ProjectName(url) == CutAtAmpersand(url[k + |BaseDirKey|..])
  {
    StripWithoutLineTerminators(url);
  }

  /**
   * A URL without a `&baseDir=` after its first character keeps its text up
   * to the second replacement; when it starts with something other than `&`
   * (every intercepted URL starts with `/`) the name is never empty, so the
   * extraction goes ahead.
   */
  lemma ProjectNameWithoutKey(url: string)
    requires forall k :: 1 <= k ==> !OccursAt(url, BaseDirKey, k)
    ensures ProjectName(url) == CutAtAmpersand(url)
    ensures url != [] && url[0] != '&' ==> ProjectName(url) != []
  {
    var found := FindBaseDir(url, 0);
  }

  /**
   * Without line terminators the project name holds no `&` except possibly
   * as its last character.
   */
  lemma ProjectNameHasNoInnerAmpersand(url: string)
    requires NoLineTerminators(url)
    ensures forall i :: 0 <= i < |ProjectName(url)| - 1 ==> ProjectName(url)[i] != '&'
  {
    var t := StripThroughBaseDir(url);
    assert NoLineTerminators(t) by {
      match FindBaseDir(url, 0)
      case None =>
      case Some((p, k)) =>
        SliceWithoutLineTerminators(url, k + |BaseDirKey|);
        assert p == 0;
    }
    match FindAmp(t, 0)
    case None =>
      forall i | 0 <= i < |t| - 1 ensures t[i] != '&' {
        assert !AmpMatch(t, i, |t|);
      }
    case Some((p, q)) =>
      assert AmpMatch(t, p, |t|);
      forall i | 0 <= i < p ensures t[i] != '&' {
        assert !AmpMatch(t, i, |t|);
      }
  }

  const ExampleUrl := "/starter.zip?type=maven-project&baseDir=demo"

  lemma ExampleUrlHasNoLineTerminators()
    ensures NoLineTerminators(ExampleUrl)
  {
    // Every character is printable ASCII, so none is a line terminator.
    forall m | 0 <= m < |ExampleUrl| ensures ' ' <= ExampleUrl[m] <= '~' {}
  }

  lemma ExampleUrlLastKey()
    ensures IsLastKey(ExampleUrl, 31)
  {
    assert ExampleUrl[31..40] == BaseDirKey;
    forall k: nat | 31 < k ensures !OccursAt(ExampleUrl, BaseDirKey, k) {
      if k + |BaseDirKey| <= |ExampleUrl| {
        assert ExampleUrl[k] != '&';
        assert ExampleUrl[k..k + |BaseDirKey|][0] == ExampleUrl[k];
      }
    }
  }

  const DemoName := "demo"

  /** What follows the last key of the example URL. */
  lemma ExampleUrlTail()
    ensures ExampleUrl[31 + |BaseDirKey|..] == DemoName
  {
  }

  /** A name without `&` is not cut. */
  lemma DemoNameNotCut()
    ensures CutAtAmpersand(DemoName) == DemoName
  {
    assert NoLineTerminators(DemoName);
    CutWithoutLineTerminators(DemoName);
  }

  /** The URL the Spring Initializr form requests for a Maven project named `demo`. */
  lemma ProjectNameExample()
    ensures ProjectName(ExampleUrl) == "demo"
  {
    ExampleUrlHasNoLineTerminators();
    ExampleUrlLastKey();
    ProjectNameAfterLastKey(ExampleUrl, 31);
    ExampleUrlTail();
    DemoNameNotCut();
  }
}
