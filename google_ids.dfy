/** The Drive/Sheets id extraction: the first match of the pattern `[-\w]{25,}` in a link, or
    the link itself when nothing matches. Without the `u` flag, `\w` is `[A-Za-z0-9_]`. */
module GoogleIds {

  /** The shortest run the pattern accepts. */
  const MinIdLength := 25

  /** The character class `[-\w]`. */
  predicate IsIdChar(c: char) {
    c == '-' || c == '_' || ('A' <= c <= 'Z') || ('a' <= c <= 'z') || ('0' <= c <= '9')
  }

  predicate AllIdChars(s: seq<char>) {
    forall k :: 0 <= k < |s| ==> IsIdChar(s[k])
  }

  /** Every position in `[a, b)` holds an id character. */
  predicate IdRange(s: seq<char>, a: int, b: int)
    requires 0 <= a <= b <= |s|
  {
    forall m :: a <= m < b ==> IsIdChar(s[m])
  }

  /** How far the greedy `[-\w]*` reaches from position `i`. */
  function RunLength(s: seq<char>, i: nat): (n: nat)
    requires i <= |s|
    ensures i + n <= |s|
    ensures IdRange(s, i, i + n)
    ensures i + n == |s| || !IsIdChar(s[i + n])
    decreases |s| - i
  {
    if i == |s| || !IsIdChar(s[i]) then 0 else 1 + RunLength(s, i + 1)
  }

  /** Position `j` starts a window of `MinIdLength` id characters. */
  predicate IdWindowAt(s: seq<char>, j: int) {
    0 <= j && j + MinIdLength <= |s| && IdRange(s, j, j + MinIdLength)
  }

  /** The pattern occurs somewhere in `s`. */
  ghost predicate HasIdRun(s: seq<char>) {
    exists j :: IdWindowAt(s, j)
  }

  /** The greedy run from `i` is long enough exactly when a full window starts at `i`. */
  lemma RunLongEnough(s: seq<char>, i: nat)
    requires i <= |s|
    ensures RunLength(s, i) >= MinIdLength <==> IdWindowAt(s, i)
  {
  }

  /** The regular-expression engine's scan: try each start from `i` onwards, in order, and stop
      at the first one where the greedy run reaches `MinIdLength`; -1 when none does. */
  function FirstRunStart(s: seq<char>, i: nat): (j: int)
    requires i <= |s|
    ensures j == -1 ==> forall k :: i <= k ==> !IdWindowAt(s, k)
    ensures j != -1 ==> i <= j && IdWindowAt(s, j)
    ensures j != -1 ==> forall k :: i <= k < j ==> !IdWindowAt(s, k)
    decreases |s| - i
  {
    RunLongEnough(s, i);
    if i + MinIdLength > |s| then -1
    else if RunLength(s, i) >= MinIdLength then i
    else FirstRunStart(s, i + 1)
  }

  /** `s[j..k]` is the leftmost run of id characters of length at least `MinIdLength`,
      taken in full: the characters either side of it are not id characters. */
  predicate IsLeftmostMaximalRun(s: seq<char>, j: int, k: int) {
    0 <= j && j + MinIdLength <= k <= |s|
    && IdRange(s, j, k)
    && (j == 0 || !IsIdChar(s[j - 1]))
    && (k == |s| || !IsIdChar(s[k]))
    && forall m :: 0 <= m < j ==> !IdWindowAt(s, m)
  }

  /** `extractIdFromUrl`: the matched run, or the input when the pattern does not occur. */
  function ExtractIdFromUrl(url: string): (r: string)
    ensures !HasIdRun(url) ==> r == url
    ensures HasIdRun(url) ==> MinIdLength <= |r| && AllIdChars(r)
    ensures HasIdRun(url) ==>
      var j := FirstRunStart(url, 0);
      IsLeftmostMaximalRun(url, j, j + |r|) && r == url[j..j + |r|]
  {
    var j := FirstRunStart(url, 0);
    if j == -1 then url
    else
      var n := RunLength(url, j);
      assert j > 0 ==> !IsIdChar(url[j - 1]) by {
        if j > 0 && IsIdChar(url[j - 1]) {
          assert IdWindowAt(url, j - 1);
        }
      }
      url[j..j + n]
  }

  /** A leftmost maximal run is unique. */
  lemma RunUnique(s: seq<char>, j: int, k: int, j2: int, k2: int)
    requires IsLeftmostMaximalRun(s, j, k) && IsLeftmostMaximalRun(s, j2, k2)
    ensures j == j2 && k == k2
  {
    WindowOfRun(s, j, k);
    WindowOfRun(s, j2, k2);
    assert j == j2;
  }

  /** A run of at least `MinIdLength` id characters starts a window. */
  lemma WindowOfRun(s: seq<char>, j: int, k: int)
    requires 0 <= j && j + MinIdLength <= k <= |s| && IdRange(s, j, k)
    ensures IdWindowAt(s, j)
  {
  }

  /** The result is the leftmost maximal run whenever there is one, however it is found. */
  lemma ExtractIsTheRun(url: string, j: int, k: int)
    requires IsLeftmostMaximalRun(url, j, k)
    ensures ExtractIdFromUrl(url) == url[j..k]
  {
    WindowOfRun(url, j, k);
    var r := ExtractIdFromUrl(url);
    var j2 := FirstRunStart(url, 0);
    RunUnique(url, j, k, j2, j2 + |r|);
  }

  /** An input that is one whole run comes back unchanged. */
  lemma WholeRunUnchanged(s: string)
    requires MinIdLength <= |s| && AllIdChars(s)
    ensures ExtractIdFromUrl(s) == s
  {
    assert s[0..|s|] == s;
    assert IdRange(s, 0, |s|);
    ExtractIsTheRun(s, 0, |s|);
  }

  /** Extracting from an extracted id changes nothing. */
  lemma ExtractIdempotent(url: string)
    ensures ExtractIdFromUrl(ExtractIdFromUrl(url)) == ExtractIdFromUrl(url)
  {
    if HasIdRun(url) {
      WholeRunUnchanged(ExtractIdFromUrl(url));
    }
  }
}
