// The Python str operations the agent applies to model output: prefixes,
// str.find / str.rfind of one character, and str.find of a substring.
module PyStr {

  /** s[:n] for a non-negative n. */
  function Prefix(s: string, n: nat): (r: string)
    ensures |r| == if |s| <= n then |s| else n
    ensures r == s[..|r|]
  {
    if |s| <= n then s else s[..n]
  }

  /** s.find(ch): the first index holding ch, or -1. */
  function Find(s: string, ch: char): (i: int)
    ensures -1 <= i < |s|
    ensures i == -1 <==> ch !in s
    ensures 0 <= i ==> s[i] == ch && ch !in s[..i]
  {
    if s == [] then -1
    else if s[0] == ch then 0
    else
      var j := Find(s[1..], ch);
      if j == -1 then -1 else j + 1
  }

  /** s.rfind(ch): the last index holding ch, or -1. */
  function RFind(s: string, ch: char): (i: int)
    ensures -1 <= i < |s|
    ensures i == -1 <==> ch !in s
    ensures 0 <= i ==> s[i] == ch && ch !in s[i + 1..]
  {
    if s == [] then -1
    else if s[|s| - 1] == ch then |s| - 1
    else RFind(s[..|s| - 1], ch)
  }

  /** pat occurs in s starting at index i. */
  predicate At(s: string, pat: string, i: nat) {
    i + |pat| <= |s| && s[i..i + |pat|] == pat
  }

  /** s.find(pat, from): the first index at or after from where pat occurs, or -1. */
  function FindSub(s: string, pat: string, from: nat): (i: int)
    ensures i == -1 || (from <= i && At(s, pat, i))
    ensures i == -1 ==> forall j: nat :: from <= j ==> !At(s, pat, j)
    ensures 0 <= i ==> forall j: nat :: from <= j < i ==> !At(s, pat, j)
    decreases |s| - from
  {
    if from + |pat| > |s| then -1
    else if s[from..from + |pat|] == pat then from
    else FindSub(s, pat, from + 1)
  }
}
