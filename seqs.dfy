/** Facts about sequences shared by the front-end and back-end filters. */
module Seqs {

  /** `r` is obtained from `s` by deleting elements, keeping the order of the
      rest. */
  ghost predicate IsSubsequence<T>(r: seq<T>, s: seq<T>)
    decreases |s|
  {
    r == [] || (s != [] && ((r[0] == s[0] && IsSubsequence(r[1..], s[1..])) || IsSubsequence(r, s[1..])))
  }
}
