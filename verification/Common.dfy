/** What several parts of the system share. */
module Common {
  /** Results of system calls (include/kernel.h). */
  const OK := 1
  const SYSERR := -1
  const EOF := -2
  const TIMEOUT := -3

  type Byte = b: nat | b < 256

  /** What a definition guarded by `Unfold` is about. */
  datatype Topic = Processes | Volume | Ownership | PortState | Labels | Goals

  /**
    Always true. Some definitions are guarded by it; a proof mentions it where it
    needs what such a definition is made of, and otherwise treats it as a whole.
  */
  predicate Unfold(t: Topic, w: bool) { true }

  ghost predicate Distinct<T(!new)>(s: seq<T>) {
    forall i, j :: 0 <= i < j < |s| ==> s[i] != s[j]
  }

  /** No value is on two lists, or twice on one. */
  ghost predicate Disjoint<T(!new)>(ls: seq<seq<T>>) {
    forall k, i, l, j :: 0 <= k < |ls| && 0 <= i < |ls[k]| && 0 <= l < |ls| && 0 <= j < |ls[l]| && ls[k][i] == ls[l][j]
      ==> k == l && i == j
  }

  datatype Option<+T> = None | Some(value: T)
}
