/** Small shared vocabulary: optional values and outcomes of calls that can fail. */
module Common {

  datatype Option<+T> = None | Some(value: T)

  /** The outcome of a call into a collaborator that may raise: its value or the text of its error. */
  datatype Result<+T> = Success(value: T) | Failure(error: string)

  function Abs(n: int): (r: nat)
    ensures r == n || r == -n
  {
    if n < 0 then -n else n
  }

  /** Concatenation regroups freely. */
  lemma ConcatAssoc<T>(a: seq<T>, b: seq<T>, c: seq<T>)
    ensures a + b + c == a + (b + c)
  {
  }
}
