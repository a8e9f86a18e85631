/** Reference semantics of a chain, independent of its nesting: the
    interceptors' transformations applied one after another along a list. */
module Pipeline {
  import opened Results

  /** One read step: an error passes through untouched, a value is
      transformed by `ic`. */
  function ThenRead<I, T>(r: Result<T>, ic: I, step: (I, T) -> Result<T>): Result<T>
  {
    match r
    case Err(e) => Err(e)
    case Ok(x) => step(ic, x)
  }

  /** The read steps of `order`, first element first, starting from `start`. */
  function ApplyReads<I, T>(order: seq<I>, step: (I, T) -> Result<T>, start: Result<T>): Result<T>
    decreases |order|
  {
    if |order| == 0 then start
    else ApplyReads(order[1..], step, ThenRead(start, order[0], step))
  }

  /** The write steps of `order`, first element first: the value that reaches
      the end, or the first drop or rejection. */
  function ApplyWrites<I, T>(order: seq<I>, step: (I, T) -> Verdict<T>, x: T): Verdict<T>
    decreases |order|
  {
    if |order| == 0 then Forward(x)
    else
      match step(order[0], x)
      case Forward(y) => ApplyWrites(order[1..], step, y)
      case Drop => Drop
      case Reject(e) => Reject(e)
  }

  function Reverse<T>(s: seq<T>): (r: seq<T>)
    ensures |r| == |s|
    ensures forall i :: 0 <= i < |s| ==> r[i] == s[|s| - 1 - i]
  {
    if |s| == 0 then [] else Reverse(s[1..]) + [s[0]]
  }

  /** Appending an interceptor to the list adds one read step at the end. */
  lemma {:induction false} ApplyReadsSnoc<I, T>(order: seq<I>, ic: I, step: (I, T) -> Result<T>, start: Result<T>)
    ensures ApplyReads(order + [ic], step, start) == ThenRead(ApplyReads(order, step, start), ic, step)
    decreases |order|
  {
    if |order| == 0 {
      assert order + [ic] == [ic];
      assert [ic][1..] == [];
    } else {
      assert (order + [ic])[0] == order[0];
      assert (order + [ic])[1..] == order[1..] + [ic];
      ApplyReadsSnoc(order[1..], ic, step, ThenRead(start, order[0], step));
    }
  }

  /** The element appended last comes first in the reversal. */
  lemma ReverseSnoc<T>(s: seq<T>, x: T)
    ensures Reverse(s + [x]) == [x] + Reverse(s)
  {
  }

}
