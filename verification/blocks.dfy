/** Time blocks, the unit every list-mode acquisition stream is made of, and
    the sequence facts that the fusion merger and the retention sampler share. */
module Blocks {

  datatype Option<T> = None | Some(value: T)

  datatype Result<T, Err> = Success(value: T) | Failure(error: Err)

  /** One time block: its slot identifier, its prompt events and its delayed
      events, the latter possibly absent. Events are copied, never inspected. */
  datatype TimeBlock<E> = TimeBlock(id: int, prompts: seq<E>, delayed: Option<seq<E>>)

  /** The two event collections of a block, handled alike and never mixed. */
  datatype Kind = Prompt | Delayed

  /** The events of kind `k` carried by `b`; an absent delayed list holds none. */
  function EventsOf<E>(b: TimeBlock<E>, k: Kind): seq<E>
  {
    match k
    case Prompt => b.prompts
    case Delayed => if b.delayed.Some? then b.delayed.value else []
  }

  /** The events of kind `k` of every block, block after block. */
  function AllEvents<E>(blocks: seq<TimeBlock<E>>, k: Kind): seq<E>
  {
    if blocks == [] then [] else EventsOf(blocks[0], k) + AllEvents(blocks[1..], k)
  }

  lemma {:induction false} AllEventsAppend<E>(a: seq<TimeBlock<E>>, b: seq<TimeBlock<E>>, k: Kind)
    ensures AllEvents(a + b, k) == AllEvents(a, k) + AllEvents(b, k)
  {
    if a == [] {
      assert a + b == b;
    } else {
      assert (a + b)[1..] == a[1..] + b;
      AllEventsAppend(a[1..], b, k);
    }
  }

  /** The identifiers of `blocks` never decrease. */
  ghost predicate SortedIds<E>(blocks: seq<TimeBlock<E>>)
  {
    forall i, j :: 0 <= i < j < |blocks| ==> blocks[i].id <= blocks[j].id
  }

  /** The record convention: a delayed list is either absent or non-empty. */
  predicate DelayedNormal<E>(b: TimeBlock<E>)
  {
    b.delayed.None? || b.delayed.value != []
  }

  /** `a` is `b` with some elements left out and the others kept in order. */
  ghost predicate IsSubseq<T>(a: seq<T>, b: seq<T>)
    decreases |b|
  {
    if b == [] then a == []
    else
      (a != [] && a[|a| - 1] == b[|b| - 1] && IsSubseq(a[..|a| - 1], b[..|b| - 1]))
      || IsSubseq(a, b[..|b| - 1])
  }

  /** A subsequence is no longer than its source and takes no element more
      often than the source holds it. */
  lemma {:induction false} SubseqCounts<T>(a: seq<T>, b: seq<T>)
    requires IsSubseq(a, b)
    ensures |a| <= |b|
    ensures multiset(a) <= multiset(b)
  {
    if b != [] {
      var b' := b[..|b| - 1];
      assert b == b' + [b[|b| - 1]];
      if a != [] && a[|a| - 1] == b[|b| - 1] && IsSubseq(a[..|a| - 1], b') {
        SubseqCounts(a[..|a| - 1], b');
        assert a == a[..|a| - 1] + [a[|a| - 1]];
      } else {
        SubseqCounts(a, b');
      }
    }
  }
}
