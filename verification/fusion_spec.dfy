/** The absolute-time ("fusion") merge of several time-block streams, as pure
    functions: one call of `Fusion` unfolds one iteration of the merge loop of
    python/merger.py. The imperative loop in module FusionLoop is proved
    equal to `Fusion`; the properties of the merge are proved here about it. */
module FusionSpec {
  import opened Blocks

  /** A live input stream as the merge loop sees it: `rest[0]` is the block
      held in the stream's buffer, the other elements are what the stream
      has not yielded yet, and `offset` is the stream's start in slots. */
  datatype Cursor<E> = Cursor(rest: seq<TimeBlock<E>>, offset: int)

  /** The event-shuffling generator: `shuffle(n, s)` is the order that the
      n-th shuffle of the run gives to `s`. */
  type Shuffler<!E> = (nat, seq<E>) -> seq<E>

  /** Every shuffle reorders its input and neither adds nor drops events. */
  ghost predicate Permuting<E(!new)>(shuffle: Shuffler<E>)
  {
    forall n, s :: multiset(shuffle(n, s)) == multiset(s)
  }

  /** Every live stream holds a buffered block. */
  ghost predicate Buffered<E>(live: seq<Cursor<E>>)
  {
    forall i :: 0 <= i < |live| ==> live[i].rest != []
  }

  /** The effective slot of a stream: buffered id plus the stream's offset. */
  function Slot<E>(c: Cursor<E>): int
    requires c.rest != []
  {
    c.rest[0].id + c.offset
  }

  function Slots<E>(live: seq<Cursor<E>>): (r: seq<int>)
    requires Buffered(live)
    ensures |r| == |live|
    ensures forall i :: 0 <= i < |live| ==> r[i] == Slot(live[i])
  {
    seq(|live|, i requires 0 <= i < |live| => Slot(live[i]))
  }

  /** The smallest element of a non-empty list, as Python's `min`. */
  function Min(s: seq<int>): (m: int)
    requires s != []
    ensures m in s
    ensures forall x :: x in s ==> m <= x
  {
    if |s| == 1 then s[0]
    else
      var m' := Min(s[..|s| - 1]);
      assert s == s[..|s| - 1] + [s[|s| - 1]];
      if s[|s| - 1] < m' then s[|s| - 1] else m'
  }

  /** The streams opened on the given inputs, each with its offset. */
  function Initial<E>(streams: seq<seq<TimeBlock<E>>>, offsets: seq<int>): (live: seq<Cursor<E>>)
    requires |offsets| == |streams|
    ensures |live| == |streams|
    ensures forall i :: 0 <= i < |streams| ==> live[i] == Cursor(streams[i], offsets[i])
  {
    seq(|streams|, i requires 0 <= i < |streams| => Cursor(streams[i], offsets[i]))
  }

  /** The events of kind `k` of all input streams, stream after stream. */
  function Inputs<E>(streams: seq<seq<TimeBlock<E>>>, k: Kind): seq<E>
  {
    if streams == [] then []
    else Inputs(streams[..|streams| - 1], k) + AllEvents(streams[|streams| - 1], k)
  }

  /** The events of kind `k` not yet emitted: buffered ones and unread ones. */
  function Pending<E>(live: seq<Cursor<E>>, k: Kind): seq<E>
  {
    if live == [] then []
    else Pending(live[..|live| - 1], k) + AllEvents(live[|live| - 1].rest, k)
  }

  /** The number of blocks not yet consumed, buffered ones included. */
  function Remaining<E>(live: seq<Cursor<E>>): nat
  {
    if live == [] then 0
    else Remaining(live[..|live| - 1]) + |live[|live| - 1].rest|
  }

  /** The events of kind `k` that the streams due at slot `t` contribute, in
      stream order (a stream is due when its effective slot is `<= t`). */
  function Due<E>(live: seq<Cursor<E>>, t: int, k: Kind): seq<E>
    requires Buffered(live)
  {
    if live == [] then []
    else
      var c := live[|live| - 1];
      Due(live[..|live| - 1], t, k) + (if Slot(c) <= t then EventsOf(c.rest[0], k) else [])
  }

  /** The number of streams due at slot `t` (the loop's `nbMerged`). */
  function DueCount<E>(live: seq<Cursor<E>>, t: int): nat
    requires Buffered(live)
  {
    if live == [] then 0
    else DueCount(live[..|live| - 1], t) + (if Slot(live[|live| - 1]) <= t then 1 else 0)
  }

  /** What becomes of a due stream once its buffered block is consumed: it
      buffers its next block, or it is retired when it has none. */
  function Consume<E>(c: Cursor<E>): seq<Cursor<E>>
    requires c.rest != []
  {
    if |c.rest| == 1 then [] else [Cursor(c.rest[1..], c.offset)]
  }

  /** What becomes of stream `c` in the iteration for slot `t`. */
  function StepCursor<E>(c: Cursor<E>, t: int): seq<Cursor<E>>
    requires c.rest != []
  {
    if Slot(c) <= t then Consume(c) else [c]
  }

  /** The live streams after the iteration for slot `t`, in their old order. */
  function Advance<E>(live: seq<Cursor<E>>, t: int): (r: seq<Cursor<E>>)
    requires Buffered(live)
    ensures Buffered(r)
    ensures |r| <= |live|
  {
    if live == [] then []
    else Advance(live[..|live| - 1], t) + StepCursor(live[|live| - 1], t)
  }

  /** Lines 257-266: the block written for slot `t` from the gathered
      prompt and delayed events of `nbMerged` streams, and the number of
      shuffles done after it. */
  function ComposeBlock<E(!new)>(t: int, prompts: seq<E>, delays: seq<E>, nbMerged: nat,
                           shuffleEvents: bool, shuffle: Shuffler<E>, draws: nat): (r: (TimeBlock<E>, nat))
    ensures r.0.id == t
    ensures DelayedNormal(r.0)
    ensures EventsOf(r.0, Delayed) == delays
    ensures !(shuffleEvents && nbMerged > 1) ==> r.0.prompts == prompts && r.1 == draws
    ensures Permuting(shuffle) ==> multiset(r.0.prompts) == multiset(prompts)
  {
    var mix := nbMerged > 1 && shuffleEvents;
    var p1 := if mix then shuffle(draws, prompts) else prompts;
    var d1 := if mix then draws + 1 else draws;
    if |delays| == 0 then
      (TimeBlock(t, p1, None), d1)
    else
      // the second shuffle of the loop shuffles the prompts once more
      var p2 := if mix then shuffle(d1, p1) else p1;
      var d2 := if mix then d1 + 1 else d1;
      (TimeBlock(t, p2, Some(delays)), d2)
  }

  /** The output of the merge loop run on the live streams `live`, `draws`
      shuffles having been done before. */
  function Fusion<E(!new)>(live: seq<Cursor<E>>, shuffleEvents: bool, shuffle: Shuffler<E>, draws: nat): seq<TimeBlock<E>>
    requires Buffered(live)
    decreases Remaining(live)
  {
    if live == [] then []
    else
      var t := Min(Slots(live));
      var composed := ComposeBlock(t, Due(live, t, Prompt), Due(live, t, Delayed), DueCount(live, t),
                                   shuffleEvents, shuffle, draws);
      AdvanceConsumes(live);
      [composed.0] + Fusion(Advance(live, t), shuffleEvents, shuffle, composed.1)
  }

  // ---------------------------------------------------------------------
  // One iteration
  // ---------------------------------------------------------------------

  /** Extending a prefix of the streams by one stream extends what is due
      and what remains by that stream's share. */
  lemma {:induction false} PrefixStep<E>(live: seq<Cursor<E>>, i: nat, t: int)
    requires Buffered(live) && i < |live|
    ensures Due(live[..i + 1], t, Prompt)
            == Due(live[..i], t, Prompt) + (if Slot(live[i]) <= t then live[i].rest[0].prompts else [])
    ensures Due(live[..i + 1], t, Delayed)
            == Due(live[..i], t, Delayed) + (if Slot(live[i]) <= t then EventsOf(live[i].rest[0], Delayed) else [])
    ensures DueCount(live[..i + 1], t) == DueCount(live[..i], t) + (if Slot(live[i]) <= t then 1 else 0)
    ensures Advance(live[..i + 1], t) == Advance(live[..i], t) + StepCursor(live[i], t)
  {
    assert live[..i + 1][..i] == live[..i];
  }

  /** Each due stream gives up exactly one block; the others keep theirs. */
  lemma {:induction false} AdvanceRemaining<E>(live: seq<Cursor<E>>, t: int)
    requires Buffered(live)
    ensures Remaining(Advance(live, t)) + DueCount(live, t) == Remaining(live)
  {
    if live != [] {
      var init, c := live[..|live| - 1], live[|live| - 1];
      AdvanceRemaining(init, t);
      RemainingAppend(Advance(init, t), StepCursor(c, t));
      if Slot(c) <= t && |c.rest| > 1 {
        assert Remaining([Cursor(c.rest[1..], c.offset)]) == |c.rest| - 1 by {
          assert [Cursor(c.rest[1..], c.offset)][..0] == [];
        }
      } else if Slot(c) > t {
        assert [c][..0] == [];
      }
    }
  }

  lemma {:induction false} RemainingAppend<E>(a: seq<Cursor<E>>, b: seq<Cursor<E>>)
    ensures Remaining(a + b) == Remaining(a) + Remaining(b)
    decreases |b|
  {
    if b == [] {
      assert a + b == a;
    } else {
      assert (a + b)[..|a + b| - 1] == a + b[..|b| - 1];
      RemainingAppend(a, b[..|b| - 1]);
    }
  }

  /** A stream whose slot is at most `t` makes at least one stream due. */
  lemma {:induction false} DueCountPositive<E>(live: seq<Cursor<E>>, t: int, i: nat)
    requires Buffered(live)
    requires i < |live| && Slot(live[i]) <= t
    ensures DueCount(live, t) >= 1
  {
    if i < |live| - 1 {
      DueCountPositive(live[..|live| - 1], t, i);
    }
  }

  /** At the minimum slot, the due streams are exactly those whose effective
      slot equals it, and there is at least one of them. */
  lemma {:induction false} DueAtMinimum<E>(live: seq<Cursor<E>>)
    requires Buffered(live) && live != []
    ensures forall i :: 0 <= i < |live| ==>
              (Slot(live[i]) <= Min(Slots(live)) <==> Slot(live[i]) == Min(Slots(live)))
    ensures DueCount(live, Min(Slots(live))) >= 1
  {
    var s := Slots(live);
    var t := Min(s);
    forall i | 0 <= i < |live|
      ensures Slot(live[i]) >= t
    {
      assert s[i] in s;
    }
    var i :| 0 <= i < |live| && s[i] == t;
    DueCountPositive(live, t, i);
  }

  /** Termination of the loop: every iteration consumes at least one block. */
  lemma {:induction false} AdvanceConsumes<E>(live: seq<Cursor<E>>)
    requires Buffered(live) && live != []
    ensures Remaining(Advance(live, Min(Slots(live)))) < Remaining(live)
  {
    DueAtMinimum(live);
    AdvanceRemaining(live, Min(Slots(live)));
  }

  // ---------------------------------------------------------------------
  // Conservation of events
  // ---------------------------------------------------------------------

  lemma {:induction false} PendingAppend<E>(a: seq<Cursor<E>>, b: seq<Cursor<E>>, k: Kind)
    ensures Pending(a + b, k) == Pending(a, k) + Pending(b, k)
    decreases |b|
  {
    if b == [] {
      assert a + b == a;
    } else {
      var init, last := b[..|b| - 1], AllEvents(b[|b| - 1].rest, k);
      assert (a + b)[..|a + b| - 1] == a + init;
      assert (a + b)[|a + b| - 1] == b[|b| - 1];
      PendingAppend(a, init, k);
      calc {
        Pending(a + b, k);
        Pending(a + init, k) + last;
        (Pending(a, k) + Pending(init, k)) + last;
        Pending(a, k) + (Pending(init, k) + last);
        Pending(a, k) + Pending(b, k);
      }
    }
  }

  /** What one stream emits in an iteration plus what it still holds after
      it are the events it held before. */
  lemma {:induction false} StepConserves<E>(c: Cursor<E>, t: int, k: Kind)
    requires c.rest != []
    ensures multiset(if Slot(c) <= t then EventsOf(c.rest[0], k) else []) + multiset(Pending(StepCursor(c, t), k))
            == multiset(AllEvents(c.rest, k))
  {
    if Slot(c) <= t {
      assert AllEvents(c.rest, k) == EventsOf(c.rest[0], k) + AllEvents(c.rest[1..], k);
      if |c.rest| > 1 {
        var d := Cursor(c.rest[1..], c.offset);
        assert [d][..0] == [];
        assert Pending([d], k) == AllEvents(c.rest[1..], k);
      } else {
        assert c.rest[1..] == [];
      }
    } else {
      assert [c][..0] == [];
      assert Pending([c], k) == AllEvents(c.rest, k);
    }
  }

  /** One iteration neither loses nor duplicates an event: the events it
      emits and those still pending afterwards are those pending before. */
  lemma {:induction false} IterationConserves<E>(live: seq<Cursor<E>>, t: int, k: Kind)
    requires Buffered(live)
    ensures multiset(Due(live, t, k)) + multiset(Pending(Advance(live, t), k)) == multiset(Pending(live, k))
  {
    if live != [] {
      var init, c := live[..|live| - 1], live[|live| - 1];
      var emitted := if Slot(c) <= t then EventsOf(c.rest[0], k) else [];
      assert Due(live, t, k) == Due(init, t, k) + emitted;
      assert Advance(live, t) == Advance(init, t) + StepCursor(c, t);
      assert Pending(live, k) == Pending(init, k) + AllEvents(c.rest, k);
      IterationConserves(init, t, k);
      PendingAppend(Advance(init, t), StepCursor(c, t), k);
      StepConserves(c, t, k);
      var a, b := multiset(Due(init, t, k)), multiset(emitted);
      var x, y := multiset(Pending(Advance(init, t), k)), multiset(Pending(StepCursor(c, t), k));
      calc {
        multiset(Due(live, t, k)) + multiset(Pending(Advance(live, t), k));
        (a + b) + (x + y);
        (a + x) + (b + y);
        multiset(Pending(init, k)) + multiset(AllEvents(c.rest, k));
        multiset(Pending(live, k));
      }
    }
  }

  /** Conservation: the delayed events written out are, counted with
      multiplicity, exactly the delayed events pending in the streams, and so
      are the prompt events when shuffling is off or the generator only
      reorders. */
  lemma {:induction false} FusionConserves<E(!new)>(live: seq<Cursor<E>>, shuffleEvents: bool, shuffle: Shuffler<E>,
                                              draws: nat, k: Kind)
    requires Buffered(live)
    requires k == Prompt && shuffleEvents ==> Permuting(shuffle)
    ensures multiset(AllEvents(Fusion(live, shuffleEvents, shuffle, draws), k)) == multiset(Pending(live, k))
    decreases Remaining(live)
  {
    if live != [] {
      var t := Min(Slots(live));
      var composed := ComposeBlock(t, Due(live, t, Prompt), Due(live, t, Delayed), DueCount(live, t),
                                   shuffleEvents, shuffle, draws);
      AdvanceConsumes(live);
      var rest := Fusion(Advance(live, t), shuffleEvents, shuffle, composed.1);
      assert Fusion(live, shuffleEvents, shuffle, draws) == [composed.0] + rest;
      FusionConserves(Advance(live, t), shuffleEvents, shuffle, composed.1, k);
      IterationConserves(live, t, k);
      assert ([composed.0] + rest)[1..] == rest;
      assert multiset(EventsOf(composed.0, k)) == multiset(Due(live, t, k));
    }
  }

  /** The pending events of freshly opened streams are the input events. */
  lemma {:induction false} PendingInitial<E>(streams: seq<seq<TimeBlock<E>>>, offsets: seq<int>, k: Kind)
    requires |offsets| == |streams|
    ensures Pending(Initial(streams, offsets), k) == Inputs(streams, k)
  {
    if streams != [] {
      var n := |streams|;
      assert Initial(streams, offsets)[..n - 1] == Initial(streams[..n - 1], offsets[..n - 1]);
      PendingInitial(streams[..n - 1], offsets[..n - 1], k);
    }
  }

  // ---------------------------------------------------------------------
  // Order of the output slots
  // ---------------------------------------------------------------------

  /** Every live stream's remaining blocks are in non-decreasing id order. */
  ghost predicate CursorsSorted<E>(live: seq<Cursor<E>>)
  {
    forall i :: 0 <= i < |live| ==> SortedIds(live[i].rest)
  }

  /** No live stream's effective slot lies below `t`. */
  ghost predicate SlotsFrom<E>(live: seq<Cursor<E>>, t: int)
    requires Buffered(live)
  {
    forall i :: 0 <= i < |live| ==> Slot(live[i]) >= t
  }

  /** After the iteration for a lower bound `t` of all slots, the streams are
      still sorted and no slot has fallen below `t`. */
  lemma {:induction false} AdvanceKeepsOrder<E>(live: seq<Cursor<E>>, t: int)
    requires Buffered(live) && CursorsSorted(live) && SlotsFrom(live, t)
    ensures CursorsSorted(Advance(live, t)) && SlotsFrom(Advance(live, t), t)
  {
    if live != [] {
      var init, c := live[..|live| - 1], live[|live| - 1];
      AdvanceKeepsOrder(init, t);
      var tail := StepCursor(c, t);
      if Slot(c) <= t && |c.rest| > 1 {
        assert c.rest[1].id >= c.rest[0].id;
      }
      assert CursorsSorted(tail) && SlotsFrom(tail, t);
      assert Advance(live, t) == Advance(init, t) + tail;
    }
  }

  lemma {:induction false} SortedCons<E>(b: TimeBlock<E>, rest: seq<TimeBlock<E>>)
    requires SortedIds(rest)
    requires forall j :: 0 <= j < |rest| ==> b.id <= rest[j].id
    ensures SortedIds([b] + rest)
  {
    var out := [b] + rest;
    forall i, j | 0 <= i < j < |out|
      ensures out[i].id <= out[j].id
    {
      assert out[j] == rest[j - 1];
      if i > 0 {
        assert out[i] == rest[i - 1];
      }
    }
  }

  /** The minimum slot is a lower bound of every live stream's slot. */
  lemma {:induction false} MinIsFloor<E>(live: seq<Cursor<E>>)
    requires Buffered(live) && live != []
    ensures SlotsFrom(live, Min(Slots(live)))
  {
    forall i | 0 <= i < |live|
      ensures Slot(live[i]) >= Min(Slots(live))
    {
      assert Slots(live)[i] in Slots(live);
    }
  }

  /** A lower bound of every slot is a lower bound of the minimum. */
  lemma {:induction false} MinAbove<E>(live: seq<Cursor<E>>, t: int)
    requires Buffered(live) && live != [] && SlotsFrom(live, t)
    ensures Min(Slots(live)) >= t
  {
    var i :| 0 <= i < |live| && Slots(live)[i] == Min(Slots(live));
  }

  /** One unfolding of the run: a block for the minimum slot, then the run
      on the advanced streams. */
  lemma {:induction false} FusionStep<E(!new)>(live: seq<Cursor<E>>, shuffleEvents: bool, shuffle: Shuffler<E>, draws: nat)
    returns (b: TimeBlock<E>, draws': nat)
    requires Buffered(live) && live != []
    ensures b.id == Min(Slots(live))
    ensures (b, draws') == ComposeBlock(Min(Slots(live)), Due(live, Min(Slots(live)), Prompt),
                                        Due(live, Min(Slots(live)), Delayed), DueCount(live, Min(Slots(live))),
                                        shuffleEvents, shuffle, draws)
    ensures Remaining(Advance(live, Min(Slots(live)))) < Remaining(live)
    ensures Fusion(live, shuffleEvents, shuffle, draws)
            == [b] + Fusion(Advance(live, Min(Slots(live))), shuffleEvents, shuffle, draws')
  {
    var t := Min(Slots(live));
    var composed := ComposeBlock(t, Due(live, t, Prompt), Due(live, t, Delayed), DueCount(live, t),
                                 shuffleEvents, shuffle, draws);
    AdvanceConsumes(live);
    b, draws' := composed.0, composed.1;
  }

  /** The run writes one block per iteration and consumes at least one input
      block per iteration: it writes no more blocks than the streams hold,
      and writes nothing exactly when no stream is live. */
  lemma {:induction false} FusionLength<E(!new)>(live: seq<Cursor<E>>, shuffleEvents: bool, shuffle: Shuffler<E>, draws: nat)
    requires Buffered(live)
    ensures |Fusion(live, shuffleEvents, shuffle, draws)| <= Remaining(live)
    ensures Fusion(live, shuffleEvents, shuffle, draws) == [] <==> live == []
    decreases Remaining(live)
  {
    if live != [] {
      var b, draws' := FusionStep(live, shuffleEvents, shuffle, draws);
      FusionLength(Advance(live, Min(Slots(live))), shuffleEvents, shuffle, draws');
    }
  }

  /** The first block of a run over the opened inputs sits at the earliest
      effective slot: input `i`'s first block id plus its offset. */
  lemma {:induction false} FusionFirstSlot<E(!new)>(streams: seq<seq<TimeBlock<E>>>, offsets: seq<int>,
                                                    shuffleEvents: bool, shuffle: Shuffler<E>)
    requires |offsets| == |streams| && streams != []
    requires forall i :: 0 <= i < |streams| ==> streams[i] != []
    ensures var out := Fusion(Initial(streams, offsets), shuffleEvents, shuffle, 0);
            && out != []
            && (forall i :: 0 <= i < |streams| ==> out[0].id <= streams[i][0].id + offsets[i])
            && (exists i :: 0 <= i < |streams| && out[0].id == streams[i][0].id + offsets[i])
  {
    var live := Initial(streams, offsets);
    FusionHead(live, shuffleEvents, shuffle, 0);
    var slots := Slots(live);
    forall i | 0 <= i < |streams|
      ensures Min(slots) <= streams[i][0].id + offsets[i]
    {
      assert live[i] == Cursor(streams[i], offsets[i]);
      assert slots[i] in slots;
    }
    var i :| 0 <= i < |slots| && slots[i] == Min(slots);
    assert live[i] == Cursor(streams[i], offsets[i]);
  }

  /** The first block of a run carries the minimum slot of the live streams. */
  lemma {:induction false} FusionHead<E(!new)>(live: seq<Cursor<E>>, shuffleEvents: bool, shuffle: Shuffler<E>, draws: nat)
    requires Buffered(live) && live != []
    ensures Fusion(live, shuffleEvents, shuffle, draws) != []
    ensures Fusion(live, shuffleEvents, shuffle, draws)[0].id == Min(Slots(live))
  {
    var b, draws' := FusionStep(live, shuffleEvents, shuffle, draws);
  }

  /** Output order: the first block of the run carries the minimum effective
      slot, no block lies below it, and when every stream is sorted the
      output ids never decrease. */
  lemma {:induction false} FusionOrdered<E(!new)>(live: seq<Cursor<E>>, shuffleEvents: bool, shuffle: Shuffler<E>, draws: nat)
    requires Buffered(live) && CursorsSorted(live) && live != []
    ensures Fusion(live, shuffleEvents, shuffle, draws) != []
    ensures Fusion(live, shuffleEvents, shuffle, draws)[0].id == Min(Slots(live))
    ensures forall j :: 0 <= j < |Fusion(live, shuffleEvents, shuffle, draws)| ==>
              Fusion(live, shuffleEvents, shuffle, draws)[j].id >= Min(Slots(live))
    ensures SortedIds(Fusion(live, shuffleEvents, shuffle, draws))
    decreases Remaining(live)
  {
    var t := Min(Slots(live));
    var b, draws' := FusionStep(live, shuffleEvents, shuffle, draws);
    var next := Advance(live, t);
    var rest := Fusion(next, shuffleEvents, shuffle, draws');
    if next != [] {
      MinIsFloor(live);
      AdvanceKeepsOrder(live, t);
      FusionOrdered(next, shuffleEvents, shuffle, draws');
      MinAbove(next, t);
    }
    SortedCons(b, rest);
  }

  // ---------------------------------------------------------------------
  // Delayed-event normalisation and the single-stream case
  // ---------------------------------------------------------------------

  /** No output block carries an empty delayed list: none becomes absent. */
  lemma {:induction false} FusionNormalised<E(!new)>(live: seq<Cursor<E>>, shuffleEvents: bool, shuffle: Shuffler<E>, draws: nat)
    requires Buffered(live)
    ensures forall j :: 0 <= j < |Fusion(live, shuffleEvents, shuffle, draws)| ==>
              DelayedNormal(Fusion(live, shuffleEvents, shuffle, draws)[j])
    decreases Remaining(live)
  {
    if live != [] {
      var b, draws' := FusionStep(live, shuffleEvents, shuffle, draws);
      var next := Advance(live, Min(Slots(live)));
      var rest := Fusion(next, shuffleEvents, shuffle, draws');
      FusionNormalised(next, shuffleEvents, shuffle, draws');
      forall j | 0 <= j < |[b] + rest|
        ensures DelayedNormal(([b] + rest)[j])
      {
        if j > 0 {
          assert ([b] + rest)[j] == rest[j - 1];
        }
      }
    }
  }

  /** The block a lone stream's block `b` becomes: shifted by the stream's
      offset, with an empty delayed list made absent. */
  function Rebased<E>(b: TimeBlock<E>, offset: int): TimeBlock<E>
  {
    TimeBlock(b.id + offset, b.prompts, if EventsOf(b, Delayed) == [] then None else Some(EventsOf(b, Delayed)))
  }

  /** A single stream's first iteration writes its first block, moved and
      normalised, and leaves the stream of the blocks after it. */
  lemma {:induction false} SingleStreamStep<E(!new)>(blocks: seq<TimeBlock<E>>, offset: int,
                                                     shuffleEvents: bool, shuffle: Shuffler<E>, draws: nat)
    requires blocks != []
    ensures Fusion([Cursor(blocks, offset)], shuffleEvents, shuffle, draws)
            == [Rebased(blocks[0], offset)]
               + (if |blocks| == 1 then [] else Fusion([Cursor(blocks[1..], offset)], shuffleEvents, shuffle, draws))
  {
    var live := [Cursor(blocks, offset)];
    var t := Min(Slots(live));
    assert Slots(live) == [blocks[0].id + offset];
    assert live[..0] == [];
    assert Due(live, t, Prompt) == blocks[0].prompts;
    assert Due(live, t, Delayed) == EventsOf(blocks[0], Delayed);
    assert DueCount(live, t) == 1;
    var b, draws' := FusionStep(live, shuffleEvents, shuffle, draws);
    assert b == Rebased(blocks[0], offset) && draws' == draws;
    if |blocks| == 1 {
      assert Advance(live, t) == [];
    } else {
      assert Advance(live, t) == [Cursor(blocks[1..], offset)];
    }
  }

  /** Every block of a lone stream, moved and normalised, in order. */
  function RebasedAll<E>(blocks: seq<TimeBlock<E>>, offset: int): (r: seq<TimeBlock<E>>)
    requires blocks != []
    ensures |r| == |blocks|
    ensures forall j :: 0 <= j < |blocks| ==> r[j] == Rebased(blocks[j], offset)
    decreases |blocks|
  {
    if |blocks| == 1 then [Rebased(blocks[0], offset)]
    else
      var rest := RebasedAll(blocks[1..], offset);
      assert forall j :: 1 <= j < |blocks| ==> blocks[1..][j - 1] == blocks[j];
      [Rebased(blocks[0], offset)] + rest
  }

  /** A single stream is written back block for block, in order, never
      shuffled, each block moved by the offset and normalised. */
  lemma {:induction false} FusionSingleStream<E(!new)>(blocks: seq<TimeBlock<E>>, offset: int,
                                                 shuffleEvents: bool, shuffle: Shuffler<E>, draws: nat)
    requires blocks != []
    ensures Fusion([Cursor(blocks, offset)], shuffleEvents, shuffle, draws) == RebasedAll(blocks, offset)
    decreases |blocks|
  {
    SingleStreamStep(blocks, offset, shuffleEvents, shuffle, draws);
    if |blocks| > 1 {
      FusionSingleStream(blocks[1..], offset, shuffleEvents, shuffle, draws);
    }
  }

  /** What a run over freshly opened inputs promises: each kind of event
      is written out exactly as often as the inputs hold it (prompts only
      when the shuffle, if on, merely reorders), the slots never decrease
      when every input is sorted, and no delayed list is empty. */
  lemma {:induction false} FusionOfInputs<E(!new)>(streams: seq<seq<TimeBlock<E>>>, offsets: seq<int>,
                                                   shuffleEvents: bool, shuffle: Shuffler<E>)
    requires |offsets| == |streams| && streams != []
    requires forall i :: 0 <= i < |streams| ==> streams[i] != []
    ensures var out := Fusion(Initial(streams, offsets), shuffleEvents, shuffle, 0);
            && ((!shuffleEvents || Permuting(shuffle)) ==>
                  multiset(AllEvents(out, Prompt)) == multiset(Inputs(streams, Prompt)))
            && multiset(AllEvents(out, Delayed)) == multiset(Inputs(streams, Delayed))
            && ((forall i :: 0 <= i < |streams| ==> SortedIds(streams[i])) ==> SortedIds(out))
            && (forall j :: 0 <= j < |out| ==> DelayedNormal(out[j]))
  {
    var init := Initial(streams, offsets);
    FusionConserves(init, shuffleEvents, shuffle, 0, Delayed);
    PendingInitial(streams, offsets, Delayed);
    if !shuffleEvents || Permuting(shuffle) {
      FusionConserves(init, shuffleEvents, shuffle, 0, Prompt);
      PendingInitial(streams, offsets, Prompt);
    }
    if forall i :: 0 <= i < |streams| ==> SortedIds(streams[i]) {
      FusionOrdered(init, shuffleEvents, shuffle, 0);
    }
    FusionNormalised(init, shuffleEvents, shuffle, 0);
  }
}
