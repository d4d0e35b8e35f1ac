/** The fusion merge loop of python/merger.py (lines 228-280), lifted out of
    the script into methods. The four parallel lists of the script are the
    fields of a `Session`; each input iterator is the sequence of blocks it
    has not yielded yet, so `next()` takes its head, and the writer is the
    output sequence, which grows by one block per iteration. */
module FusionLoop {
  import opened Blocks
  import opened FusionSpec

  /** The script's parallel lists: `fileIO` (what each input has not yet
      yielded), `next` (`mFileNextTimeBlock`), `buffer` (`timeBlockBuffer`)
      and `start` (`startTime`, in slots). */
  datatype Session<E> = Session(fileIO: seq<seq<TimeBlock<E>>>, next: seq<int>,
                                buffer: seq<TimeBlock<E>>, start: seq<int>)

  /** The four lists have one entry per live stream, and each stream's
      next slot is its buffered id plus its start. */
  ghost predicate Aligned<E>(s: Session<E>)
  {
    && |s.fileIO| == |s.next| == |s.buffer| == |s.start|
    && forall i :: 0 <= i < |s.next| ==> s.next[i] == s.buffer[i].id + s.start[i]
  }

  /** The live streams that the lists stand for. */
  ghost function Live<E>(s: Session<E>): (live: seq<Cursor<E>>)
    requires |s.fileIO| == |s.buffer| == |s.start|
    ensures |live| == |s.buffer| && Buffered(live)
    ensures forall i :: 0 <= i < |s.buffer| ==> live[i] == Cursor([s.buffer[i]] + s.fileIO[i], s.start[i])
  {
    seq(|s.buffer|, i requires 0 <= i < |s.buffer| => Cursor([s.buffer[i]] + s.fileIO[i], s.start[i]))
  }

  /** Python's `list.pop(p)`: the list without its element at `p`. */
  function RemoveAt<T>(s: seq<T>, p: nat): (r: seq<T>)
    requires p < |s|
    ensures |r| == |s| - 1
    ensures forall i :: 0 <= i < |r| ==> r[i] == if i < p then s[i] else s[i + 1]
  {
    s[..p] + s[p + 1..]
  }

  /** Indices in strictly increasing order, as `removeFile` is built. */
  ghost predicate Ascending(xs: seq<nat>)
  {
    forall a, b :: 0 <= a < b < |xs| ==> xs[a] < xs[b]
  }

  /** The elements of `s` whose index is not in `gone`, in their order. */
  function Prune<T>(s: seq<T>, gone: seq<nat>): (r: seq<T>)
    ensures |r| <= |s|
  {
    if s == [] then []
    else
      var init := Prune(s[..|s| - 1], gone);
      if |s| - 1 in gone then init else init + [s[|s| - 1]]
  }

  // ---------------------------------------------------------------------
  // Facts about pruning
  // ---------------------------------------------------------------------

  lemma {:induction false} PruneNothing<T>(s: seq<T>)
    ensures Prune(s, []) == s
  {
    if s != [] {
      PruneNothing(s[..|s| - 1]);
    }
  }

  /** Pruning looks only at the indices that exist. */
  lemma {:induction false} PruneIndicesInRange<T>(s: seq<T>, g1: seq<nat>, g2: seq<nat>)
    requires forall j :: 0 <= j < |s| ==> (j in g1 <==> j in g2)
    ensures Prune(s, g1) == Prune(s, g2)
  {
    if s != [] {
      PruneIndicesInRange(s[..|s| - 1], g1, g2);
    }
  }

  lemma {:induction false} PruneExtend<T>(s: seq<T>, i: nat, gone: seq<nat>)
    requires i < |s|
    ensures Prune(s[..i + 1], gone) == Prune(s[..i], gone) + (if i in gone then [] else [s[i]])
  {
    assert s[..i + 1][..i] == s[..i];
  }

  /** Popping the largest index to be removed first leaves the smaller ones
      where they were: pruning all of them is popping that one and pruning
      the others. */
  lemma {:induction false} PruneLast<T>(s: seq<T>, gone: seq<nat>)
    requires gone != [] && Ascending(gone) && gone[|gone| - 1] < |s|
    ensures Prune(s, gone) == Prune(RemoveAt(s, gone[|gone| - 1]), gone[..|gone| - 1])
    decreases |s|
  {
    var p, n, g' := gone[|gone| - 1], |s|, gone[..|gone| - 1];
    if p == n - 1 {
      assert RemoveAt(s, p) == s[..n - 1];
      forall j | 0 <= j < n - 1
        ensures j in gone <==> j in g'
      {
        assert gone == g' + [p];
      }
      PruneIndicesInRange(s[..n - 1], gone, g');
    } else {
      assert forall k :: 0 <= k < |gone| ==> gone[k] <= p;
      assert n - 1 !in gone;
      assert n - 2 !in g';
      var r := RemoveAt(s, p);
      assert r[..n - 2] == RemoveAt(s[..n - 1], p);
      assert r[n - 2] == s[n - 1];
      PruneLast(s[..n - 1], gone);
      assert Prune(s, gone) == Prune(s[..n - 1], gone) + [s[n - 1]];
      assert Prune(r, g') == Prune(r[..n - 2], g') + [s[n - 1]];
    }
  }

  /** Popping index `p` from each of the four lists pops the `p`-th stream. */
  lemma {:induction false} LiveRemoveAt<E>(s: Session<E>, p: nat)
    requires Aligned(s) && p < |s.buffer|
    ensures var s' := Session(RemoveAt(s.fileIO, p), RemoveAt(s.next, p), RemoveAt(s.buffer, p), RemoveAt(s.start, p));
            Aligned(s') && Live(s') == RemoveAt(Live(s), p)
  {
  }

  lemma {:induction false} SlotsOfLive<E>(s: Session<E>)
    requires Aligned(s)
    ensures Slots(Live(s)) == s.next
  {
  }

  /** Regrouping a concatenation. Stated apart so that the loop of
      `FuseStreams` gets the fact without the solver searching for it
      among the loop's own facts. */
  lemma ConcatAssoc<T>(a: seq<T>, b: seq<T>, c: seq<T>)
    ensures a + (b + c) == (a + b) + c
  {
  }

  // ---------------------------------------------------------------------
  // The loop
  // ---------------------------------------------------------------------

  /** Lines 228-233: pull the first block of every input into the buffer and
      record its effective slot. */
  method OpenCursors<E>(streams: seq<seq<TimeBlock<E>>>, offsets: seq<int>) returns (s: Session<E>)
    requires |offsets| == |streams|
    requires forall i :: 0 <= i < |streams| ==> streams[i] != []
    ensures Aligned(s)
    ensures Live(s) == Initial(streams, offsets)
  {
    s := Session([], [], [], offsets);
    for i := 0 to |streams|
      invariant |s.fileIO| == |s.next| == |s.buffer| == i && s.start == offsets
      invariant forall j :: 0 <= j < i ==>
                  && [s.buffer[j]] + s.fileIO[j] == streams[j]
                  && s.next[j] == s.buffer[j].id + s.start[j]
    {
      var fTimeBlock := streams[i][0];
      s := s.(fileIO := s.fileIO + [streams[i][1..]],
              next := s.next + [fTimeBlock.id + s.start[i]],
              buffer := s.buffer + [fTimeBlock]);
    }
  }

  /** Lines 245-256, the turn of stream `i`: when its slot is at most
      `cTime` it adds its buffered events to the gathered ones and pulls its
      next block, or is listed in `removeFile` when it has none left; a
      stream that is not due keeps its block. */
  method GatherOne<E>(s: Session<E>, i: nat, cTime: int,
                      prompts: seq<E>, delays: seq<E>, nbMerged: nat, removeFile: seq<nat>)
    returns (prompts': seq<E>, delays': seq<E>, nbMerged': nat, removeFile': seq<nat>, s': Session<E>)
    requires Aligned(s) && i < |s.buffer|
    requires Ascending(removeFile) && forall j :: 0 <= j < |removeFile| ==> removeFile[j] < i
    ensures Aligned(s') && |s'.buffer| == |s.buffer| && s'.start == s.start
    ensures forall j :: i < j < |s.buffer| ==> s'.buffer[j] == s.buffer[j] && s'.fileIO[j] == s.fileIO[j]
    ensures var c := Live(s)[i];
            && prompts' == prompts + (if Slot(c) <= cTime then c.rest[0].prompts else [])
            && delays' == delays + (if Slot(c) <= cTime then EventsOf(c.rest[0], Delayed) else [])
            && nbMerged' == nbMerged + (if Slot(c) <= cTime then 1 else 0)
    ensures Ascending(removeFile') && forall j :: 0 <= j < |removeFile'| ==> removeFile'[j] <= i
    ensures Prune(Live(s')[..i + 1], removeFile')
            == Prune(Live(s)[..i], removeFile) + StepCursor(Live(s)[i], cTime)
  {
    prompts', delays', nbMerged', removeFile', s' := prompts, delays, nbMerged, removeFile, s;
    ghost var before := Live(s);
    if s.next[i] <= cTime {
      var cTimeBlock := s.buffer[i];
      prompts' := prompts + cTimeBlock.prompts;
      if cTimeBlock.delayed.Some? {
        delays' := delays + cTimeBlock.delayed.value;
      }
      nbMerged' := nbMerged + 1;
      if s.fileIO[i] != [] {
        var following := s.fileIO[i][0];
        s' := s.(buffer := s.buffer[i := following],
                 fileIO := s.fileIO[i := s.fileIO[i][1..]],
                 next := s.next[i := following.id + s.start[i]]);
        assert Live(s')[i] == Cursor(before[i].rest[1..], before[i].offset);
        assert Live(s')[..i] == before[..i];
        PruneExtend(Live(s'), i, removeFile);
      } else {
        PruneExtend(before, i, removeFile);
        removeFile' := removeFile + [i];
        PruneExtend(before, i, removeFile');
        PruneIndicesInRange(before[..i], removeFile', removeFile);
      }
    } else {
      PruneExtend(before, i, removeFile);
    }
  }

  /** Lines 240-256: every stream whose slot is at most `cTime` gives its
      buffered events and pulls its next block; a stream with none left is
      listed in `removeFile` instead. */
  method GatherDue<E>(s: Session<E>, cTime: int)
    returns (prompts: seq<E>, delays: seq<E>, nbMerged: nat, removeFile: seq<nat>, s': Session<E>)
    requires Aligned(s)
    ensures Aligned(s') && |s'.buffer| == |s.buffer|
    ensures prompts == Due(Live(s), cTime, Prompt)
    ensures delays == Due(Live(s), cTime, Delayed)
    ensures nbMerged == DueCount(Live(s), cTime)
    ensures Ascending(removeFile)
    ensures forall j :: 0 <= j < |removeFile| ==> removeFile[j] < |s.buffer|
    ensures Prune(Live(s'), removeFile) == Advance(Live(s), cTime)
  {
    prompts, delays, nbMerged, removeFile, s' := [], [], 0, [], s;
    ghost var live := Live(s);
    var n := |s.next|;
    for i := 0 to n
      invariant Aligned(s') && |s'.buffer| == n && s'.start == s.start
      invariant forall j :: i <= j < n ==> s'.buffer[j] == s.buffer[j] && s'.fileIO[j] == s.fileIO[j]
      invariant prompts == Due(live[..i], cTime, Prompt)
      invariant delays == Due(live[..i], cTime, Delayed)
      invariant nbMerged == DueCount(live[..i], cTime)
      invariant Ascending(removeFile)
      invariant forall j :: 0 <= j < |removeFile| ==> removeFile[j] < i
      invariant Prune(Live(s')[..i], removeFile) == Advance(live[..i], cTime)
    {
      PrefixStep(live, i, cTime);
      assert Live(s')[i] == live[i];
      prompts, delays, nbMerged, removeFile, s' := GatherOne(s', i, cTime, prompts, delays, nbMerged, removeFile);
    }
    assert live[..n] == live;
    assert Live(s')[..n] == Live(s');
  }

  /** Lines 270-276: pop the exhausted streams from the four lists, largest
      index first, so that the other indices stay valid. */
  method Retire<E>(s: Session<E>, removeFile: seq<nat>) returns (s': Session<E>)
    requires Aligned(s) && Ascending(removeFile)
    requires forall j :: 0 <= j < |removeFile| ==> removeFile[j] < |s.buffer|
    ensures Aligned(s')
    ensures Live(s') == Prune(Live(s), removeFile)
  {
    s' := s;
    var j := |removeFile|;
    assert removeFile[..j] == removeFile;
    while j > 0
      invariant 0 <= j <= |removeFile|
      invariant Aligned(s') && |s'.buffer| == |s.buffer| - (|removeFile| - j)
      invariant forall a :: 0 <= a < j ==> removeFile[a] < |s'.buffer|
      invariant Prune(Live(s'), removeFile[..j]) == Prune(Live(s), removeFile)
    {
      j := j - 1;
      var cPos := removeFile[j];
      assert removeFile[..j + 1][..j] == removeFile[..j];
      PruneLast(Live(s'), removeFile[..j + 1]);
      LiveRemoveAt(s', cPos);
      s' := Session(RemoveAt(s'.fileIO, cPos), RemoveAt(s'.next, cPos),
                    RemoveAt(s'.buffer, cPos), RemoveAt(s'.start, cPos));
    }
    assert removeFile[..0] == [];
    PruneNothing(Live(s'));
  }

  /** One iteration of the merge loop (lines 240-276) for the slot `cTime`,
      the minimum effective slot of the live streams: gather the due
      streams, compose their block, retire the exhausted streams. The block
      is the first one of the run `Fusion` over the live streams, and what
      follows it is the run over the streams left. */
  method MergeSlot<E(!new)>(s: Session<E>, cTime: int, shuffleEvents: bool, shuffle: Shuffler<E>, draws: nat)
    returns (block: TimeBlock<E>, draws': nat, s': Session<E>)
    requires Aligned(s) && s.buffer != [] && cTime == Min(s.next)
    ensures Aligned(s')
    ensures block.id == cTime
    ensures Fusion(Live(s), shuffleEvents, shuffle, draws) == [block] + Fusion(Live(s'), shuffleEvents, shuffle, draws')
    ensures Remaining(Live(s')) < Remaining(Live(s))
  {
    SlotsOfLive(s);
    ghost var live := Live(s);
    ghost var b, d := FusionStep(live, shuffleEvents, shuffle, draws);
    var prompts, delays, nbMerged, removeFile, gathered := GatherDue(s, cTime);
    var composed := ComposeBlock(cTime, prompts, delays, nbMerged, shuffleEvents, shuffle, draws);
    block, draws' := composed.0, composed.1;
    s' := Retire(gathered, removeFile);
  }

  /** The merge loop: one output block per iteration, for the minimum
      effective slot of the live streams, until no stream is left. The
      result is the run `Fusion` of the opened inputs, whose properties
      `FusionOfInputs` states. */
  method FuseStreams<E(!new)>(streams: seq<seq<TimeBlock<E>>>, offsets: seq<int>,
                              shuffleEvents: bool, shuffle: Shuffler<E>) returns (out: seq<TimeBlock<E>>)
    requires |offsets| == |streams| && streams != []
    requires forall i :: 0 <= i < |streams| ==> streams[i] != []
    ensures out == Fusion(Initial(streams, offsets), shuffleEvents, shuffle, 0)
  {
    var s := OpenCursors(streams, offsets);
    var cTime := Min(s.next);
    out := [];
    var draws: nat := 0;
    ghost var whole := Fusion(Initial(streams, offsets), shuffleEvents, shuffle, 0);
    while true
      invariant Aligned(s) && s.buffer != []
      invariant cTime == Min(s.next)
      invariant out + Fusion(Live(s), shuffleEvents, shuffle, draws) == whole
      decreases Remaining(Live(s))
    {
      var block;
      ghost var before := Live(s);
      block, draws, s := MergeSlot(s, cTime, shuffleEvents, shuffle, draws);
      ConcatAssoc(out, [block], Fusion(Live(s), shuffleEvents, shuffle, draws));
      out := out + [block];
      if |s.fileIO| == 0 {
        assert Live(s) == [];
        break;
      }
      cTime := Min(s.next);
    }
  }
}
