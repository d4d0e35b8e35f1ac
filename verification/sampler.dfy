/** The retention loop of python/rnd_sampler.py (lines 88-132): a noisier
    copy of an acquisition, made by keeping or dropping whole time blocks,
    or by keeping or dropping each event of every block. The random
    generator is a parameter: `draw(n)` is whether the `n`-th call of
    `random.random()` falls below the retention fraction. */
module Sampler {
  import opened Blocks

  /** `--randoMethod`: `timeBlock` or `event`. */
  datatype RandoMethod = TimeBlockMethod | EventMethod

  /** The six counters the loop keeps for its report. */
  datatype Counters = Counters(nbTimeBlock: nat, nbTimeBlockKept: nat,
                               nbPromptKept: nat, nbPrompt: nat,
                               nbDelayKept: nat, nbDelay: nat)

  /** The elements of `xs` that their draw keeps: `xs[i]` is decided by
      draw number `d + i`. */
  function Keep<T>(xs: seq<T>, draw: nat -> bool, d: nat): (r: seq<T>)
    ensures IsSubseq(r, xs)
  {
    if xs == [] then []
    else
      var init := Keep(xs[..|xs| - 1], draw, d);
      if draw(d + |xs| - 1) then
        assert (init + [xs[|xs| - 1]])[..|init|] == init;
        init + [xs[|xs| - 1]]
      else init
  }

  /** With every draw in favour everything is kept, with none nothing is. */
  lemma {:induction false} KeepExtremes<T>(xs: seq<T>, draw: nat -> bool, d: nat)
    ensures (forall n :: d <= n < d + |xs| ==> draw(n)) ==> Keep(xs, draw, d) == xs
    ensures (forall n :: d <= n < d + |xs| ==> !draw(n)) ==> Keep(xs, draw, d) == []
  {
    if xs != [] {
      var n := |xs|;
      KeepExtremes(xs[..n - 1], draw, d);
      assert xs[..n - 1] + [xs[n - 1]] == xs;
    }
  }

  /** The number of prompt events of `blocks`. */
  function PromptTotal<E>(blocks: seq<TimeBlock<E>>): nat
  {
    if blocks == [] then 0
    else PromptTotal(blocks[..|blocks| - 1]) + |blocks[|blocks| - 1].prompts|
  }

  /** Lines 102-117 for one block, from draw number `d`: one draw per
      prompt event to keep it, then, the loop at lines 109-113 running over
      the prompt events again, one more draw per prompt event to keep it as
      a delayed event. The delayed list is always present. */
  function SampleBlock<E>(b: TimeBlock<E>, draw: nat -> bool, d: nat): (r: TimeBlock<E>)
    ensures r.id == b.id && r.delayed.Some?
    ensures IsSubseq(r.prompts, b.prompts) && IsSubseq(r.delayed.value, b.prompts)
  {
    TimeBlock(b.id, Keep(b.prompts, draw, d), Some(Keep(b.prompts, draw, d + |b.prompts|)))
  }

  /** The `event` method over `blocks`, from draw number `d`: every block
      in order, each sampled with the draws after those of the blocks
      before it. */
  function EventSampled<E>(blocks: seq<TimeBlock<E>>, draw: nat -> bool, d: nat): (r: seq<TimeBlock<E>>)
    ensures |r| == |blocks|
  {
    if blocks == [] then []
    else
      var init := blocks[..|blocks| - 1];
      EventSampled(init, draw, d) + [SampleBlock(blocks[|blocks| - 1], draw, d + 2 * PromptTotal(init))]
  }

  /** Each output block of the `event` method is the input block with the
      same id, with a subsequence of its prompts as prompts and another as
      delayed events. */
  lemma {:induction false} EventSampledShape<E>(blocks: seq<TimeBlock<E>>, draw: nat -> bool, d: nat)
    ensures forall i :: 0 <= i < |blocks| ==>
              && EventSampled(blocks, draw, d)[i].id == blocks[i].id
              && IsSubseq(EventSampled(blocks, draw, d)[i].prompts, blocks[i].prompts)
              && EventSampled(blocks, draw, d)[i].delayed.Some?
              && IsSubseq(EventSampled(blocks, draw, d)[i].delayed.value, blocks[i].prompts)
  {
    if blocks != [] {
      var n := |blocks|;
      var init := blocks[..n - 1];
      EventSampledShape(init, draw, d);
      forall i | 0 <= i < n - 1
        ensures EventSampled(blocks, draw, d)[i] == EventSampled(init, draw, d)[i]
        ensures blocks[i] == init[i]
      {
      }
    }
  }

  /** The `event` method keeps at most as many prompt events, and at most
      as many delayed events, as the input has prompt events. */
  lemma {:induction false} EventSampledCounts<E>(blocks: seq<TimeBlock<E>>, draw: nat -> bool, d: nat)
    ensures |AllEvents(EventSampled(blocks, draw, d), Prompt)| <= PromptTotal(blocks)
    ensures |AllEvents(EventSampled(blocks, draw, d), Delayed)| <= PromptTotal(blocks)
  {
    if blocks != [] {
      var n := |blocks|;
      var init := blocks[..n - 1];
      var b := SampleBlock(blocks[n - 1], draw, d + 2 * PromptTotal(init));
      var before := EventSampled(init, draw, d);
      assert EventSampled(blocks, draw, d) == before + [b];
      EventSampledCounts(init, draw, d);
      AllEventsAppend(before, [b], Prompt);
      AllEventsAppend(before, [b], Delayed);
      assert [b][1..] == [];
      assert AllEvents([b], Prompt) == b.prompts;
      assert AllEvents([b], Delayed) == b.delayed.value;
      SubseqCounts(b.prompts, blocks[n - 1].prompts);
      SubseqCounts(b.delayed.value, blocks[n - 1].prompts);
      assert PromptTotal(blocks) == PromptTotal(init) + |blocks[n - 1].prompts|;
    }
  }

  /** Extending the input by one element extends what is kept by at most
      that element. */
  lemma {:induction false} KeepStep<T>(xs: seq<T>, i: nat, draw: nat -> bool, d: nat)
    requires i < |xs|
    ensures Keep(xs[..i + 1], draw, d) == Keep(xs[..i], draw, d) + (if draw(d + i) then [xs[i]] else [])
  {
    assert xs[..i + 1][..i] == xs[..i];
  }

  /** Extending the input by one block extends the `event` output by that
      block, sampled after the draws of the blocks before it. */
  lemma {:induction false} EventStep<E>(blocks: seq<TimeBlock<E>>, i: nat, draw: nat -> bool)
    requires i < |blocks|
    ensures EventSampled(blocks[..i + 1], draw, 0)
            == EventSampled(blocks[..i], draw, 0) + [SampleBlock(blocks[i], draw, 2 * PromptTotal(blocks[..i]))]
    ensures PromptTotal(blocks[..i + 1]) == PromptTotal(blocks[..i]) + |blocks[i].prompts|
  {
    assert blocks[..i + 1][..i] == blocks[..i];
  }

  /** The block written when nothing was kept (line 131). */
  function Placeholder<E>(): TimeBlock<E>
  {
    TimeBlock(0, [], None)
  }

  /** The blocks the loop writes before the final check: the kept blocks,
      or every block with its kept events. */
  function Retained<E>(blocks: seq<TimeBlock<E>>, mode: RandoMethod, draw: nat -> bool): seq<TimeBlock<E>>
  {
    if mode == TimeBlockMethod then Keep(blocks, draw, 0) else EventSampled(blocks, draw, 0)
  }

  /** Line 129: no block kept and no prompt event kept. With the `timeBlock`
      method no prompt is ever counted, and with the `event` method no block
      is, so each method tests only its own counter. */
  predicate NothingKept<E>(blocks: seq<TimeBlock<E>>, mode: RandoMethod, draw: nat -> bool)
  {
    if mode == TimeBlockMethod then Keep(blocks, draw, 0) == []
    else AllEvents(EventSampled(blocks, draw, 0), Prompt) == []
  }

  /** Everything the script writes after the header: what the loop kept,
      followed by the placeholder block when nothing was kept. The output
      is never empty; with the `timeBlock` method it is the kept blocks
      in their order or the placeholder alone; with the `event` method it
      has one block per input block, plus the placeholder when no prompt
      survived. */
  function Sampled<E>(blocks: seq<TimeBlock<E>>, mode: RandoMethod, draw: nat -> bool): (r: seq<TimeBlock<E>>)
    ensures r != []
    ensures mode == TimeBlockMethod ==>
              (r == [Placeholder()] && Keep(blocks, draw, 0) == [])
              || (r == Keep(blocks, draw, 0) && IsSubseq(r, blocks))
    ensures mode == EventMethod ==>
              |r| == |blocks| + (if NothingKept(blocks, mode, draw) then 1 else 0)
  {
    var kept := Retained(blocks, mode, draw);
    if NothingKept(blocks, mode, draw) then kept + [Placeholder()] else kept
  }

  /** What the `event` method writes, block by block: the first blocks are
      the input blocks in order, each keeping its id, with kept prompts and
      an always-present delayed list both drawn from its prompts; when no
      prompt survived, the placeholder block comes last (lines 129-132). */
  lemma {:induction false} SampledEventBlocks<E>(blocks: seq<TimeBlock<E>>, draw: nat -> bool)
    ensures var r := Sampled(blocks, EventMethod, draw);
            && r[..|blocks|] == EventSampled(blocks, draw, 0)
            && (forall i :: 0 <= i < |blocks| ==>
                  && r[i].id == blocks[i].id
                  && IsSubseq(r[i].prompts, blocks[i].prompts)
                  && r[i].delayed.Some?
                  && IsSubseq(r[i].delayed.value, blocks[i].prompts))
            && (NothingKept(blocks, EventMethod, draw) <==> |r| == |blocks| + 1)
            && (NothingKept(blocks, EventMethod, draw) ==> r[|r| - 1] == Placeholder())
  {
    var r := Sampled(blocks, EventMethod, draw);
    var kept := EventSampled(blocks, draw, 0);
    assert r == kept || r == kept + [Placeholder()];
    assert r[..|blocks|] == kept;
    EventSampledShape(blocks, draw, 0);
    forall i | 0 <= i < |blocks|
      ensures r[i] == kept[i]
    {
    }
  }

  /** Lines 102-107 (or 108-113): one draw per event, in order, keeping
      the events whose draw is in favour and counting the events seen and
      the events kept. */
  method RetainEvents<E>(xs: seq<E>, draw: nat -> bool, d: nat, seen: nat, kept: nat)
    returns (retained: seq<E>, seen': nat, kept': nat)
    ensures retained == Keep(xs, draw, d)
    ensures seen' == seen + |xs| && kept' == kept + |retained|
  {
    retained, seen', kept' := [], seen, kept;
    for i := 0 to |xs|
      invariant retained == Keep(xs[..i], draw, d)
      invariant seen' == seen + i && kept' == kept + |retained|
    {
      KeepStep(xs, i, draw, d);
      seen' := seen' + 1;
      if draw(d + i) {
        kept' := kept' + 1;
        retained := retained + [xs[i]];
      }
    }
    assert xs[..|xs|] == xs;
  }

  /** The turn of block `timeBlock` from draw number `d` with counters `c`
      writes `written` and leaves `d'` and `c'`. With the `timeBlock`
      method one draw keeps or drops the whole block and only the block
      counters move. With the `event` method the sampled block is written,
      twice its prompt count of draws are used, every prompt is counted as
      seen both as a prompt and as a delayed event, and the kept counters
      grow by the kept prompts and delays. */
  ghost predicate Turn<E>(timeBlock: TimeBlock<E>, mode: RandoMethod, draw: nat -> bool, d: nat, c: Counters,
                          written: seq<TimeBlock<E>>, d': nat, c': Counters)
  {
    && (mode == TimeBlockMethod ==>
          && written == (if draw(d) then [timeBlock] else []) && d' == d + 1
          && c' == c.(nbTimeBlock := c.nbTimeBlock + 1, nbTimeBlockKept := c.nbTimeBlockKept + |written|))
    && (mode == EventMethod ==>
          && written == [SampleBlock(timeBlock, draw, d)] && d' == d + 2 * |timeBlock.prompts|
          && c' == c.(nbTimeBlock := c.nbTimeBlock + 1,
                      nbPrompt := c.nbPrompt + |timeBlock.prompts|,
                      nbPromptKept := c.nbPromptKept + |written[0].prompts|,
                      nbDelay := c.nbDelay + |timeBlock.prompts|,
                      nbDelayKept := c.nbDelayKept + |written[0].delayed.value|))
  }

  /** Lines 95-117, the turn of one block from draw number `d`: with the
      `timeBlock` method one draw keeps or drops the whole block; with the
      `event` method its prompt events are sampled, then its prompt events
      are sampled again as its delayed events. `written` is what goes to
      the writer, and the counters advance by what was seen and kept. */
  method SampleOne<E>(timeBlock: TimeBlock<E>, mode: RandoMethod, draw: nat -> bool, d: nat, c: Counters)
    returns (written: seq<TimeBlock<E>>, d': nat, c': Counters)
    ensures Turn(timeBlock, mode, draw, d, c, written, d', c')
  {
    c' := c.(nbTimeBlock := c.nbTimeBlock + 1);
    if mode == TimeBlockMethod {
      written := [];
      if draw(d) {
        c' := c'.(nbTimeBlockKept := c'.nbTimeBlockKept + 1);
        written := [timeBlock];
      }
      d' := d + 1;
    } else {
      var keptPrompt, keptDelay, nbPrompt, nbPromptKept, nbDelay, nbDelayKept;
      keptPrompt, nbPrompt, nbPromptKept := RetainEvents(timeBlock.prompts, draw, d, c'.nbPrompt, c'.nbPromptKept);
      keptDelay, nbDelay, nbDelayKept :=
        RetainEvents(timeBlock.prompts, draw, d + |timeBlock.prompts|, c'.nbDelay, c'.nbDelayKept);
      c' := c'.(nbPrompt := nbPrompt, nbPromptKept := nbPromptKept, nbDelay := nbDelay, nbDelayKept := nbDelayKept);
      d' := d + 2 * |timeBlock.prompts|;
      written := [TimeBlock(timeBlock.id, keptPrompt, Some(keptDelay))];
    }
  }

  /** What the loop of lines 94-117 has written and counted after the first
      `i` blocks, `d` draws having been made. */
  ghost predicate Tallied<E>(blocks: seq<TimeBlock<E>>, i: nat, mode: RandoMethod, draw: nat -> bool,
                             out: seq<TimeBlock<E>>, d: nat, c: Counters)
    requires i <= |blocks|
  {
    && c.nbTimeBlock == i
    && (mode == TimeBlockMethod ==>
          && out == Keep(blocks[..i], draw, 0) && d == i && c.nbTimeBlockKept == |out|
          && c.nbPrompt == c.nbPromptKept == c.nbDelay == c.nbDelayKept == 0)
    && (mode == EventMethod ==>
          && out == EventSampled(blocks[..i], draw, 0) && d == 2 * PromptTotal(blocks[..i])
          && c.nbTimeBlockKept == 0
          && c.nbPrompt == c.nbDelay == PromptTotal(blocks[..i])
          && c.nbPromptKept == |AllEvents(out, Prompt)|
          && c.nbDelayKept == |AllEvents(out, Delayed)|)
  }

  /** One turn of the loop extends the tally by block `i`. */
  lemma {:induction false} TallyStep<E>(blocks: seq<TimeBlock<E>>, i: nat, mode: RandoMethod, draw: nat -> bool,
                                        out: seq<TimeBlock<E>>, d: nat, c: Counters,
                                        written: seq<TimeBlock<E>>, d': nat, c': Counters)
    requires i < |blocks| && Tallied(blocks, i, mode, draw, out, d, c)
    requires Turn(blocks[i], mode, draw, d, c, written, d', c')
    ensures Tallied(blocks, i + 1, mode, draw, out + written, d', c')
  {
    if mode == TimeBlockMethod {
      KeepStep(blocks, i, draw, 0);
    } else {
      EventStep(blocks, i, draw);
      AllEventsAppend(out, written, Prompt);
      AllEventsAppend(out, written, Delayed);
      assert written[1..] == [];
    }
  }

  /** Lines 88-132 without the header, the writer and the printing: the
      output is `Sampled`, and the counters count the blocks and events
      seen and kept. */
  method Sample<E>(blocks: seq<TimeBlock<E>>, mode: RandoMethod, draw: nat -> bool)
    returns (out: seq<TimeBlock<E>>, c: Counters)
    ensures out == Sampled(blocks, mode, draw)
    ensures c.nbTimeBlock == |blocks|
    ensures mode == TimeBlockMethod ==>
              && c.nbTimeBlockKept == |Keep(blocks, draw, 0)|
              && c.nbPrompt == c.nbPromptKept == c.nbDelay == c.nbDelayKept == 0
    ensures mode == EventMethod ==>
              && c.nbTimeBlockKept == 0
              && c.nbPrompt == c.nbDelay == PromptTotal(blocks)
              && c.nbPromptKept == |AllEvents(EventSampled(blocks, draw, 0), Prompt)|
              && c.nbDelayKept == |AllEvents(EventSampled(blocks, draw, 0), Delayed)|
  {
    out := [];
    c := Counters(0, 0, 0, 0, 0, 0);
    var d: nat := 0;
    assert blocks[..0] == [];
    for tbID := 0 to |blocks|
      invariant Tallied(blocks, tbID, mode, draw, out, d, c)
    {
      var written, d', c' := SampleOne(blocks[tbID], mode, draw, d, c);
      TallyStep(blocks, tbID, mode, draw, out, d, c, written, d', c');
      out, d, c := out + written, d', c';
    }
    assert blocks[..|blocks|] == blocks;
    if c.nbTimeBlockKept == 0 && c.nbPromptKept == 0 {
      out := out + [Placeholder()];
    }
  }
}
