/** The command-line side of python/merger.py: reading the `--merge` and
    `--app` entries (`file[,start]`), checking that every input uses the
    same time-block duration, and running the fusion loop on the inputs.
    Reading a file, parsing a decimal number and the random generator are
    parameters: `files` gives the time-block duration and the blocks of the
    acquisition stored at a path, `toMs` gives `int(float(text) * 1000)` or
    `None` when Python's `float` refuses the text or `int` refuses the
    product (an infinity or a NaN), and `shuffle` is the
    shuffle oracle of the fusion loop. */
module Merger {
  import opened Blocks
  import opened FusionSpec
  import opened FusionLoop

  /** The parsed command line: `--merge` and `--app` are each absent or a
      non-empty list of entries (argparse's `nargs="+"`). */
  datatype Args = Args(merge: Option<seq<string>>, app: Option<seq<string>>, shuffleEvents: bool)

  /** Every way the script stops before or instead of writing its output. */
  datatype MergeError =
    | NoMode                     // neither --merge nor --app
    | BothModes                  // both --merge and --app
    | TooFewFiles                // fewer than two entries
    | LenOfNone                  // `len(None)`, a TypeError
    | MalformedEntry(entry: string)   // more than one comma: the unpacking fails
    | BadStartTime(entry: string)     // the start time is not a number
    | AppendNotImplemented
    | VariableQuantum(quanta: seq<int>)
    | EmptyStream                // `next()` on an input without blocks

  /** An acquisition file as the reader sees it: the time-block duration of
      its header and its time blocks. */
  datatype Acquisition<E> = Acquisition(quantum: int, blocks: seq<TimeBlock<E>>)

  // ---------------------------------------------------------------------
  // Splitting an entry
  // ---------------------------------------------------------------------

  /** Python's `str.find` for one character: the first index of `c`, or -1. */
  function Find(s: string, c: char): (r: int)
    ensures -1 <= r < |s|
    ensures r == -1 <==> c !in s
    ensures r >= 0 ==> s[r] == c && forall j :: 0 <= j < r ==> s[j] != c
  {
    if s == [] then -1
    else if s[0] == c then 0
    else
      var k := Find(s[1..], c);
      assert s == [s[0]] + s[1..];
      if k == -1 then -1 else k + 1
  }

  /** The parts joined back with the separator between them. */
  function Join(parts: seq<string>, sep: char): string
    requires parts != []
  {
    if |parts| == 1 then parts[0] else parts[0] + [sep] + Join(parts[1..], sep)
  }

  /** Python's `str.split(sep)`: the maximal runs without `sep`, one more
      than there are separators, which joined back give `s`. */
  function Split(s: string, sep: char): (parts: seq<string>)
    ensures |parts| == multiset(s)[sep] + 1
    ensures forall i :: 0 <= i < |parts| ==> sep !in parts[i]
    ensures Join(parts, sep) == s
    decreases |s|
  {
    var k := Find(s, sep);
    if k == -1 then
      assert multiset(s)[sep] == 0;
      [s]
    else
      var rest := Split(s[k + 1..], sep);
      assert s == s[..k] + [sep] + s[k + 1..];
      assert multiset(s) == multiset(s[..k]) + multiset([sep]) + multiset(s[k + 1..]);
      assert ([s[..k]] + rest)[1..] == rest;
      [s[..k]] + rest
  }

  // ---------------------------------------------------------------------
  // extractMergeInfo
  // ---------------------------------------------------------------------

  /** Lines 85-94 for one entry: without a comma the entry is a path that
      starts at 0 ms; otherwise it must split into exactly a path and a
      start time in seconds, which becomes whole milliseconds. */
  function ParseEntry(entry: string, toMs: string -> Option<int>): (r: Result<(string, int), MergeError>)
    ensures ',' !in entry ==> r == Success((entry, 0))
    ensures multiset(entry)[','] >= 2 ==> r == Failure(MalformedEntry(entry))
    ensures multiset(entry)[','] == 1 ==> r.Success? || r == Failure(BadStartTime(entry))
    ensures r.Success? ==> ',' !in r.value.0
  {
    if Find(entry, ',') == -1 then Success((entry, 0))
    else
      var parts := Split(entry, ',');
      if |parts| != 2 then Failure(MalformedEntry(entry))
      else if toMs(parts[1]).None? then Failure(BadStartTime(entry))
      else Success((parts[0], toMs(parts[1]).value))
  }

  /** An entry written as `path,start` reads back as that path and start. */
  lemma {:induction false} ParseEntryFormatted(path: string, text: string, toMs: string -> Option<int>)
    requires ',' !in path && ',' !in text
    ensures toMs(text).Some? ==> ParseEntry(path + [','] + text, toMs) == Success((path, toMs(text).value))
    ensures toMs(text).None? ==> ParseEntry(path + [','] + text, toMs) == Failure(BadStartTime(path + [','] + text))
  {
    var entry := path + [','] + text;
    var k := Find(entry, ',');
    assert entry[|path|] == ',';
    assert forall j :: 0 <= j < |path| ==> entry[j] == path[j];
    assert k == |path|;
    assert entry[k + 1..] == text;
    assert entry[..k] == path;
    assert Find(text, ',') == -1;
    assert Split(text, ',') == [text];
    assert Split(entry, ',') == [path, text];
  }

  /** What `extractMergeInfo` returns for `entries`: the paths and the start
      times, entry by entry, or the failure of the first entry that fails. */
  function MergeInfo(entries: seq<string>, toMs: string -> Option<int>): (r: Result<(seq<string>, seq<int>), MergeError>)
    ensures r.Success? ==> |r.value.0| == |r.value.1| == |entries|
    ensures r.Failure? ==> r.error.MalformedEntry? || r.error.BadStartTime?
  {
    if entries == [] then Success(([], []))
    else
      var n := |entries|;
      match MergeInfo(entries[..n - 1], toMs)
      case Failure(e) => Failure(e)
      case Success(info) =>
        match ParseEntry(entries[n - 1], toMs)
        case Failure(e) => Failure(e)
        case Success(entry) => Success((info.0 + [entry.0], info.1 + [entry.1]))
  }

  /** `MergeInfo` succeeds exactly when every entry parses, and then lists
      each entry's path and start at the entry's position. */
  lemma {:induction false} MergeInfoSucceeds(entries: seq<string>, toMs: string -> Option<int>)
    ensures MergeInfo(entries, toMs).Success? <==>
              forall i :: 0 <= i < |entries| ==> ParseEntry(entries[i], toMs).Success?
    ensures MergeInfo(entries, toMs).Success? ==>
              forall i :: 0 <= i < |entries| ==>
                ParseEntry(entries[i], toMs)
                  == Success((MergeInfo(entries, toMs).value.0[i], MergeInfo(entries, toMs).value.1[i]))
  {
    if entries != [] {
      var n := |entries|;
      var init := entries[..n - 1];
      MergeInfoSucceeds(init, toMs);
      var r := MergeInfo(entries, toMs);
      if MergeInfo(init, toMs).Success? && ParseEntry(entries[n - 1], toMs).Success? {
        var info, last := MergeInfo(init, toMs).value, ParseEntry(entries[n - 1], toMs).value;
        assert r == Success((info.0 + [last.0], info.1 + [last.1]));
        forall i | 0 <= i < n
          ensures ParseEntry(entries[i], toMs) == Success((r.value.0[i], r.value.1[i]))
        {
          if i < n - 1 {
            assert entries[i] == init[i];
          }
        }
      } else if MergeInfo(init, toMs).Success? {
        assert r.Failure?;
      } else {
        var i :| 0 <= i < n - 1 && !ParseEntry(init[i], toMs).Success?;
        assert entries[i] == init[i];
      }
    }
  }

  /** When `MergeInfo` fails it reports the error of the first entry that
      fails, entry `i`. */
  lemma {:induction false} MergeInfoFirstFailure(entries: seq<string>, toMs: string -> Option<int>) returns (i: nat)
    requires MergeInfo(entries, toMs).Failure?
    ensures i < |entries| && ParseEntry(entries[i], toMs) == Failure(MergeInfo(entries, toMs).error)
    ensures forall j :: 0 <= j < i ==> ParseEntry(entries[j], toMs).Success?
  {
    var n := |entries|;
    var init := entries[..n - 1];
    if MergeInfo(init, toMs).Failure? {
      i := MergeInfoFirstFailure(init, toMs);
      assert MergeInfo(entries, toMs).error == MergeInfo(init, toMs).error;
      assert entries[i] == init[i];
      forall j | 0 <= j < i
        ensures ParseEntry(entries[j], toMs).Success?
      {
        assert entries[j] == init[j];
      }
    } else {
      i := n - 1;
      MergeInfoSucceeds(init, toMs);
      forall j | 0 <= j < i
        ensures ParseEntry(entries[j], toMs).Success?
      {
        assert entries[j] == init[j];
      }
    }
  }

  /** Once a prefix of the entries fails, the whole list fails the same way. */
  lemma {:induction false} MergeInfoFailureStays(entries: seq<string>, i: nat, toMs: string -> Option<int>)
    requires i <= |entries| && MergeInfo(entries[..i], toMs).Failure?
    ensures MergeInfo(entries, toMs) == MergeInfo(entries[..i], toMs)
    decreases |entries| - i
  {
    if i < |entries| {
      var n := |entries|;
      assert entries[..i + 1][..i] == entries[..i];
      MergeInfoFailureStays(entries, i + 1, toMs);
    } else {
      assert entries[..i] == entries;
    }
  }

  /** Lines 81-98: the entries read one after the other into the list of
      paths and the list of start times. */
  method ExtractMergeInfo(entries: seq<string>, toMs: string -> Option<int>)
    returns (r: Result<(seq<string>, seq<int>), MergeError>)
    ensures r == MergeInfo(entries, toMs)
  {
    var acqPaths: seq<string> := [];
    var startTime: seq<int> := [];
    for i := 0 to |entries|
      invariant MergeInfo(entries[..i], toMs) == Success((acqPaths, startTime))
    {
      var cFile := entries[i];
      var cAcqPath, cStartTime;
      if Find(cFile, ',') == -1 {
        cAcqPath, cStartTime := cFile, 0;
      } else {
        var parts := Split(cFile, ',');
        if |parts| != 2 {
          r := Failure(MalformedEntry(cFile));
          assert entries[..i + 1][..i] == entries[..i];
          MergeInfoFailureStays(entries, i + 1, toMs);
          return;
        }
        var ms := toMs(parts[1]);
        if ms.None? {
          r := Failure(BadStartTime(cFile));
          assert entries[..i + 1][..i] == entries[..i];
          MergeInfoFailureStays(entries, i + 1, toMs);
          return;
        }
        cAcqPath, cStartTime := parts[0], ms.value;
      }
      assert entries[..i + 1][..i] == entries[..i];
      acqPaths := acqPaths + [cAcqPath];
      startTime := startTime + [cStartTime];
    }
    assert entries[..|entries|] == entries;
    r := Success((acqPaths, startTime));
  }

  // ---------------------------------------------------------------------
  // parseAcqArguments
  // ---------------------------------------------------------------------

  /** The entries of the one mode that is on. */
  function ModeEntries(args: Args): seq<string>
    requires args.merge.Some? || args.app.Some?
  {
    if args.merge.Some? then args.merge.value else args.app.value
  }

  /** Lines 53-78 as evidently intended: exactly one mode must be on, it
      must list at least two entries, and its entries are read by
      `extractMergeInfo`. */
  function AcqArguments(args: Args, toMs: string -> Option<int>): (r: Result<(seq<string>, seq<int>), MergeError>)
    ensures r == Failure(NoMode) <==> args.merge.None? && args.app.None?
    ensures r == Failure(BothModes) <==> args.merge.Some? && args.app.Some?
    ensures args.merge.Some? != args.app.Some? ==>
              (r == Failure(TooFewFiles) <==> |ModeEntries(args)| < 2)
    ensures r.Success? ==> args.merge.Some? != args.app.Some? && |ModeEntries(args)| >= 2
    ensures r.Success? ==> |r.value.0| == |r.value.1| == |ModeEntries(args)|
  {
    if args.merge.None? && args.app.None? then Failure(NoMode)
    else if args.merge.Some? && args.app.Some? then Failure(BothModes)
    else if |ModeEntries(args)| < 2 then Failure(TooFewFiles)
    else MergeInfo(ModeEntries(args), toMs)
  }

  /** Lines 53-78 as written: the `--app` branch measures `_args.merge`,
      which is `None` there, so it stops with a TypeError. */
  function AcqArgumentsAsWritten(args: Args, toMs: string -> Option<int>): (r: Result<(seq<string>, seq<int>), MergeError>)
    ensures args.merge.None? && args.app.Some? ==> r == Failure(LenOfNone)
  {
    if args.merge.None? && args.app.None? then Failure(NoMode)
    else if args.merge.Some? && args.app.Some? then Failure(BothModes)
    else if args.merge.Some? then
      if |args.merge.value| < 2 then Failure(TooFewFiles) else MergeInfo(args.merge.value, toMs)
    else Failure(LenOfNone)
  }

  /** The written and the intended parsing agree unless only `--app` is on. */
  lemma {:induction false} AcqArgumentsAgree(args: Args, toMs: string -> Option<int>)
    requires args.app.None? || args.merge.Some?
    ensures AcqArgumentsAsWritten(args, toMs) == AcqArguments(args, toMs)
  {
  }

  /** Two well-formed `--app` entries: the written code fails where the
      intended one reads both files. */
  lemma AppModeFails(toMs: string -> Option<int>)
    ensures var args := Args(None, Some(["a", "b"]), false);
            && AcqArgumentsAsWritten(args, toMs) == Failure(LenOfNone)
            && AcqArguments(args, toMs) == Success((["a", "b"], [0, 0]))
  {
    var entries := ["a", "b"];
    assert ParseEntry("a", toMs) == Success(("a", 0));
    assert ParseEntry("b", toMs) == Success(("b", 0));
    var first := entries[..1];
    assert first[..0] == [];
    var none: seq<string>, zero: seq<int> := [], [];
    assert MergeInfo(first[..0], toMs) == Success((none, zero));
    assert first[0] == "a";
    assert none + ["a"] == ["a"] && zero + [0] == [0];
    assert MergeInfo(first, toMs) == Success((["a"], [0]));
    assert entries[..|entries| - 1] == first;
    assert entries[|entries| - 1] == "b";
    assert ["a"] + ["b"] == ["a", "b"] && [0] + [0] == [0, 0];
    assert MergeInfo(entries, toMs) == Success((["a", "b"], [0, 0]));
  }

  /** Lines 53-78, reading the entries with `ExtractMergeInfo`, with the
      length test of line 71 corrected to measure the `--app` entries
      (`AcqArgumentsAsWritten` keeps the test as written). */
  method ParseAcqArguments(args: Args, toMs: string -> Option<int>)
    returns (r: Result<(seq<string>, seq<int>), MergeError>)
    ensures r == AcqArguments(args, toMs)
  {
    if args.merge.None? && args.app.None? {
      return Failure(NoMode);
    }
    if args.merge.Some? && args.app.Some? {
      return Failure(BothModes);
    }
    var mergeInfos: seq<string> := [];
    if args.merge.Some? {
      mergeInfos := args.merge.value;
      if |args.merge.value| < 2 {
        return Failure(TooFewFiles);
      }
    }
    if args.app.Some? {
      mergeInfos := args.app.value;
      if |args.app.value| < 2 {
        return Failure(TooFewFiles);
      }
    }
    r := ExtractMergeInfo(mergeInfos, toMs);
  }

  // ---------------------------------------------------------------------
  // The time-block duration check and the run
  // ---------------------------------------------------------------------

  /** Line 215: Python's `len(set(q)) == 1`. */
  predicate QuantaAgree(q: seq<int>)
  {
    |set x | x in q| == 1
  }

  /** The durations agree exactly when there is at least one and all of
      them equal the first. */
  lemma {:induction false} QuantaAgreeMeans(q: seq<int>)
    ensures QuantaAgree(q) <==> q != [] && forall i :: 0 <= i < |q| ==> q[i] == q[0]
  {
    var distinct := set x | x in q;
    if q == [] {
      assert distinct == {};
    } else if forall i :: 0 <= i < |q| ==> q[i] == q[0] {
      assert distinct == {q[0]};
    } else {
      var i :| 0 <= i < |q| && q[i] != q[0];
      assert {q[0], q[i]} <= distinct;
      assert |{q[0], q[i]}| == 2;
      SubsetCard({q[0], q[i]}, distinct);
    }
  }

  lemma SubsetCard<T>(a: set<T>, b: set<T>)
    requires a <= b
    ensures |a| <= |b|
  {
    assert b == a + (b - a);
  }

  /** Lines 206-214: the duration and the blocks of each input, in order. */
  function Acquired<E>(files: string -> Acquisition<E>, paths: seq<string>): (r: (seq<int>, seq<seq<TimeBlock<E>>>))
    ensures |r.0| == |r.1| == |paths|
    ensures forall i :: 0 <= i < |paths| ==> r.0[i] == files(paths[i]).quantum && r.1[i] == files(paths[i]).blocks
  {
    (seq(|paths|, i requires 0 <= i < |paths| => files(paths[i]).quantum),
     seq(|paths|, i requires 0 <= i < |paths| => files(paths[i]).blocks))
  }

  /** Line 221: each start, in milliseconds, times the common duration. */
  function SlotOffsets(starts: seq<int>, quantum: int): (r: seq<int>)
    ensures |r| == |starts|
  {
    seq(|starts|, i requires 0 <= i < |starts| => starts[i] * quantum)
  }

  /** What the script produces for `args`: the first error met, in the
      order the script meets them, or the fused blocks of the inputs. */
  function Outcome<E(!new)>(args: Args, toMs: string -> Option<int>, files: string -> Acquisition<E>,
                            shuffle: Shuffler<E>): (r: Result<seq<TimeBlock<E>>, MergeError>)
    ensures args.app.Some? ==> r == Failure(AppendNotImplemented)
    ensures args.app.None? && AcqArguments(args, toMs).Failure? ==> r == Failure(AcqArguments(args, toMs).error)
    ensures r.Success? ==> AcqArguments(args, toMs).Success? && QuantaAgree(Acquired(files, AcqArguments(args, toMs).value.0).0)
    ensures r.Success? ==> forall i :: 0 <= i < |AcqArguments(args, toMs).value.0| ==>
              files(AcqArguments(args, toMs).value.0[i]).blocks != []
  {
    if args.app.Some? then Failure(AppendNotImplemented)
    else match AcqArguments(args, toMs)
      case Failure(e) => Failure(e)
      case Success(info) =>
        var (quanta, streams) := Acquired(files, info.0);
        if !QuantaAgree(quanta) then Failure(VariableQuantum(quanta))
        else if exists i :: 0 <= i < |streams| && streams[i] == [] then Failure(EmptyStream)
        else Success(Fusion(Initial(streams, SlotOffsets(info.1, quanta[0])), args.shuffleEvents, shuffle, 0))
  }

  /** A successful run writes every delayed event of the inputs, and every
      prompt event when shuffling is off or only reorders; the slots never
      decrease when every input is sorted; no delayed list is empty. */
  lemma {:induction false} OutcomeProperties<E(!new)>(args: Args, toMs: string -> Option<int>,
                                                      files: string -> Acquisition<E>, shuffle: Shuffler<E>)
    requires Outcome(args, toMs, files, shuffle).Success?
    ensures var out := Outcome(args, toMs, files, shuffle).value;
            var streams := Acquired(files, AcqArguments(args, toMs).value.0).1;
            && multiset(AllEvents(out, Delayed)) == multiset(Inputs(streams, Delayed))
            && ((!args.shuffleEvents || Permuting(shuffle)) ==>
                  multiset(AllEvents(out, Prompt)) == multiset(Inputs(streams, Prompt)))
            && ((forall i :: 0 <= i < |streams| ==> SortedIds(streams[i])) ==> SortedIds(out))
            && (forall j :: 0 <= j < |out| ==> DelayedNormal(out[j]))
  {
    var info := AcqArguments(args, toMs).value;
    var acquired := Acquired(files, info.0);
    var offsets := SlotOffsets(info.1, acquired.0[0]);
    assert Outcome(args, toMs, files, shuffle).value == Fusion(Initial(acquired.1, offsets), args.shuffleEvents, shuffle, 0);
    FusionOfInputs(acquired.1, offsets, args.shuffleEvents, shuffle);
  }

  /** The start conversion of line 221 seen in the output: the first block
      written sits at the earliest effective slot, where input `i`'s first
      block lands at its id plus its start multiplied by the common
      duration. */
  lemma {:induction false} OutcomeFirstSlot<E(!new)>(args: Args, toMs: string -> Option<int>,
                                                     files: string -> Acquisition<E>, shuffle: Shuffler<E>)
    requires Outcome(args, toMs, files, shuffle).Success?
    ensures var out := Outcome(args, toMs, files, shuffle).value;
            var info := AcqArguments(args, toMs).value;
            var acquired := Acquired(files, info.0);
            && out != []
            && (forall i :: 0 <= i < |info.0| ==> out[0].id <= acquired.1[i][0].id + info.1[i] * acquired.0[0])
            && (exists i :: 0 <= i < |info.0| && out[0].id == acquired.1[i][0].id + info.1[i] * acquired.0[0])
  {
    var info := AcqArguments(args, toMs).value;
    var acquired := Acquired(files, info.0);
    var offsets := SlotOffsets(info.1, acquired.0[0]);
    assert Outcome(args, toMs, files, shuffle).value == Fusion(Initial(acquired.1, offsets), args.shuffleEvents, shuffle, 0);
    FusionFirstSlot(acquired.1, offsets, args.shuffleEvents, shuffle);
  }

  /** Lines 206-214 without the header: read every input, recording its
      time-block duration and its blocks. */
  method ReadInputs<E>(files: string -> Acquisition<E>, iFiles: seq<string>)
    returns (allTimeInterval: seq<int>, fileIO: seq<seq<TimeBlock<E>>>)
    ensures (allTimeInterval, fileIO) == Acquired(files, iFiles)
  {
    fileIO, allTimeInterval := [], [];
    for i := 0 to |iFiles|
      invariant |fileIO| == |allTimeInterval| == i
      invariant forall j :: 0 <= j < i ==> allTimeInterval[j] == files(iFiles[j]).quantum
      invariant forall j :: 0 <= j < i ==> fileIO[j] == files(iFiles[j]).blocks
    {
      var acq := files(iFiles[i]);
      allTimeInterval := allTimeInterval + [acq.quantum];
      fileIO := fileIO + [acq.blocks];
    }
    assert allTimeInterval == Acquired(files, iFiles).0;
    assert fileIO == Acquired(files, iFiles).1;
  }

  /** Lines 195-280 without the header and the writer: refuse append mode,
      read the arguments, read every input, check the durations, turn the
      starts into slots, and fuse. */
  method RunMerger<E(!new)>(args: Args, toMs: string -> Option<int>, files: string -> Acquisition<E>,
                            shuffle: Shuffler<E>) returns (r: Result<seq<TimeBlock<E>>, MergeError>)
    ensures r == Outcome(args, toMs, files, shuffle)
  {
    if args.app.Some? {
      return Failure(AppendNotImplemented);
    }
    var parsed := ParseAcqArguments(args, toMs);
    if parsed.Failure? {
      return Failure(parsed.error);
    }
    var (iFiles, startTime) := parsed.value;
    var allTimeInterval, fileIO := ReadInputs(files, iFiles);
    if |set x | x in allTimeInterval| != 1 {
      return Failure(VariableQuantum(allTimeInterval));
    }
    var offsets := SlotOffsets(startTime, allTimeInterval[0]);
    if exists i :: 0 <= i < |fileIO| && fileIO[i] == [] {
      return Failure(EmptyStream);
    }
    var out := FuseStreams(fileIO, offsets, args.shuffleEvents, shuffle);
    r := Success(out);
  }
}
