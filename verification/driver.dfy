/** The program's `main`: create a processor for `argv[1]`, run it over
    `argv[2..]` in order until the first failure, then report. As written,
    the exit status is 1 when every path was processed and 0 otherwise. */
module Driver {
  import opened Wrappers
  import opened Keys
  import opened Processors
  import opened Factory
  import opened Tokens

  const ExitAllProcessed: int := 1
  const ExitSomethingWrong: int := 0

  /** The outcome of the loop over the paths: the paths `processFile` was
      called on, the lines written, and the failure that ended the loop. */
  datatype Batch = Batch(touched: seq<Path>, output: seq<Line>, failure: Option<Failure>)

  /** The lines written by calling `processFile` on each of `paths` in
      turn, in that order. */
  function Outputs(p: Processor, fs: FileSystem, paths: seq<Path>): seq<Line>
    requires p.Usable()
  {
    if paths == [] then [] else ProcessFile(p, fs, paths[0]).output + Outputs(p, fs, paths[1..])
  }

  /** `b` is what a fail-fast loop over `paths` leaves: it touched a prefix
      of the paths in order; it finished without failure exactly when every
      path succeeds, and then touched them all; otherwise the last path it
      touched is the first failing one and is the one the failure names.
      It wrote only transform reports, at most one per touched path
      (`ProcessAllInOrder` pins down which, and in what order). */
  ghost predicate FailFast(p: Processor, fs: FileSystem, paths: seq<Path>, b: Batch)
    requires p.Usable()
  {
    && |b.touched| <= |paths| && b.touched == paths[..|b.touched|]
    && (b.failure.None? <==> forall i :: 0 <= i < |paths| ==> Succeeds(p, fs, paths[i]))
    && (b.failure.None? ==> b.touched == paths)
    && (b.failure.Some? ==>
          && |b.touched| > 0
          && b.failure.value == Thrown(OpenErrorMessage(b.touched[|b.touched| - 1]))
          && !Succeeds(p, fs, b.touched[|b.touched| - 1])
          && forall i :: 0 <= i < |b.touched| - 1 ==> Succeeds(p, fs, b.touched[i]))
    && |b.output| <= |b.touched|
    && (forall k :: 0 <= k < |b.output| ==> b.output[k].IsReport())
  }

  /** A successful call on the first path followed by a fail-fast run over
      the rest is a fail-fast run over all the paths. */
  lemma FailFastCons(p: Processor, fs: FileSystem, paths: seq<Path>, step: Step, rest: Batch)
    requires p.Usable()
    requires |paths| > 0 && step == ProcessFile(p, fs, paths[0]) && step.failure.None?
    requires FailFast(p, fs, paths[1..], rest)
    ensures FailFast(p, fs, paths, Batch([paths[0]] + rest.touched, step.output + rest.output, rest.failure))
  {
    var b := Batch([paths[0]] + rest.touched, step.output + rest.output, rest.failure);
    assert forall i :: 1 <= i < |paths| ==> paths[i] == paths[1..][i - 1];
    assert forall i :: 1 <= i < |b.touched| ==> b.touched[i] == rest.touched[i - 1];
    assert b.touched == paths[..|b.touched|];
  }

  /** The loop of `main` over `argv[2..]`, inside the `try`: each path is
      handed to `processFile` in turn, and a throw leaves the loop at once. */
  function ProcessAll(p: Processor, fs: FileSystem, paths: seq<Path>): (r: Batch)
    requires p.Usable()
    ensures FailFast(p, fs, paths, r)
  {
    if paths == [] then
      Batch([], [], None)
    else
      var step := ProcessFile(p, fs, paths[0]);
      if step.failure.Some? then
        assert paths[..1] == [paths[0]];
        Batch([paths[0]], step.output, step.failure)
      else
        var rest := ProcessAll(p, fs, paths[1..]);
        FailFastCons(p, fs, paths, step, rest);
        Batch([paths[0]] + rest.touched, step.output + rest.output, rest.failure)
  }

  /** The loop writes the touched paths' reports, in path order, and
      nothing else. */
  lemma {:induction false} ProcessAllInOrder(p: Processor, fs: FileSystem, paths: seq<Path>)
    requires p.Usable()
    ensures ProcessAll(p, fs, paths).output == Outputs(p, fs, ProcessAll(p, fs, paths).touched)
    decreases |paths|
  {
    if paths != [] {
      var r := ProcessAll(p, fs, paths);
      var step := ProcessFile(p, fs, paths[0]);
      if step.failure.Some? {
        assert r.touched == [paths[0]];
        assert Outputs(p, fs, [paths[0]]) == step.output + Outputs(p, fs, []);
      } else {
        var rest := ProcessAll(p, fs, paths[1..]);
        ProcessAllInOrder(p, fs, paths[1..]);
        assert r.touched == [paths[0]] + rest.touched;
        assert r.touched[1..] == rest.touched;
      }
    }
  }

  /** What the program leaves behind: its exit status, the paths it handed
      to `processFile`, and everything it wrote. */
  datatype Exit = Exit(code: int, touched: seq<Path>, output: seq<Line>)

  /** `main(argc, argv)` with `args` = `argv[1..]`, the files `fs` and the
      `rand()` outputs `draws`. The program reads `argv[1]` without checking
      `argc`, and dereferences the pointer the factory returns even when it
      is empty, so both are required here. The processor is destroyed on
      every exit path, after the diagnostic on the failing one. */
  function Run(args: seq<string>, fs: FileSystem, draws: seq<nat>): (r: Exit)
    requires |args| >= 1
    requires args[0] == EncryptMode ==> |draws| >= KeyLength
    requires IsMode(args[0]) || |args| == 1
    ensures r.code == ExitAllProcessed || r.code == ExitSomethingWrong
    ensures |r.touched| <= |args| - 1 && r.touched == args[1..][..|r.touched|]
    ensures r.code == ExitAllProcessed ==> r.touched == args[1..]
  {
    match CreateFileProcessor(args[0], draws)
    case None => Exit(ExitAllProcessed, [], [])
    case Some(p) =>
      var b := ProcessAll(p, fs, args[1..]);
      var (_, teardown) := Destroy(p);
      if b.failure.None? then
        Exit(ExitAllProcessed, b.touched, b.output + teardown)
      else
        Exit(ExitSomethingWrong, b.touched, b.output + [SomethingWrong] + teardown)
  }

  /** Lines written by transforms are neither the diagnostic nor the
      key-clearing report. */
  lemma ReportsOnly(s: seq<Line>)
    requires forall k :: 0 <= k < |s| ==> s[k].IsReport()
    ensures SomethingWrong !in s && KeyCleared !in s
  {
  }

  /** Exit status: 1 exactly when the mode is "identity" or every path can
      be opened; on 0 the paths touched are the openable ones before the
      first unopenable path, and that path, and nothing after it. */
  lemma RunExitCode(args: seq<string>, fs: FileSystem, draws: seq<nat>)
    requires |args| >= 1
    requires args[0] == EncryptMode ==> |draws| >= KeyLength
    requires IsMode(args[0]) || |args| == 1
    ensures var r := Run(args, fs, draws);
            && (r.code == ExitAllProcessed
                <==> (args[0] == IdentityMode || forall i :: 1 <= i < |args| ==> args[i] in fs))
            && (r.code == ExitSomethingWrong ==>
                  && |r.touched| > 0
                  && r.touched[|r.touched| - 1] !in fs
                  && forall i :: 0 <= i < |r.touched| - 1 ==> r.touched[i] in fs)
  {
  }

  /** When the factory returns a processor, `main` writes the loop's
      reports, then the diagnostic if the loop failed, then what the
      destructor writes; the exit status records whether the loop failed. */
  lemma RunShape(args: seq<string>, fs: FileSystem, draws: seq<nat>)
    requires |args| >= 1
    requires args[0] == EncryptMode ==> |draws| >= KeyLength
    requires IsMode(args[0]) || |args| == 1
    requires CreateFileProcessor(args[0], draws).Some?
    ensures var p := CreateFileProcessor(args[0], draws).value;
            var b := ProcessAll(p, fs, args[1..]);
            var r := Run(args, fs, draws);
            && r.output == b.output + (if b.failure.Some? then [SomethingWrong] else []) + Destroy(p).1
            && (r.code == ExitSomethingWrong <==> b.failure.Some?)
  {
  }

  /** What `main` writes after the loop, with the loop's reports before it:
      the diagnostic only on failure, then the destructor's lines. */
  lemma Trailer(reports: seq<Line>, failed: bool, teardown: seq<Line>, encrypt: bool)
    requires forall k :: 0 <= k < |reports| ==> reports[k].IsReport()
    requires teardown == (if encrypt then [KeyCleared] else [])
    ensures var out := reports + (if failed then [SomethingWrong] else []) + teardown;
            && (SomethingWrong in out <==> failed)
            && multiset(out)[KeyCleared] == (if encrypt then 1 else 0)
            && (encrypt ==> out[|out| - 1] == KeyCleared)
  {
    ReportsOnly(reports);
    assert multiset(reports)[KeyCleared] == 0;
  }

  /** The key is cleared exactly once, by the destructor, as the very last
      write in "encrypt" mode; the other modes never clear a key. The
      diagnostic is written exactly when the run failed. */
  lemma {:induction false} RunOutput(args: seq<string>, fs: FileSystem, draws: seq<nat>)
    requires |args| >= 1
    requires args[0] == EncryptMode ==> |draws| >= KeyLength
    requires IsMode(args[0]) || |args| == 1
    ensures var r := Run(args, fs, draws);
            && (SomethingWrong in r.output <==> r.code == ExitSomethingWrong)
            && multiset(r.output)[KeyCleared] == (if args[0] == EncryptMode then 1 else 0)
            && (args[0] == EncryptMode ==> r.output[|r.output| - 1] == KeyCleared)
  {
    var fp := CreateFileProcessor(args[0], draws);
    if fp.Some? {
      var p := fp.value;
      var b := ProcessAll(p, fs, args[1..]);
      assert p.Encryptor? <==> args[0] == EncryptMode by {
        FactoryTable(args[0], draws);
      }
      RunShape(args, fs, draws);
      Trailer(b.output, b.failure.Some?, Destroy(p).1, p.Encryptor?);
    } else {
      assert args[0] != EncryptMode;
    }
  }



  /** Compressing a file whose only token is "data" reports the content
      with both default parameters, and the run succeeds. */
  lemma CompressScenario()
    ensures Run([CompressMode, "in.txt"], map["in.txt" := "data\n"], [])
         == Exit(ExitAllProcessed, ["in.txt"], [Compressed("data", "Hello", "World")])
  {
    var fs := map["in.txt" := "data\n"];
    var p := Compressor(Params("Hello", "World"));
    var line := Compressed("data", "Hello", "World");
    assert FirstToken("data\n") == "data" by {
      var s := "data\n";
      assert Tokens.Delimits(s, 0, 4);
      Tokens.TokenOfDelimits(s, 0, 4);
      assert s[0..4] == "data";
    }
    assert ProcessFile(p, fs, "in.txt") == Step([line], None);
    assert ProcessAll(p, fs, ["in.txt"]) == Batch(["in.txt"], [line], None) by {
      assert ["in.txt"][1..] == [];
    }
    assert CreateFileProcessor(CompressMode, []) == Some(p) by {
      FactoryTable(CompressMode, []);
    }
    assert [CompressMode, "in.txt"][1..] == ["in.txt"];
  }

  /** Encoding a path that cannot be opened writes only the diagnostic and
      the run fails. */
  lemma EncodeMissingScenario()
    ensures Run([EncodeMode, "missing.txt"], map[], [])
         == Exit(ExitSomethingWrong, ["missing.txt"], [SomethingWrong])
  {
  }
}
