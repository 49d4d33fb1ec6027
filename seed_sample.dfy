/** The sample-fixture script: it reads `--count`, `--out`, `--force` and `--help` from the
    command line and generates numbered sample reports. The clock is a parameter, the output
    path is kept as written, and writing the file is outside the model. */
module SeedSample {
  import opened Wrappers
  import opened Text

  /** One generated record; `location` is always `null`, written `None`. */
  datatype SampleRecord = SampleRecord(
    id: int,
    title: string,
    description: string,
    date: string,
    location: Option<string>,
    status: string)

  const SampleDescription := "Descripción de ejemplo para testing y desarrollo"

  /** `createSampleReport(id)`. */
  function CreateSampleReport(id: nat, date: string): SampleRecord {
    SampleRecord(id, "Reporte ejemplo #" + NatToString(id), SampleDescription, date, None, "open")
  }

  /** JavaScript array lengths are below 2^32; `Array.from` with a longer length throws. */
  const ArrayLengthBound := 0x1_0000_0000
  const InvalidArrayLength := "Invalid array length"

  /** `generateData(count)` for a count below `ArrayLengthBound`: records numbered 1 to `count`. */
  function GenerateData(count: nat, date: string): seq<SampleRecord> {
    seq(count, i requires 0 <= i < count => CreateSampleReport(i + 1, date))
  }

  /** The records are numbered 1 to `count` in order, their titles are pairwise distinct
      and carry the number, and each has no location, the status "open", the fixed
      description and the run's date. */
  lemma GenerateDataSpec(count: nat, date: string)
    ensures |GenerateData(count, date)| == count
    ensures forall i :: 0 <= i < count ==> GenerateData(count, date)[i].id == i + 1
    ensures forall i :: 0 <= i < count ==>
              GenerateData(count, date)[i].title == "Reporte ejemplo #" + NatToString(i + 1)
    ensures forall i, j :: 0 <= i < count && 0 <= j < count && i != j ==>
              GenerateData(count, date)[i].title != GenerateData(count, date)[j].title
    ensures forall i :: 0 <= i < count ==>
              && GenerateData(count, date)[i].location.None?
              && GenerateData(count, date)[i].status == "open"
              && GenerateData(count, date)[i].description == SampleDescription
              && GenerateData(count, date)[i].date == date
  {
    var data := GenerateData(count, date);
    forall i, j | 0 <= i < count && 0 <= j < count && i != j
      ensures data[i].title != data[j].title
    {
      if data[i].title == data[j].title {
        var prefix := "Reporte ejemplo #";
        assert NatToString(i + 1) == data[i].title[|prefix|..];
        assert NatToString(j + 1) == data[j].title[|prefix|..];
        NatToStringInjective(i + 1, j + 1);
      }
    }
  }

  // ---------------------------------------------------------------- command line

  /** The options; `out` is `None` for the default fixture path. */
  datatype Options = Options(count: int, out: Option<string>, force: bool)

  /** Help was asked for (nothing is generated), or the run's options. */
  datatype Invocation = Help | Run(options: Options)

  const Defaults := Options(1, None, false)

  /** `Math.max(1, Number(arg) || 1)`: `NaN` and zero become 1, and so does anything below 1. */
  function CountOf(arg: string): (n: int)
    ensures n >= 1
  {
    match ParseNumber(arg)
    case None => 1
    case Some(v) => if v == 0 then 1 else if v < 1 then 1 else v
  }

  /** The argument loop from position `i` on. A flag that expects a value takes the next
      argument only when there is a non-empty one, whatever it looks like; otherwise the flag
      falls through to the other tests and is ignored. `--help` or `-h` ends the loop. */
  function ParseFrom(args: seq<string>, i: nat, opts: Options): Invocation
    requires i <= |args|
    decreases |args| - i
  {
    if i == |args| then Run(opts)
    else if args[i] == "--count" && i + 1 < |args| && args[i + 1] != "" then
      ParseFrom(args, i + 2, opts.(count := CountOf(args[i + 1])))
    else if args[i] == "--out" && i + 1 < |args| && args[i + 1] != "" then
      ParseFrom(args, i + 2, opts.(out := Some(args[i + 1])))
    else if args[i] == "--force" then ParseFrom(args, i + 1, opts.(force := true))
    else if args[i] == "--help" || args[i] == "-h" then Help
    else ParseFrom(args, i + 1, opts)
  }

  function ParseArgs(args: seq<string>): Invocation {
    ParseFrom(args, 0, Defaults)
  }

  /** The loop keeps the count at 1 or more. */
  lemma {:induction false} ParseFromKeepsCountPositive(args: seq<string>, i: nat, opts: Options)
    requires i <= |args| && opts.count >= 1
    ensures ParseFrom(args, i, opts).Run? ==> ParseFrom(args, i, opts).options.count >= 1
    decreases |args| - i
  {
    if i < |args| {
      if args[i] == "--count" && i + 1 < |args| && args[i + 1] != "" {
        ParseFromKeepsCountPositive(args, i + 2, opts.(count := CountOf(args[i + 1])));
      } else if args[i] == "--out" && i + 1 < |args| && args[i + 1] != "" {
        ParseFromKeepsCountPositive(args, i + 2, opts.(out := Some(args[i + 1])));
      } else if args[i] == "--force" {
        ParseFromKeepsCountPositive(args, i + 1, opts.(force := true));
      } else if !(args[i] == "--help" || args[i] == "-h") {
        ParseFromKeepsCountPositive(args, i + 1, opts);
      }
    }
  }

  /** Whatever the arguments, a run generates at least one record. */
  lemma CountIsPositive(args: seq<string>)
    ensures ParseArgs(args).Run? ==> ParseArgs(args).options.count >= 1
  {
    ParseFromKeepsCountPositive(args, 0, Defaults);
  }

  /** A count written in decimal is read back; zero becomes 1. */
  lemma CountRoundTrip(n: nat)
    ensures ParseArgs(["--count", NatToString(n)]) == Run(Defaults.(count := if n == 0 then 1 else n))
  {
    ParseNumberOfNatToString(n);
    var args := ["--count", NatToString(n)];
    assert CountOf(args[1]) == if n == 0 then 1 else n;
    assert ParseFrom(args, 2, Defaults.(count := CountOf(args[1]))) == Run(Defaults.(count := CountOf(args[1])));
  }

  /** An argument that starts with two dashes is not a number, so it counts as 1. */
  lemma CountOfFlag(arg: string)
    requires |arg| >= 2 && arg[0] == '-' && arg[1] == '-'
    ensures CountOf(arg) == 1
  {
    TrimUnpaddedStart(arg);
    var t := Trim(arg);
    assert t[0] == arg[0];
    assert !IsDigits(t) by { assert !IsDigit(t[0]); }
    if |t| >= 2 {
      assert t[1..][0] == arg[1];
    }
    assert !IsDigits(t[1..]);
  }

  /** `--count` directly followed by another flag swallows that flag as its value, which is
      not a number: the count stays 1 and the swallowed flag has no effect. */
  lemma CountSwallowsNextFlag(flag: string)
    requires |flag| >= 2 && flag[0] == '-' && flag[1] == '-'
    ensures ParseArgs(["--count", flag]) == Run(Defaults)
  {
    CountOfFlag(flag);
    var args := ["--count", flag];
    assert ParseFrom(args, 2, Defaults) == Run(Defaults);
  }

  /** A help flag that is not taken as a value stops the run, whatever follows it. */
  lemma HelpStops(args: seq<string>, i: nat, opts: Options, rest: seq<string>)
    requires i < |args| && (args[i] == "--help" || args[i] == "-h")
    ensures ParseFrom(args, i, opts) == Help
    ensures ParseFrom(args + rest, i, opts) == Help
  {
    assert (args + rest)[i] == args[i];
  }

  /** A trailing `--count` or `--out` without a value changes nothing. */
  lemma TrailingFlagIgnored(args: seq<string>, flag: string, opts: Options)
    requires flag == "--count" || flag == "--out"
    ensures ParseFrom(args + [flag], |args|, opts) == Run(opts)
  {
    var a := args + [flag];
    assert a[|args|] == flag;
    assert |args| + 1 == |a|;
  }

  /** The `for` loop of `main`, proved against `ParseArgs`. */
  method ParseCommandLine(args: seq<string>) returns (inv: Invocation)
    ensures inv == ParseArgs(args)
  {
    var count := 1;
    var out: Option<string> := None;
    var force := false;
    var i := 0;
    while i < |args|
      invariant 0 <= i <= |args|
      invariant ParseFrom(args, i, Options(count, out, force)) == ParseArgs(args)
      decreases |args| - i
    {
      var arg := args[i];
      if arg == "--count" && i + 1 < |args| && args[i + 1] != "" {
        i := i + 1;
        count := CountOf(args[i]);
      } else if arg == "--out" && i + 1 < |args| && args[i + 1] != "" {
        i := i + 1;
        out := Some(args[i]);
      } else if arg == "--force" {
        force := true;
      } else if arg == "--help" || arg == "-h" {
        return Help;
      }
      i := i + 1;
    }
    inv := Run(Options(count, out, force));
  }

  /** `main(argv)`: skip the runtime and script path, read the options, and produce the
      records to write; `None` when help was asked for. A count that is not a valid array
      length makes `Array.from` throw, and `main` rejects with that error. */
  method SeedMain(argv: seq<string>, date: string) returns (plan: Result<Option<(Options, seq<SampleRecord>)>>)
    ensures var args := if |argv| >= 2 then argv[2..] else [];
      && (plan == Ok(None) <==> ParseArgs(args) == Help)
      && (plan.Err? <==> ParseArgs(args).Run? && ParseArgs(args).options.count >= ArrayLengthBound)
      && (plan.Err? ==> plan.message == InvalidArrayLength)
      && (plan.Ok? && plan.value.Some? ==>
            && plan.value.value.0 == ParseArgs(args).options
            && 1 <= plan.value.value.0.count < ArrayLengthBound
            && plan.value.value.1 == GenerateData(plan.value.value.0.count, date))
  {
    var args := if |argv| >= 2 then argv[2..] else [];
    var inv := ParseCommandLine(args);
    if inv.Help? {
      return Ok(None);
    }
    CountIsPositive(args);
    if inv.options.count >= ArrayLengthBound {
      return Err(InvalidArrayLength);
    }
    var data := GenerateData(inv.options.count, date);
    plan := Ok(Some((inv.options, data)));
  }
}
