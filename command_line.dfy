/** The hand-written argument scanner of the Spectre.Console variant of
    `CommandLineExtensions.ParseCommandLine`: `--name`/`-n <value>` sets the
    name, `--verbose`/`-v` switches verbose output on, anything else is
    skipped. */
module CommandLine {

  /** `CommandLineOptions`: a plain record whose two properties the scanner
      assigns. */
  datatype CommandLineOptions = CommandLineOptions(name: string, verbose: bool)

  /** A freshly constructed `CommandLineOptions`. */
  const DefaultOptions := CommandLineOptions("World", false)

  /** The two spellings of the name flag; comparison is ordinal, so case
      matters. */
  predicate IsNameFlag(arg: string) {
    arg == "--name" || arg == "-n"
  }

  /** The two spellings of the verbose flag. */
  predicate IsVerboseFlag(arg: string) {
    arg == "--verbose" || arg == "-v"
  }

  /** The scan from index `i` with the options built so far. */
  function Scan(args: seq<string>, i: nat, options: CommandLineOptions): CommandLineOptions
    decreases |args| - i
  {
    if |args| <= i then options
    else if IsNameFlag(args[i]) && i + 1 < |args| then Scan(args, i + 2, options.(name := args[i + 1]))
    else if IsVerboseFlag(args[i]) then Scan(args, i + 1, options.(verbose := true))
    else Scan(args, i + 1, options)
  }

  /** What `ParseCommandLine(args)` returns. */
  function Parse(args: seq<string>): CommandLineOptions {
    Scan(args, 0, DefaultOptions)
  }

  /** An independent description of which positions the scan reads as a
      flag: position `j` is a value slot when the argument before it is a name
      flag that is not itself a value slot. Every other position is a flag
      slot. */
  ghost predicate IsValueSlot(args: seq<string>, j: nat)
    decreases j
  {
    0 < j < |args| && IsNameFlag(args[j - 1]) && !IsValueSlot(args, j - 1)
  }

  /** Verbose output is switched on exactly when a verbose flag stands in a
      flag slot at or after `i`, or was already on; nothing switches it off. */
  lemma {:induction false} ScanVerbose(args: seq<string>, i: nat, options: CommandLineOptions)
    requires i <= |args|
    requires !IsValueSlot(args, i)
    ensures Scan(args, i, options).verbose
        <==> options.verbose || exists j :: i <= j < |args| && !IsValueSlot(args, j) && IsVerboseFlag(args[j])
    decreases |args| - i
  {
    if i < |args| {
      if IsNameFlag(args[i]) && i + 1 < |args| {
        assert IsValueSlot(args, i + 1);
        assert !IsValueSlot(args, i + 2);
        ScanVerbose(args, i + 2, options.(name := args[i + 1]));
        assert !IsVerboseFlag(args[i]);
      } else {
        assert !IsValueSlot(args, i + 1);
        var next := if IsVerboseFlag(args[i]) then options.(verbose := true) else options;
        ScanVerbose(args, i + 1, next);
      }
    }
  }

  /** No position at or after `i` is a value slot. */
  ghost predicate NoValueSlotFrom(args: seq<string>, i: nat) {
    forall j :: i <= j < |args| ==> !IsValueSlot(args, j)
  }

  /** Position `j` is the last value slot. */
  ghost predicate IsLastValueSlot(args: seq<string>, j: nat) {
    IsValueSlot(args, j) && NoValueSlotFrom(args, j + 1)
  }

  /** The name is the argument in the last value slot at or after `i`, or
      the one already set when there is none. */
  lemma {:induction false} ScanName(args: seq<string>, i: nat, options: CommandLineOptions)
    requires i <= |args|
    requires !IsValueSlot(args, i)
    ensures NoValueSlotFrom(args, i) ==> Scan(args, i, options).name == options.name
    ensures forall j :: i <= j && IsLastValueSlot(args, j) ==> Scan(args, i, options).name == args[j]
    decreases |args| - i
  {
    if i < |args| {
      var result := Scan(args, i, options);
      if IsNameFlag(args[i]) && i + 1 < |args| {
        assert IsValueSlot(args, i + 1);
        assert !IsValueSlot(args, i + 2);
        var next := options.(name := args[i + 1]);
        ScanName(args, i + 2, next);
        assert result == Scan(args, i + 2, next);
        forall j | i <= j && IsLastValueSlot(args, j)
          ensures result.name == args[j]
        {
          if j == i + 1 {
            assert NoValueSlotFrom(args, i + 2);
          } else {
            assert j != i;
          }
        }
      } else {
        assert !IsValueSlot(args, i + 1);
        var next := if IsVerboseFlag(args[i]) then options.(verbose := true) else options;
        ScanName(args, i + 1, next);
        assert result == Scan(args, i + 1, next);
        forall j | i <= j && IsLastValueSlot(args, j)
          ensures result.name == args[j]
        {
          assert j != i;
        }
      }
    }
  }

  /** `ParseCommandLine` sets `Verbose` exactly when some flag slot holds
      `--verbose` or `-v`. */
  lemma ParseVerbose(args: seq<string>)
    ensures Parse(args).verbose <==> exists j :: 0 <= j < |args| && !IsValueSlot(args, j) && IsVerboseFlag(args[j])
  {
    ScanVerbose(args, 0, DefaultOptions);
  }

  /** `ParseCommandLine` takes `Name` from the last value slot, and keeps
      `"World"` when there is none. */
  lemma ParseName(args: seq<string>)
    ensures NoValueSlotFrom(args, 0) ==> Parse(args).name == "World"
    ensures forall j: nat :: IsLastValueSlot(args, j) ==> Parse(args).name == args[j]
  {
    ScanName(args, 0, DefaultOptions);
  }

  /** An argument appended in a flag slot that is not a verbose flag (an
      unrecognised argument, a differently-cased flag, or a trailing name
      flag with no value) leaves the scan's result unchanged. */
  lemma {:induction false} ScanAppendInert(args: seq<string>, extra: string, i: nat, options: CommandLineOptions)
    requires i <= |args|
    requires !IsVerboseFlag(extra) && !IsValueSlot(args + [extra], |args|)
    requires !IsValueSlot(args + [extra], i)
    ensures Scan(args + [extra], i, options) == Scan(args, i, options)
    decreases |args| - i
  {
    var longer := args + [extra];
    if i < |args| {
      assert longer[i] == args[i];
      if IsNameFlag(args[i]) && i + 1 < |longer| {
        assert IsValueSlot(longer, i + 1);
        assert i + 1 < |args|;
        assert longer[i + 1] == args[i + 1];
        assert !IsValueSlot(longer, i + 2);
        ScanAppendInert(args, extra, i + 2, options.(name := args[i + 1]));
      } else {
        assert !IsValueSlot(longer, i + 1);
        var next := if IsVerboseFlag(args[i]) then options.(verbose := true) else options;
        ScanAppendInert(args, extra, i + 1, next);
      }
    }
  }

  /** A trailing `--name`/`-n` without a value, an unrecognised argument, or
      a flag in the wrong case, appended in a flag slot, is ignored. */
  lemma AppendInert(args: seq<string>, extra: string)
    requires !IsVerboseFlag(extra) && !IsValueSlot(args + [extra], |args|)
    ensures Parse(args + [extra]) == Parse(args)
  {
    ScanAppendInert(args, extra, 0, DefaultOptions);
  }

  /** Worked cases: no arguments give the defaults; a consumed value is
      never read as a flag; the last name wins; differently-cased flags are
      skipped. */
  lemma Examples()
    ensures Parse([]) == DefaultOptions
    ensures Parse(["--name", "-v"]) == CommandLineOptions("-v", false)
    ensures Parse(["-n", "Ann", "-v", "--name", "Bob"]) == CommandLineOptions("Bob", true)
    ensures Parse(["--Name", "Ann", "--VERBOSE"]) == DefaultOptions
    ensures Parse(["-v", "--name"]) == CommandLineOptions("World", true)
  {
  }

  /** `ParseCommandLine`: the `for` loop whose index the name branch bumps a
      second time to skip the consumed value. */
  method ParseCommandLine(args: seq<string>) returns (options: CommandLineOptions)
    ensures options == Parse(args)
  {
    options := DefaultOptions;
    var i: nat := 0;
    while i < |args|
      invariant i <= |args|
      invariant Scan(args, i, options) == Parse(args)
      decreases |args| - i
    {
      if IsNameFlag(args[i]) && i + 1 < |args| {
        options := options.(name := args[i + 1]);
        i := i + 1;
      } else if IsVerboseFlag(args[i]) {
        options := options.(verbose := true);
      }
      i := i + 1;
    }
  }
}
