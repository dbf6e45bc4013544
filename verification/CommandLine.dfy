/** The command line: numerals, the option loop, and its declarative meaning. */
module CommandLine {
  import opened Core

  const LIMIT: nat := 0x1_0000_0000_0000_0000

  datatype Options = Options(workers: nat, tasks: nat, work: nat, queueCapacity: nat, failEvery: nat)

  datatype ParseResult = Run(options: Options) | ShowHelp | ShowVersion | Fail

  datatype Opt = Workers | Tasks | Work | QueueCapacity | FailEvery

  // ----- numerals -----

  predicate IsDigit(c: char) { '0' <= c <= '9' }

  function DigitValue(c: char): nat
    requires IsDigit(c)
  {
    (c as int) - ('0' as int)
  }

  /** std::from_chars on an unsigned integer: the accumulated value and the number of digits consumed. */
  function Scan(text: string, pos: nat, acc: nat): (nat, nat)
    requires pos <= |text|
    decreases |text| - pos
  {
    if pos < |text| && IsDigit(text[pos]) then Scan(text, pos + 1, 10 * acc + DigitValue(text[pos])) else (acc, pos)
  }

  function ParseU64(text: string): Option<nat>
  {
    if text == "" then None
    else
      var (value, consumed) := Scan(text, 0, 0);
      var conversionFailed := consumed == 0 || value >= LIMIT;
      if conversionFailed || consumed != |text| then None else Some(value)
  }

  ghost predicate AllDigits(text: string)
  {
    forall i | 0 <= i < |text| :: IsDigit(text[i])
  }

  /** The number a digit string denotes. */
  ghost function Value(text: string): nat
    requires AllDigits(text)
  {
    if text == "" then 0 else 10 * Value(text[..|text| - 1]) + DigitValue(text[|text| - 1])
  }

  /** A non-empty string of digits denoting a number below 2^64. */
  ghost predicate IsNumeral(text: string)
  {
    text != "" && AllDigits(text) && Value(text) < LIMIT
  }

  lemma {:induction false} ScanMeaning(text: string, pos: nat)
    requires pos <= |text| && AllDigits(text[..pos])
    ensures var (value, consumed) := Scan(text, pos, Value(text[..pos]));
            && pos <= consumed <= |text|
            && AllDigits(text[..consumed]) && value == Value(text[..consumed])
            && (consumed < |text| ==> !IsDigit(text[consumed]))
    decreases |text| - pos
  {
    if pos == |text| || !IsDigit(text[pos]) {
    } else {
      assert text[..pos + 1][..pos] == text[..pos];
      ScanMeaning(text, pos + 1);
    }
  }

  /** parse_u64 accepts exactly the numerals and yields their value. */
  lemma ParseU64Accepts(text: string)
    ensures ParseU64(text) == if IsNumeral(text) then Some(Value(text)) else None
  {
    ScanMeaning(text, 0);
    var (value, consumed) := Scan(text, 0, 0);
    assert text[..|text|] == text;
  }

  /** Decimal notation without leading zeros. */
  function Decimal(n: nat): string
  {
    var last := [['0', '1', '2', '3', '4', '5', '6', '7', '8', '9'][n % 10]];
    if n < 10 then last else Decimal(n / 10) + last
  }

  lemma {:induction false} DecimalReadsBack(n: nat)
    ensures Decimal(n) != "" && AllDigits(Decimal(n)) && Value(Decimal(n)) == n
  {
    var text := Decimal(n);
    var last := text[|text| - 1];
    assert IsDigit(last) && DigitValue(last) == n % 10;
    if n < 10 {
      assert text[..0] == "";
      assert text == [last];
    } else {
      DecimalReadsBack(n / 10);
      assert text[..|text| - 1] == Decimal(n / 10);
    }
  }

  // ----- options -----

  function Name(opt: Opt): string
  {
    match opt
    case Workers => "--workers"
    case Tasks => "--tasks"
    case Work => "--work"
    case QueueCapacity => "--queue-capacity"
    case FailEvery => "--fail-every"
  }

  function OptNamed(arg: string): Option<Opt>
  {
    if arg == "--workers" then Some(Workers)
    else if arg == "--tasks" then Some(Tasks)
    else if arg == "--work" then Some(Work)
    else if arg == "--queue-capacity" then Some(QueueCapacity)
    else if arg == "--fail-every" then Some(FailEvery)
    else None
  }

  function Field(o: Options, opt: Opt): nat
  {
    match opt
    case Workers => o.workers
    case Tasks => o.tasks
    case Work => o.work
    case QueueCapacity => o.queueCapacity
    case FailEvery => o.failEvery
  }

  function Assign(o: Options, opt: Opt, value: nat): Options
  {
    match opt
    case Workers => o.(workers := value)
    case Tasks => o.(tasks := value)
    case Work => o.(work := value)
    case QueueCapacity => o.(queueCapacity := value)
    case FailEvery => o.(failEvery := value)
  }

  predicate IsHelp(arg: string) { arg == "-h" || arg == "--help" }
  predicate IsVersion(arg: string) { arg == "--version" }

  /** Zero detected cores means one worker. */
  function DefaultWorkerCount(detected: nat): nat { if detected == 0 then 1 else detected }

  function Defaults(detected: nat): Options { Options(DefaultWorkerCount(detected), 1000, 1000, 1024, 0) }

  function Validate(o: Options): ParseResult
  {
    if o.workers == 0 then Fail
    else if o.queueCapacity == 0 then Fail
    else Run(o)
  }

  /** The option loop from argument i on. */
  function ParseFrom(args: seq<string>, i: nat, o: Options): ParseResult
    requires i <= |args|
    decreases |args| - i
  {
    if i == |args| then Validate(o)
    else
      var arg := args[i];
      if IsHelp(arg) then ShowHelp
      else if IsVersion(arg) then ShowVersion
      else if |arg| < 3 || arg[..2] != "--" then Fail
      else if i + 1 >= |args| then Fail
      else
        var opt := OptNamed(arg);
        var value := ParseU64(args[i + 1]);
        if opt.None? || value.None? then Fail
        else ParseFrom(args, i + 2, Assign(o, opt.value, value.value))
  }

  function Parse(args: seq<string>, detected: nat): ParseResult { ParseFrom(args, 0, Defaults(detected)) }

  method ParseArgs(args: seq<string>, detected: nat) returns (r: ParseResult)
    ensures r == Parse(args, detected)
  {
    var options := Defaults(detected);
    var i := 0;
    while i < |args|
      invariant 0 <= i <= |args|
      invariant Parse(args, detected) == ParseFrom(args, i, options)
    {
      var arg := args[i];
      if arg == "-h" || arg == "--help" {
        return ShowHelp;
      }
      if arg == "--version" {
        return ShowVersion;
      }
      if |arg| < 3 || arg[..2] != "--" {
        return Fail;
      }
      if i + 1 >= |args| {
        return Fail;
      }
      i := i + 1;
      var value := ParseU64(args[i]);
      if arg == "--workers" {
        if value.None? {
          return Fail;
        }
        options := options.(workers := value.value);
      } else if arg == "--tasks" {
        if value.None? {
          return Fail;
        }
        options := options.(tasks := value.value);
      } else if arg == "--work" {
        if value.None? {
          return Fail;
        }
        options := options.(work := value.value);
      } else if arg == "--queue-capacity" {
        if value.None? {
          return Fail;
        }
        options := options.(queueCapacity := value.value);
      } else if arg == "--fail-every" {
        if value.None? {
          return Fail;
        }
        options := options.(failEvery := value.value);
      } else {
        return Fail;
      }
      i := i + 1;
    }
    if options.workers == 0 {
      return Fail;
    }
    if options.queueCapacity == 0 {
      return Fail;
    }
    r := Run(options);
  }

  // ----- what the loop means -----

  ghost predicate GoodPair(args: seq<string>, j: nat)
  {
    2 * j + 1 < |args| && OptNamed(args[2 * j]).Some? && IsNumeral(args[2 * j + 1])
  }

  /** The first k pairs of arguments are known options with numerals. */
  ghost predicate GoodPairs(args: seq<string>, k: nat)
  {
    forall j: nat | j < k :: GoodPair(args, j)
  }

  /** The value the last assignment to opt among the first k pairs gives it, or the default. */
  ghost function LastValue(args: seq<string>, k: nat, opt: Opt, default: nat): nat
    requires GoodPairs(args, k)
  {
    if k == 0 then default
    else
      assert GoodPair(args, k - 1);
      if OptNamed(args[2 * (k - 1)]) == Some(opt) then Value(args[2 * (k - 1) + 1])
      else LastValue(args, k - 1, opt, default)
  }

  ghost function FinalOptions(args: seq<string>, k: nat, d: Options): Options
    requires GoodPairs(args, k)
  {
    Options(LastValue(args, k, Workers, d.workers),
            LastValue(args, k, Tasks, d.tasks),
            LastValue(args, k, Work, d.work),
            LastValue(args, k, QueueCapacity, d.queueCapacity),
            LastValue(args, k, FailEvery, d.failEvery))
  }

  lemma OptionNames(arg: string)
    ensures OptNamed(arg).Some? ==>
              arg == Name(OptNamed(arg).value) && |arg| >= 3 && arg[..2] == "--" && !IsHelp(arg) && !IsVersion(arg)
  {
  }

  /** The loop consumes one good pair per round. */
  lemma OneRound(args: seq<string>, k: nat, o: Options)
    requires GoodPair(args, k)
    ensures ParseFrom(args, 2 * k, o)
            == ParseFrom(args, 2 * k + 2, Assign(o, OptNamed(args[2 * k]).value, Value(args[2 * k + 1])))
  {
    OptionNames(args[2 * k]);
    ParseU64Accepts(args[2 * k + 1]);
  }

  lemma {:induction false} Rounds(args: seq<string>, k: nat, d: Options)
    requires GoodPairs(args, k)
    ensures 2 * k <= |args|
    ensures ParseFrom(args, 0, d) == ParseFrom(args, 2 * k, FinalOptions(args, k, d))
  {
    if k == 0 {
    } else {
      Rounds(args, k - 1, d);
      assert GoodPair(args, k - 1);
      OneRound(args, k - 1, FinalOptions(args, k - 1, d));
    }
  }

  /** A round on anything but a good pair ends the parse. */
  lemma LastRound(args: seq<string>, k: nat, o: Options)
    requires 2 * k < |args| && !GoodPair(args, k)
    ensures ParseFrom(args, 2 * k, o) ==
            if IsHelp(args[2 * k]) then ShowHelp else if IsVersion(args[2 * k]) then ShowVersion else Fail
  {
    if 2 * k + 1 < |args| {
      ParseU64Accepts(args[2 * k + 1]);
    }
  }

  lemma {:induction false} LongestGoodPrefix(args: seq<string>, k: nat) returns (m: nat)
    requires GoodPairs(args, k) && 2 * k <= |args|
    ensures GoodPairs(args, m) && 2 * m <= |args| && (2 * m < |args| ==> !GoodPair(args, m))
    decreases |args| - 2 * k
  {
    if GoodPair(args, k) {
      m := LongestGoodPrefix(args, k + 1);
    } else {
      m := k;
    }
  }

  /** parse_args runs exactly on pairs of a known option and a numeral, each field being its last assignment or default,
      with at least one worker and one slot. */
  lemma RunsExactlyOnGoodPairs(args: seq<string>, detected: nat, o: Options)
    ensures Parse(args, detected) == Run(o) <==>
            && |args| % 2 == 0 && GoodPairs(args, |args| / 2)
            && o == FinalOptions(args, |args| / 2, Defaults(detected))
            && o.workers != 0 && o.queueCapacity != 0
  {
    var m := LongestGoodPrefix(args, 0);
    Rounds(args, m, Defaults(detected));
    if 2 * m < |args| {
      LastRound(args, m, FinalOptions(args, m, Defaults(detected)));
    }
  }

  /** At pair k the loop meets a help flag, everything before being good pairs. */
  ghost predicate HelpAt(args: seq<string>, k: nat)
  {
    GoodPairs(args, k) && 2 * k < |args| && IsHelp(args[2 * k])
  }

  ghost predicate VersionAt(args: seq<string>, k: nat)
  {
    GoodPairs(args, k) && 2 * k < |args| && IsVersion(args[2 * k])
  }

  /** Help is shown exactly when a help flag stands where an option is expected and only good pairs precede it. */
  lemma HelpExactlyAfterGoodPairs(args: seq<string>, detected: nat)
    ensures Parse(args, detected) == ShowHelp <==> exists k: nat :: HelpAt(args, k)
    ensures Parse(args, detected) == ShowVersion <==> exists k: nat :: VersionAt(args, k)
  {
    var d := Defaults(detected);
    forall k: nat | HelpAt(args, k) || VersionAt(args, k)
      ensures Parse(args, detected) == if HelpAt(args, k) then ShowHelp else ShowVersion
    {
      Rounds(args, k, d);
      OptionNames(args[2 * k]);
      LastRound(args, k, FinalOptions(args, k, d));
    }
    var m := LongestGoodPrefix(args, 0);
    Rounds(args, m, d);
    if 2 * m < |args| {
      LastRound(args, m, FinalOptions(args, m, d));
      assert IsHelp(args[2 * m]) ==> HelpAt(args, m);
      assert IsVersion(args[2 * m]) ==> VersionAt(args, m);
    }
  }

  /** The defaults and the flags, spelled out. */
  lemma DefaultsAndFlags(detected: nat)
    ensures Parse([], detected) == Run(Options(if detected == 0 then 1 else detected, 1000, 1000, 1024, 0))
    ensures Parse(["--help"], detected) == Parse(["-h"], detected) == ShowHelp
    ensures Parse(["--version"], detected) == ShowVersion
  {
  }

  lemma OnePair(name: string, text: string, detected: nat)
    requires OptNamed(name).Some? && IsNumeral(text)
    ensures Parse([name, text], detected) == Validate(Assign(Defaults(detected), OptNamed(name).value, Value(text)))
  {
    OneRound([name, text], 0, Defaults(detected));
  }

  /** Each option, by its name on the command line, sets its own field and leaves the others at their defaults. */
  lemma EachOptionSetsItsField(text: string, detected: nat)
    requires IsNumeral(text)
    ensures var v, w := Value(text), if detected == 0 then 1 else detected;
            && Parse(["--workers", text], detected) == (if v == 0 then Fail else Run(Options(v, 1000, 1000, 1024, 0)))
            && Parse(["--tasks", text], detected) == Run(Options(w, v, 1000, 1024, 0))
            && Parse(["--work", text], detected) == Run(Options(w, 1000, v, 1024, 0))
            && Parse(["--queue-capacity", text], detected)
               == (if v == 0 then Fail else Run(Options(w, 1000, 1000, v, 0)))
            && Parse(["--fail-every", text], detected) == Run(Options(w, 1000, 1000, 1024, v))
  {
    OnePair("--workers", text, detected);
    OnePair("--tasks", text, detected);
    OnePair("--work", text, detected);
    OnePair("--queue-capacity", text, detected);
    OnePair("--fail-every", text, detected);
  }

  /** A mistake before the help flag is reported instead of the help. */
  lemma MistakeHidesHelp(detected: nat)
    ensures Parse(["--nonsense", "--help"], detected) == Fail
  {
  }

  // ----- round trip -----

  ghost predicate Representable(o: Options)
  {
    && o.workers != 0 && o.queueCapacity != 0
    && forall opt :: Field(o, opt) < LIMIT
  }

  /** The command line that spells out the given options in the given order. */
  function Render(o: Options, order: seq<Opt>): (args: seq<string>)
    ensures |args| == 2 * |order|
    ensures forall j: nat | j < |order| ::
              args[2 * j] == Name(order[j]) && args[2 * j + 1] == Decimal(Field(o, order[j]))
  {
    if order == [] then []
    else
      var n := |order| - 1;
      Render(o, order[..n]) + [Name(order[n]), Decimal(Field(o, order[n]))]
  }

  /** Pair j of the arguments assigns the field opt of o. */
  ghost predicate SpellsAt(args: seq<string>, o: Options, opt: Opt, j: nat)
  {
    GoodPair(args, j) && OptNamed(args[2 * j]) == Some(opt) && Value(args[2 * j + 1]) == Field(o, opt)
  }

  /** args assigns the fields of o, one good pair per entry of the order. */
  ghost predicate Spells(args: seq<string>, o: Options, order: seq<Opt>)
  {
    |args| == 2 * |order| && forall j: nat | j < |order| :: SpellsAt(args, o, order[j], j)
  }

  lemma NameIsKnown(opt: Opt)
    ensures OptNamed(Name(opt)) == Some(opt)
  {
  }

  lemma DecimalIsNumeral(n: nat)
    requires n < LIMIT
    ensures IsNumeral(Decimal(n)) && Value(Decimal(n)) == n
  {
    DecimalReadsBack(n);
  }

  /** A name followed by the decimal notation of its field is a good pair. */
  lemma PairSpells(args: seq<string>, o: Options, opt: Opt, j: nat)
    requires 2 * j + 1 < |args| && args[2 * j] == Name(opt) && args[2 * j + 1] == Decimal(Field(o, opt))
    requires Field(o, opt) < LIMIT
    ensures SpellsAt(args, o, opt, j)
  {
    NameIsKnown(opt);
    DecimalIsNumeral(Field(o, opt));
  }

  lemma RenderSpells(o: Options, order: seq<Opt>)
    requires Representable(o)
    ensures Spells(Render(o, order), o, order)
  {
    var args := Render(o, order);
    forall j: nat | j < |order|
      ensures SpellsAt(args, o, order[j], j)
    {
      PairSpells(args, o, order[j], j);
    }
  }

  lemma {:induction false} SpelledValue(args: seq<string>, o: Options, order: seq<Opt>, k: nat, opt: Opt, default: nat)
    requires Spells(args, o, order) && k <= |order| && GoodPairs(args, k)
    ensures LastValue(args, k, opt, default) == if opt in order[..k] then Field(o, opt) else default
  {
    if k == 0 {
    } else {
      SpelledValue(args, o, order, k - 1, opt, default);
      assert GoodPair(args, k - 1);
      assert order[..k] == order[..k - 1] + [order[k - 1]];
    }
  }

  lemma SpelledOptions(args: seq<string>, o: Options, order: seq<Opt>, d: Options)
    requires Spells(args, o, order) && forall opt: Opt :: opt in order
    ensures GoodPairs(args, |order|) && FinalOptions(args, |order|, d) == o
  {
    forall j: nat | j < |order|
      ensures GoodPair(args, j)
    {
      assert SpellsAt(args, o, order[j], j);
    }
    assert order[..|order|] == order;
    SpelledValue(args, o, order, |order|, Workers, d.workers);
    SpelledValue(args, o, order, |order|, Tasks, d.tasks);
    SpelledValue(args, o, order, |order|, Work, d.work);
    SpelledValue(args, o, order, |order|, QueueCapacity, d.queueCapacity);
    SpelledValue(args, o, order, |order|, FailEvery, d.failEvery);
  }

  lemma SpelledParses(args: seq<string>, o: Options, order: seq<Opt>, detected: nat)
    requires Spells(args, o, order) && forall opt: Opt :: opt in order
    requires o.workers != 0 && o.queueCapacity != 0
    ensures Parse(args, detected) == Run(o)
  {
    SpelledOptions(args, o, order, Defaults(detected));
    RunsExactlyOnGoodPairs(args, detected, o);
  }

  /** Any valid options printed in any order, repetitions included, parse back to themselves. */
  lemma RoundTrip(o: Options, order: seq<Opt>, detected: nat)
    requires Representable(o) && forall opt: Opt :: opt in order
    ensures Parse(Render(o, order), detected) == Run(o)
  {
    RenderSpells(o, order);
    SpelledParses(Render(o, order), o, order, detected);
  }

  // ----- exit codes -----

  const EXIT_SUCCESS := 0
  const EXIT_TASK_FAILURE := 1

  function ExitCodeFor(failed: nat, rejected: nat): int
  {
    if failed == 0 && rejected == 0 then EXIT_SUCCESS else EXIT_TASK_FAILURE
  }
}
