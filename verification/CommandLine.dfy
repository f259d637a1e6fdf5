/** The planner's command line: the options and the nested loops that read them. */
module CommandLine {
  // ----- Options -----

  datatype Flag = Help | Lower | Upper | CascadeBound | Encoding | Step | NoSolve | Verbose | Debug

  /** A word of the command line: one of the flags, or something else with the number read from it. */
  datatype Word = FlagWord(flag: Flag) | Other(number: int, known: bool)

  /** What the C library reads from a word: a flag starts with a dash and no digit, so zero. */
  function NumberOf(w: Word): int {
    match w
    case FlagWord(_) => 0
    case Other(number, _) => number
  }

  const Table: seq<Flag> := [Help, Lower, Upper, CascadeBound, Encoding, Step, NoSolve, Verbose, Debug]

  predicate HasValue(f: Flag) {
    f in {Lower, Upper, CascadeBound, Encoding, Step}
  }

  datatype Options = Options(
    verbose: bool,
    debug: bool,
    solve: bool,
    lower: int,
    upper: int,
    cascade: int,
    step: int,
    encoder: int)

  const Defaults := Options(false, false, true, 1, -1, 2, 1, 0)

  function WithFlag(options: Options, f: Flag, w: Word): Options {
    var n := NumberOf(w);
    match f
    case Help => options
    case Lower => options.(lower := n)
    case Upper => options.(upper := n)
    case CascadeBound => options.(cascade := if n < 2 then 2 else n)
    case Step => options.(step := n)
    case NoSolve => options.(solve := false)
    case Verbose => options.(verbose := true)
    case Debug => options.(debug := true)
    case Encoding => options.(encoder := n)
  }

  datatype Scan = Scan(i: nat, found: bool, options: Options) | Failed

  /** The inner loop from entry j of the table: a consumed value becomes the current word, and
      the rest of the table is compared with it. */
  function ScanTable(words: seq<Word>, i: nat, j: nat, found: bool, options: Options): (r: Scan)
    requires i < |words| && j <= |Table|
    ensures r.Scan? ==> i <= r.i < |words|
    decreases |Table| - j
  {
    if j == |Table| then Scan(i, found, options)
    else if words[i] != FlagWord(Table[j]) then ScanTable(words, i, j + 1, found, options)
    else if HasValue(Table[j]) && i + 1 == |words| then Failed
    else if Table[j] == Help then Failed
    else
      var next := if HasValue(Table[j]) then i + 1 else i;
      ScanTable(words, next, j + 1, true, WithFlag(options, Table[j], words[next]))
  }

  datatype Parsed = Parsed(options: Options) | Usage

  function ParseFrom(words: seq<Word>, i: nat, options: Options): Parsed
    decreases |words| - i
  {
    if i >= |words| then Parsed(options)
    else
      match ScanTable(words, i, 0, false, options)
      case Failed => Usage
      case Scan(next, found, options') => if found then ParseFrom(words, next + 1, options') else Usage
  }

  lemma {:induction false} ScanKeepsCascade(words: seq<Word>, i: nat, j: nat, found: bool, options: Options)
    requires i < |words| && j <= |Table| && options.cascade >= 2
    ensures ScanTable(words, i, j, found, options).Scan? ==> ScanTable(words, i, j, found, options).options.cascade >= 2
    decreases |Table| - j
  {
    if j < |Table| {
      if words[i] != FlagWord(Table[j]) {
        ScanKeepsCascade(words, i, j + 1, found, options);
      } else if !(HasValue(Table[j]) && i + 1 == |words|) && Table[j] != Help {
        var next := if HasValue(Table[j]) then i + 1 else i;
        ScanKeepsCascade(words, next, j + 1, true, WithFlag(options, Table[j], words[next]));
      }
    }
  }

  /** Whatever the command line, an accepted one leaves a cascade of two layers or more. */
  lemma {:induction false} CascadeAtLeastTwo(words: seq<Word>, i: nat, options: Options)
    requires options.cascade >= 2
    ensures ParseFrom(words, i, options).Parsed? ==> ParseFrom(words, i, options).options.cascade >= 2
    decreases |words| - i
  {
    if i < |words| {
      var scan := ScanTable(words, i, 0, false, options);
      assert scan.Scan? ==> scan.options.cascade >= 2 by {
        ScanKeepsCascade(words, i, 0, false, options);
      }
      if scan.Scan? && scan.found {
        CascadeAtLeastTwo(words, scan.i + 1, scan.options);
      }
    }
  }

  // ----- What is read -----

  /** The plain reading: a flag, its value if it has one, and then the next word. */
  function Plain(words: seq<Word>, i: nat, options: Options): Parsed
    decreases |words| - i
  {
    if i >= |words| then Parsed(options)
    else if words[i].Other? || words[i].flag == Help then Usage
    else if !HasValue(words[i].flag) then Plain(words, i + 1, WithFlag(options, words[i].flag, words[i]))
    else if i + 1 == |words| then Usage
    else Plain(words, i + 2, WithFlag(options, words[i].flag, words[i + 1]))
  }

  function Position(f: Flag): (j: nat)
    ensures j < |Table| && Table[j] == f
  {
    match f
    case Help => 0
    case Lower => 1
    case Upper => 2
    case CascadeBound => 3
    case Encoding => 4
    case Step => 5
    case NoSolve => 6
    case Verbose => 7
    case Debug => 8
  }

  /** The flags behind a flag with a value in the table. */
  function Later(f: Flag): set<Flag>
    requires HasValue(f)
  {
    match f
    case Lower => {Upper, CascadeBound, Encoding, Step, NoSolve, Verbose, Debug}
    case Upper => {CascadeBound, Encoding, Step, NoSolve, Verbose, Debug}
    case CascadeBound => {Encoding, Step, NoSolve, Verbose, Debug}
    case Encoding => {Step, NoSolve, Verbose, Debug}
    case Step => {NoSolve, Verbose, Debug}
  }

  /** In the place of the value of f, this word is taken for a flag as well. */
  predicate TakenTwice(f: Flag, value: Word) {
    value.FlagWord? && Position(f) < Position(value.flag)
  }

  /** Read plainly, no value is a flag that stands later in the table than the flag it belongs to. */
  predicate PlainValues(words: seq<Word>, i: nat)
    decreases |words| - i
  {
    if i >= |words| || words[i].Other? || words[i].flag == Help then true
    else if !HasValue(words[i].flag) then PlainValues(words, i + 1)
    else i + 1 == |words| || (!TakenTwice(words[i].flag, words[i + 1]) && PlainValues(words, i + 2))
  }

  /** The table is compared in vain with a word that is none of its remaining flags. */
  lemma {:induction false} NoMatch(words: seq<Word>, i: nat, j: nat, k: nat, found: bool, options: Options)
    requires i < |words| && j <= k <= |Table|
    requires words[i].FlagWord? ==> Position(words[i].flag) < j || k <= Position(words[i].flag)
    ensures ScanTable(words, i, j, found, options) == ScanTable(words, i, k, found, options)
    decreases k - j
  {
    if j < k {
      assert words[i] != FlagWord(Table[j]);
      NoMatch(words, i, j + 1, k, found, options);
    }
  }

  /** One word, and its value if it has one. */
  lemma ScannedPlainly(words: seq<Word>, i: nat, options: Options)
    requires i < |words|
    requires words[i].FlagWord? && HasValue(words[i].flag) && i + 1 < |words| ==> !TakenTwice(words[i].flag, words[i + 1])
    ensures
      var scan := ScanTable(words, i, 0, false, options);
      if words[i].Other? then scan == Scan(i, false, options)
      else if words[i].flag == Help || (HasValue(words[i].flag) && i + 1 == |words|) then scan == Failed
      else
        var next := if HasValue(words[i].flag) then i + 1 else i;
        scan == Scan(next, true, WithFlag(options, words[i].flag, words[next]))
  {
    if words[i].Other? {
      NoMatch(words, i, 0, |Table|, false, options);
    } else {
      var f := words[i].flag;
      var j := Position(f);
      NoMatch(words, i, 0, j, false, options);
      if f != Help && !(HasValue(f) && i + 1 == |words|) {
        var next := if HasValue(f) then i + 1 else i;
        NoMatch(words, next, j + 1, |Table|, true, WithFlag(options, f, words[next]));
      }
    }
  }

  /** With plain values the nested loops read the command line plainly. */
  lemma {:induction false} ParsedPlainly(words: seq<Word>, i: nat, options: Options)
    requires PlainValues(words, i)
    ensures ParseFrom(words, i, options) == Plain(words, i, options)
    decreases |words| - i
  {
    if i < |words| {
      ScannedPlainly(words, i, options);
      if words[i].FlagWord? && words[i].flag != Help && !(HasValue(words[i].flag) && i + 1 == |words|) {
        var next := if HasValue(words[i].flag) then i + 1 else i;
        ParsedPlainly(words, next + 1, WithFlag(options, words[i].flag, words[next]));
      }
    }
  }

  /** A flag without a value changes an option that the flag before it has not set. */
  lemma UnsetFlag(f: Flag, value: Word)
    requires HasValue(f) && TakenTwice(f, value) && !HasValue(value.flag)
    ensures WithFlag(WithFlag(Defaults, f, value), value.flag, value) != WithFlag(Defaults, f, value)
  {
  }

  lemma LaterIsTaken(f: Flag, value: Word)
    requires HasValue(f)
    ensures TakenTwice(f, value) <==> value.FlagWord? && value.flag in Later(f)
  {
  }

  /** For a flag and its value the condition is exact: the loops read them plainly exactly if the
      value is not taken twice. */
  lemma TwoWords(f: Flag, value: Word)
    requires HasValue(f)
    ensures ParseFrom([FlagWord(f), value], 0, Defaults) == Plain([FlagWord(f), value], 0, Defaults) <==> !(value.FlagWord? && value.flag in Later(f))
  {
    LaterIsTaken(f, value);
    var words := [FlagWord(f), value];
    var options := WithFlag(Defaults, f, value);
    assert Plain(words, 2, options) == Parsed(options);
    if !TakenTwice(f, value) {
      assert PlainValues(words, 2);
      ParsedPlainly(words, 0, Defaults);
    } else {
      var j, k := Position(f), Position(value.flag);
      NoMatch(words, 0, 0, j, false, Defaults);
      NoMatch(words, 1, j + 1, k, true, options);
      if !HasValue(value.flag) {
        NoMatch(words, 1, k + 1, |Table|, true, WithFlag(options, value.flag, value));
        assert ParseFrom(words, 2, WithFlag(options, value.flag, value)) == Parsed(WithFlag(options, value.flag, value));
        UnsetFlag(f, value);
      }
    }
  }

  /** For instance -l -u 5 sets the lower bound to 0 and the upper bound to 5; read plainly it is
      not a command line at all. */
  lemma ValueTakenAsFlag()
    ensures
      var words := [FlagWord(Lower), FlagWord(Upper), Other(5, true)];
      && ParseFrom(words, 0, Defaults) == Parsed(Defaults.(lower := 0, upper := 5))
      && Plain(words, 0, Defaults) == Usage
  {
    var words := [FlagWord(Lower), FlagWord(Upper), Other(5, true)];
    var lowered := Defaults.(lower := 0);
    NoMatch(words, 0, 0, 1, false, Defaults);
    NoMatch(words, 2, 3, |Table|, true, lowered.(upper := 5));
    assert ScanTable(words, 1, 2, true, lowered) == ScanTable(words, 2, 3, true, lowered.(upper := 5));
    assert Plain(words, 2, lowered) == Usage;
  }

  // ----- What an accepted line sets -----

  /** The word at k is read as the value of the flag before it; at the end of the line it is missing. */
  predicate IsValue(words: seq<Word>, k: nat) {
    && 0 < k <= |words| && !IsValue(words, k - 1)
    && words[k - 1] in {FlagWord(Lower), FlagWord(Upper), FlagWord(CascadeBound), FlagWord(Encoding), FlagWord(Step)}
  }

  /** The word at k is this flag, and read as a flag. */
  predicate Given(words: seq<Word>, f: Flag, k: nat) {
    k < |words| && words[k] == FlagWord(f) && !IsValue(words, k)
  }

  predicate GivenBefore(words: seq<Word>, f: Flag, n: nat) {
    exists k | 0 <= k < n :: Given(words, f, k)
  }

  /** The flag's last place before n. */
  predicate LastGiven(words: seq<Word>, f: Flag, n: nat, k: nat) {
    k < n && Given(words, f, k) && forall j | k < j < n :: !Given(words, f, j)
  }

  function ValueAfter(words: seq<Word>, k: nat): int
    requires k + 1 < |words|
  {
    match words[k + 1]
    case Other(number, _) => number
    case FlagWord(_) => 0
  }

  /** In the first n words the flag last set the option to this value, or left it at its default. */
  predicate SetTo(words: seq<Word>, f: Flag, n: nat, default: int, value: int) {
    && (forall k | 0 <= k < n && LastGiven(words, f, n, k) :: k + 1 < |words| && value == ValueAfter(words, k))
    && (!GivenBefore(words, f, n) ==> value == default)
  }

  predicate BoundsGiven(words: seq<Word>, n: nat, options: Options) {
    SetTo(words, Lower, n, 1, options.lower) && SetTo(words, Upper, n, -1, options.upper)
  }

  predicate ChoicesGiven(words: seq<Word>, n: nat, options: Options) {
    SetTo(words, Step, n, 1, options.step) && SetTo(words, Encoding, n, 0, options.encoder)
  }

  ghost predicate CascadeGiven(words: seq<Word>, n: nat, options: Options) {
    exists c :: SetTo(words, CascadeBound, n, 2, c) && options.cascade == if c < 2 then 2 else c
  }

  predicate SwitchesGiven(words: seq<Word>, n: nat, options: Options) {
    && (options.solve <==> !GivenBefore(words, NoSolve, n))
    && (options.verbose <==> GivenBefore(words, Verbose, n))
    && (options.debug <==> GivenBefore(words, Debug, n))
  }

  /** The first n words set just these options. */
  ghost predicate AsGiven(words: seq<Word>, n: nat, options: Options) {
    && BoundsGiven(words, n, options) && ChoicesGiven(words, n, options)
    && CascadeGiven(words, n, options) && SwitchesGiven(words, n, options)
  }

  /** The word at k is a request for help, no flag where one is expected, or a missing value. */
  predicate Refuted(words: seq<Word>, k: nat) {
    k <= |words| &&
    if k == |words| then IsValue(words, k)
    else !IsValue(words, k) && (words[k].Other? || words[k] == FlagWord(Help))
  }

  /** The line is refused just if some word of it is, and otherwise sets each option by the last of
      its flags, whatever other flags there are. */
  ghost predicate ReadsAsGiven(words: seq<Word>, result: Parsed) {
    match result
    case Usage => exists k :: Refuted(words, k)
    case Parsed(options) => (forall k :: !Refuted(words, k)) && AsGiven(words, |words|, options)
  }

  /** The place after the flag at i and its value. */
  predicate FlagEnds(words: seq<Word>, g: Flag, i: nat, next: nat) {
    Given(words, g, i) && next == (if IsValue(words, i + 1) then i + 2 else i + 1) <= |words|
  }

  lemma OneMoreGiven(words: seq<Word>, g: Flag, i: nat, next: nat, f: Flag)
    requires FlagEnds(words, g, i, next)
    ensures GivenBefore(words, f, next) <==> f == g || GivenBefore(words, f, i)
  {
    assert !Given(words, f, i + 1) || next == i + 1;
    if f != g {
      assert !Given(words, f, i);
    }
  }

  lemma OneMoreSet(words: seq<Word>, g: Flag, i: nat, next: nat, f: Flag, default: int, value: int)
    requires FlagEnds(words, g, i, next) && SetTo(words, f, i, default, value) && (f == g ==> next == i + 2)
    ensures SetTo(words, f, next, default, if f == g then ValueAfter(words, i) else value)
  {
    OneMoreGiven(words, g, i, next, f);
    assert !Given(words, f, i + 1) || next == i + 1;
    if f != g {
      assert !Given(words, f, i);
      assert forall k :: LastGiven(words, f, next, k) ==> LastGiven(words, f, i, k);
    }
  }

  lemma OneMoreBound(words: seq<Word>, g: Flag, i: nat, next: nat, options: Options)
    requires FlagEnds(words, g, i, next) && BoundsGiven(words, i, options)
    ensures BoundsGiven(words, next, WithFlag(options, g, words[next - 1]))
  {
    OneMoreSet(words, g, i, next, Lower, 1, options.lower);
    OneMoreSet(words, g, i, next, Upper, -1, options.upper);
  }

  lemma OneMoreChoice(words: seq<Word>, g: Flag, i: nat, next: nat, options: Options)
    requires FlagEnds(words, g, i, next) && ChoicesGiven(words, i, options)
    ensures ChoicesGiven(words, next, WithFlag(options, g, words[next - 1]))
  {
    OneMoreSet(words, g, i, next, Step, 1, options.step);
    OneMoreSet(words, g, i, next, Encoding, 0, options.encoder);
  }

  lemma OneMoreCascade(words: seq<Word>, g: Flag, i: nat, next: nat, options: Options)
    requires FlagEnds(words, g, i, next) && CascadeGiven(words, i, options)
    ensures CascadeGiven(words, next, WithFlag(options, g, words[next - 1]))
  {
    var c :| SetTo(words, CascadeBound, i, 2, c) && options.cascade == if c < 2 then 2 else c;
    OneMoreSet(words, g, i, next, CascadeBound, 2, c);
  }

  lemma OneMoreSwitch(words: seq<Word>, g: Flag, i: nat, next: nat, options: Options)
    requires FlagEnds(words, g, i, next) && SwitchesGiven(words, i, options)
    ensures SwitchesGiven(words, next, WithFlag(options, g, words[next - 1]))
  {
    OneMoreGiven(words, g, i, next, NoSolve);
    OneMoreGiven(words, g, i, next, Verbose);
    OneMoreGiven(words, g, i, next, Debug);
  }

  /** A flag and its value set what the words up to there set. */
  lemma OneMoreFlag(words: seq<Word>, g: Flag, i: nat, next: nat, options: Options)
    requires FlagEnds(words, g, i, next) && AsGiven(words, i, options)
    ensures AsGiven(words, next, WithFlag(options, g, words[next - 1]))
  {
    OneMoreBound(words, g, i, next, options);
    OneMoreChoice(words, g, i, next, options);
    OneMoreCascade(words, g, i, next, options);
    OneMoreSwitch(words, g, i, next, options);
  }

  /** The plain reading from a place where a flag is expected. */
  lemma {:induction false} PlainSets(words: seq<Word>, i: nat, options: Options)
    requires i <= |words| && !IsValue(words, i) && AsGiven(words, i, options)
    requires forall k: nat :: k < i ==> !Refuted(words, k)
    ensures ReadsAsGiven(words, Plain(words, i, options))
    decreases |words| - i
  {
    if i < |words| {
      if words[i].Other? || words[i].flag == Help {
        assert Refuted(words, i);
      } else if HasValue(words[i].flag) && i + 1 == |words| {
        assert Refuted(words, i + 1);
      } else {
        var g := words[i].flag;
        var next := if HasValue(g) then i + 2 else i + 1;
        assert FlagEnds(words, g, i, next);
        OneMoreFlag(words, g, i, next, options);
        PlainSets(words, next, WithFlag(options, g, words[next - 1]));
      }
    }
  }

  lemma ParsedAsGiven(words: seq<Word>)
    requires PlainValues(words, 0)
    ensures ReadsAsGiven(words, ParseFrom(words, 0, Defaults))
  {
    ParsedPlainly(words, 0, Defaults);
    assert SetTo(words, CascadeBound, 0, 2, 2);
    PlainSets(words, 0, Defaults);
  }

  /** A line whose values are no flags has plain values. */
  lemma {:induction false} NumbersArePlain(words: seq<Word>, i: nat)
    requires !IsValue(words, i) && forall k | 0 <= k < |words| && IsValue(words, k) :: words[k].Other?
    ensures PlainValues(words, i)
    decreases |words| - i
  {
    if i < |words| && words[i].FlagWord? && words[i].flag != Help {
      if !HasValue(words[i].flag) {
        NumbersArePlain(words, i + 1);
      } else if i + 1 < |words| {
        assert IsValue(words, i + 1);
        NumbersArePlain(words, i + 2);
      }
    }
  }

  // ----- The parser -----

  /** The word at i against the table; i itself moves inside the loop. */
  method FindArgument(words: seq<Word>, i0: nat, options0: Options) returns (scan: Scan)
    requires i0 < |words|
    ensures scan == ScanTable(words, i0, 0, false, options0)
  {
    var i, options, argumentFound := i0, options0, false;
    for j := 0 to |Table|
      invariant i0 <= i < |words|
      invariant ScanTable(words, i, j, argumentFound, options) == ScanTable(words, i0, 0, false, options0)
    {
      if words[i] == FlagWord(Table[j]) {
        argumentFound := true;
        if HasValue(Table[j]) {
          if i + 1 == |words| {
            return Failed;
          }
          i := i + 1;
        }
        if Table[j] == Help {
          return Failed;
        }
        options := WithFlag(options, Table[j], words[i]);
      }
    }
    scan := Scan(i, argumentFound, options);
  }

  method ParseArguments(words: seq<Word>) returns (result: Parsed)
    ensures result == ParseFrom(words, 0, Defaults)
    ensures PlainValues(words, 0) ==> result == Plain(words, 0, Defaults)
    ensures PlainValues(words, 0) ==> ReadsAsGiven(words, result)
    ensures result.Parsed? ==> result.options.cascade >= 2
  {
    var options := Defaults;
    var i := 0;
    CascadeAtLeastTwo(words, 0, Defaults);
    if PlainValues(words, 0) {
      ParsedPlainly(words, 0, Defaults);
      ParsedAsGiven(words);
    }
    while i < |words|
      invariant i <= |words| && ParseFrom(words, i, options) == ParseFrom(words, 0, Defaults)
    {
      var scan := FindArgument(words, i, options);
      if scan.Failed? || !scan.found {
        return Usage;
      }
      i, options := scan.i + 1, scan.options;
    }
    result := Parsed(options);
  }
}
