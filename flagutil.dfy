/**
 A model of the optional command-line flag of package flagutil: a typed flag
 value that remembers whether it was explicitly set, as distinct from still
 holding its default, together with the normalisation of numeric-conversion
 errors used by its float64 instance.
 */
module Flagutil {

  // ---------------------------------------------------------------------------
  // Errors
  // ---------------------------------------------------------------------------

  /** The inner error of a `*strconv.NumError`: the two sentinels of package
      strconv (`strconv.ErrSyntax`, `strconv.ErrRange`) or any other error. */
  datatype NumErrKind = Syntax | Range | Unclassified(msg: string)

  /** A Go `error` value as far as this package can tell errors apart.
      - `ErrParse`: the package's fixed error `errParse`, text "parse error",
        for text that is not a number;
      - `ErrRange`: the package's fixed error `errRange`, text "value out of
        range", for a number outside the representable range;
      - `StrconvNumError(...)`: a `*strconv.NumError` with its fields Func, Num, Err;
      - `Other(msg)`: any other error, seen only through its message.
      Equality of values stands for Go's comparison of error identities; the
      two fixed errors carry no context of the call that produced them. */
  datatype Error =
    | ErrParse
    | ErrRange
    | StrconvNumError(funcName: string, num: string, err: NumErrKind)
    | Other(msg: string)

  /** Value-or-error, standing for Go's `(T, error)` result pair. */
  datatype Result<T> = Ok(value: T) | Err(error: Error)

  /** A Go `error` return: `None` is nil. */
  datatype Option<T> = None | Some(value: T)

  /** A syntax or range `*strconv.NumError`: exactly the errors `NumError` replaces. */
  predicate IsRawNumError(e: Error) {
    e.StrconvNumError? && (e.err == Syntax || e.err == Range)
  }

  /** `numError`: a syntax NumError becomes `errParse`, a range NumError becomes
      `errRange`, and every other error is returned unchanged. */
  function NumError(e: Error): (r: Error)
    ensures !IsRawNumError(r)
    ensures r == ErrParse <==> e == ErrParse || (e.StrconvNumError? && e.err == Syntax)
    ensures r == ErrRange <==> e == ErrRange || (e.StrconvNumError? && e.err == Range)
    ensures !IsRawNumError(e) ==> r == e
  {
    match e
    case StrconvNumError(_, _, Syntax) => ErrParse
    case StrconvNumError(_, _, Range) => ErrRange
    case _ => e
  }

  /** Normalising twice is normalising once. */
  lemma NumErrorIdempotent(e: Error)
    ensures NumError(NumError(e)) == NumError(e)
  {
  }

  // ---------------------------------------------------------------------------
  // Parsers
  // ---------------------------------------------------------------------------

  /** A float64 as its IEEE 754 binary64 bit pattern; no floating-point
      arithmetic or conversion is modelled. */
  datatype Float64 = Float64(bits: bv64)

  /** `float64Parser`, given `parseFloat`, which stands for
      `strconv.ParseFloat(arg, 64)`: it fails exactly when the conversion fails,
      keeps the converted value, and passes the conversion's error through
      `NumError`, so it never reports a raw syntax or range NumError. */
  function Float64Parser(parseFloat: string -> Result<Float64>, arg: string): (r: Result<Float64>)
    ensures r.Ok? <==> parseFloat(arg).Ok?
    ensures r.Ok? ==> r.value == parseFloat(arg).value
    ensures r.Err? ==> r.error == NumError(parseFloat(arg).error) && !IsRawNumError(r.error)
  {
    match parseFloat(arg)
    case Err(e) => Err(NumError(e))
    case Ok(v) => Ok(v)
  }

  /** The parser of `NewOptionalString`: every text is accepted as it is. */
  function StringParser(s: string): (r: Result<string>)
    ensures r.Ok? && r.value == s
  {
    Ok(s)
  }

  // ---------------------------------------------------------------------------
  // The flag's state as a value, and what a sequence of Set calls does to it
  // ---------------------------------------------------------------------------

  /** The two mutable fields of an `OptionalFlag`. */
  datatype FlagState<T> = FlagState(val: T, isSet: bool)

  /** The state of a freshly constructed flag with default `d`. */
  function Fresh<T>(d: T): FlagState<T> {
    FlagState(d, false)
  }

  /** One `Set(arg)`: on success the parsed value is stored and the latch raised;
      on failure nothing changes. */
  function Step<T>(parser: string -> Result<T>, s: FlagState<T>, arg: string): (r: FlagState<T>)
    ensures parser(arg).Ok? ==> r.val == parser(arg).value
    ensures parser(arg).Err? ==> r == s
    ensures r.isSet <==> s.isSet || parser(arg).Ok?
  {
    match parser(arg)
    case Ok(v) => FlagState(v, true)
    case Err(_) => s
  }

  /** The state after calling `Set` on each of `args` in turn, starting from `s`. */
  function Run<T>(parser: string -> Result<T>, s: FlagState<T>, args: seq<string>): FlagState<T>
    decreases |args|
  {
    if |args| == 0 then s
    else Step(parser, Run(parser, s, args[..|args| - 1]), args[|args| - 1])
  }

  /** Set calls compose: running `a` and then `b` is running `a + b`. This is
      what carries the lemmas below, stated from any state `s`, over to a live
      flag whose state is `Run(parser, Fresh(initial), history)`. */
  lemma {:induction false} RunAppend<T>(parser: string -> Result<T>, s: FlagState<T>, a: seq<string>, b: seq<string>)
    ensures Run(parser, s, a + b) == Run(parser, Run(parser, s, a), b)
    decreases |b|
  {
    if |b| == 0 {
      assert a + b == a;
    } else {
      var ab := a + b;
      assert ab[..|ab| - 1] == a + b[..|b| - 1];
      assert ab[|ab| - 1] == b[|b| - 1];
      RunAppend(parser, s, a, b[..|b| - 1]);
    }
  }

  /** Every argument in `args` is rejected by `parser`. */
  ghost predicate NoSuccess<T>(parser: string -> Result<T>, args: seq<string>) {
    forall j :: 0 <= j < |args| ==> parser(args[j]).Err?
  }

  /** `args[i]` is accepted by `parser` and every later argument is rejected. */
  ghost predicate IsLastSuccess<T>(parser: string -> Result<T>, args: seq<string>, i: int) {
    0 <= i < |args| && parser(args[i]).Ok? &&
    forall j :: i < j < |args| ==> parser(args[j]).Err?
  }

  /** Set calls that all fail leave the flag exactly as it was. */
  lemma {:induction false} RunFailuresOnly<T>(parser: string -> Result<T>, s: FlagState<T>, args: seq<string>)
    requires NoSuccess(parser, args)
    ensures Run(parser, s, args) == s
    decreases |args|
  {
    if |args| > 0 {
      var init := args[..|args| - 1];
      assert forall j :: 0 <= j < |init| ==> init[j] == args[j];
      RunFailuresOnly(parser, s, init);
    }
  }

  /** After a sequence of Set calls, the flag holds the value parsed by the last
      successful call and is set, whatever state it started in. */
  lemma {:induction false} RunLastSuccess<T>(parser: string -> Result<T>, s: FlagState<T>, args: seq<string>, i: int)
    requires IsLastSuccess(parser, args, i)
    ensures Run(parser, s, args) == FlagState(parser(args[i]).value, true)
    decreases |args|
  {
    var init := args[..|args| - 1];
    if i < |args| - 1 {
      assert forall j :: 0 <= j < |init| ==> init[j] == args[j];
      RunLastSuccess(parser, s, init, i);
    }
  }

  /** The latch is monotone: no sequence of Set calls lowers it. */
  lemma {:induction false} RunLatchMonotone<T>(parser: string -> Result<T>, s: FlagState<T>, args: seq<string>)
    requires s.isSet
    ensures Run(parser, s, args).isSet
    decreases |args|
  {
    if |args| > 0 {
      RunLatchMonotone(parser, s, args[..|args| - 1]);
    }
  }

  /** For a flag built with default `d`: once the calls in `h` have set it,
      any further calls `more` leave it set. */
  lemma HistoryLatchMonotone<T>(parser: string -> Result<T>, d: T, h: seq<string>, more: seq<string>)
    requires Run(parser, Fresh(d), h).isSet
    ensures Run(parser, Fresh(d), h + more).isSet
  {
    RunAppend(parser, Fresh(d), h, more);
    RunLatchMonotone(parser, Run(parser, Fresh(d), h), more);
  }

  /** After a sequence of Set calls the latch is up exactly when it was up
      before or some call succeeded. */
  lemma {:induction false} RunSetIff<T>(parser: string -> Result<T>, s: FlagState<T>, args: seq<string>)
    ensures Run(parser, s, args).isSet <==> s.isSet || exists j :: 0 <= j < |args| && parser(args[j]).Ok?
    decreases |args|
  {
    if |args| > 0 {
      var init := args[..|args| - 1];
      RunSetIff(parser, s, init);
      if parser(args[|args| - 1]).Err? {
        assert (exists j :: 0 <= j < |args| && parser(args[j]).Ok?) ==>
               (exists j :: 0 <= j < |init| && parser(init[j]).Ok?) by {
          if j :| 0 <= j < |args| && parser(args[j]).Ok? {
            assert init[j] == args[j];
          }
        }
        assert forall j :: 0 <= j < |init| ==> init[j] == args[j];
      }
    }
  }

  /** The invariant of a flag: while it is not set it holds its default and no
      Set call has succeeded; once set it holds the value of the most recent
      successful Set call. */
  lemma {:induction false} FreshRun<T>(parser: string -> Result<T>, d: T, args: seq<string>)
    ensures var r := Run(parser, Fresh(d), args);
      (!r.isSet <==> NoSuccess(parser, args)) &&
      (!r.isSet ==> r.val == d) &&
      (r.isSet ==> exists i :: IsLastSuccess(parser, args, i) && r.val == parser(args[i]).value)
    decreases |args|
  {
    if |args| > 0 {
      var init := args[..|args| - 1];
      var a := args[|args| - 1];
      assert forall j :: 0 <= j < |init| ==> init[j] == args[j];
      FreshRun(parser, d, init);
      if parser(a).Ok? {
        assert IsLastSuccess(parser, args, |args| - 1);
      } else {
        var r := Run(parser, Fresh(d), init);
        if r.isSet {
          var i :| IsLastSuccess(parser, init, i) && r.val == parser(init[i]).value;
          assert IsLastSuccess(parser, args, i);
        }
      }
    }
  }

  /** A string flag: any non-empty sequence of Set calls leaves it set to the
      last argument (the empty text included). */
  lemma StringRun(s: FlagState<string>, args: seq<string>)
    requires |args| > 0
    ensures Run(StringParser, s, args) == FlagState(args[|args| - 1], true)
  {
  }

  // ---------------------------------------------------------------------------
  // The flag object
  // ---------------------------------------------------------------------------

  /** `OptionalFlag[T]`: the current value, the injected parser and the latch.
      The ghost fields record the default and every argument passed to `Set`,
      so that `Valid()` can tie the fields to the trace model `Run`. */
  class OptionalFlag<T> {
    var val: T
    const parser: string -> Result<T>
    var isSet: bool

    ghost const initial: T
    ghost var history: seq<string>

    function State(): FlagState<T>
      reads this
    {
      FlagState(val, isSet)
    }

    ghost predicate Valid()
      reads this
    {
      State() == Run(parser, Fresh(initial), history)
    }

    /** `NewOptionalFlag`: starts at `val`, not set. */
    constructor (val: T, parser: string -> Result<T>)
      ensures Valid()
      ensures this.val == val && !isSet
      ensures forall s :: this.parser(s) == parser(s)
      ensures initial == val && history == []
    {
      this.val := val;
      this.parser := parser;
      this.isSet := false;
      initial := val;
      history := [];
    }

    /** `Set`: on success stores the parsed value, raises the latch and returns
        nil; on failure returns the parser's error unchanged and changes nothing. */
    method Set(arg: string) returns (err: Option<Error>)
      requires Valid()
      modifies this
      ensures Valid()
      ensures history == old(history) + [arg]
      ensures parser(arg).Ok? ==> err == None && val == parser(arg).value && isSet
      ensures parser(arg).Err? ==> err == Some(parser(arg).error) && val == old(val) && isSet == old(isSet)
      ensures old(isSet) ==> isSet
    {
      ghost var h := history + [arg];
      assert h[..|h| - 1] == history;
      match parser(arg)
      case Err(e) =>
        err := Some(e);
        history := h;
      case Ok(v) =>
        val := v;
        isSet := true;
        err := None;
        history := h;
    }

    /** `Get`: the default while no Set call has succeeded, otherwise the value
        of the most recent successful one. */
    function Get(): (v: T)
      reads this
      requires Valid()
      ensures NoSuccess(parser, history) ==> v == initial
      ensures forall i :: IsLastSuccess(parser, history, i) ==> v == parser(history[i]).value
    {
      FreshRun(parser, initial, history);
      forall i | IsLastSuccess(parser, history, i)
        ensures val == parser(history[i]).value
      {
        RunLastSuccess(parser, Fresh(initial), history, i);
      }
      val
    }

    /** `IsSet`: true exactly when some Set call has succeeded. */
    function IsSet(): (b: bool)
      reads this
      requires Valid()
      ensures b <==> exists i :: 0 <= i < |history| && parser(history[i]).Ok?
    {
      RunSetIff(parser, Fresh(initial), history);
      isSet
    }
  }

  /** `NewOptionalFloat64`: a float64 flag whose parser is `float64Parser` over
      `parseFloat`, the stand-in for `strconv.ParseFloat(arg, 64)`. */
  method NewOptionalFloat64(val: Float64, parseFloat: string -> Result<Float64>) returns (f: OptionalFlag<Float64>)
    ensures fresh(f) && f.Valid()
    ensures f.Get() == val && !f.IsSet() && f.history == []
    ensures forall s :: f.parser(s) == Float64Parser(parseFloat, s)
  {
    f := new OptionalFlag(val, s => Float64Parser(parseFloat, s));
  }

  /** `NewOptionalString`: a string flag whose parser accepts every text. */
  method NewOptionalString(val: string) returns (f: OptionalFlag<string>)
    ensures fresh(f) && f.Valid()
    ensures f.Get() == val && !f.IsSet() && f.history == []
    ensures forall s :: f.parser(s) == Ok(s)
  {
    f := new OptionalFlag(val, StringParser);
  }
}
