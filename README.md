# Optional command-line flags (package flagutil)

This project models the optional flag of package `flagutil` in Dafny. The flag
is `OptionalFlag[T]`. It holds a current value, an injected parser and a latch
that records whether the flag was set explicitly on the command line, as
distinct from still holding its default. The project also models `numError`,
which maps the syntax and range errors of numeric conversion onto the two fixed
errors `errParse` ("parse error") and `errRange` ("value out of range").

Everything is in `flagutil.dfy`, module `Flagutil`:

- `Error`, `NumErrKind`, `NumError`: the errors the package tells apart and
  their normalisation. `ErrParse` and `ErrRange` are the two fixed errors of
  the package. They are constructors without arguments, so they carry no
  context of the call. Go compares error values by identity; here that is
  equality of datatype values.
- `Float64Parser`, `StringParser`: the parsers of the two typed constructors.
  `strconv.ParseFloat(arg, 64)` is a parameter `parseFloat` of type
  `string -> Result<Float64>`. `Float64` is an uninterpreted 64-bit pattern.
- `FlagState`, `Step`, `Run`: the flag's two fields as a value. `Run` gives the
  state after a sequence of `Set` calls. The lemmas about `Run` state what any
  sequence of calls does.
- `OptionalFlag<T>`: a class with the fields `val` and `isSet` and the constant
  `parser`. It has two ghost fields: `initial`, the default, and `history`, the
  arguments of every `Set` call so far. `Valid()` says the fields equal
  `Run(parser, Fresh(initial), history)`. `Set` keeps that invariant. `Get` and
  `IsSet` are functions that only read `this`, so repeated reads with no `Set`
  in between return the same results.
- The `Run` lemmas start from any state. `RunAppend` splits a history into a
  prefix and the calls after it, and that carries them over to a live
  flag, whose state is `Run` over its whole history from `Fresh(initial)`.
  `HistoryLatchMonotone` is the latch property stated that way. At the level
  of one call, `Set` states the same thing: `old(isSet) ==> isSet`.

## Model

| member | source | states |
|---|---|---|
| `Flagutil.NumError` | go/flagutil/optional.go:122-136 | The result is never a raw syntax or range NumError. It is `errParse` exactly for a syntax NumError (or `errParse` itself), and `errRange` exactly for a range NumError (or `errRange` itself). Every other error comes back unchanged. |
| `Flagutil.NumErrorIdempotent` | go/flagutil/optional.go:122-136 | Normalising an already normalised error changes nothing. |
| `Flagutil.Float64Parser` | go/flagutil/optional.go:94-101 | Fails exactly when the conversion fails. On success it returns the converted value. On failure its error is `numError` of the conversion's error, so it is never a raw syntax or range NumError. |
| `Flagutil.StringParser` | go/flagutil/optional.go:108 | Never fails and returns the text unchanged. |
| `Flagutil.Step` | go/flagutil/optional.go:44-54 | One `Set` call on the flag's state. On success it stores the parsed value. On failure it returns the state unchanged. The latch is up afterwards iff it was up before or the parse succeeded. |
| `Flagutil.RunAppend` | go/flagutil/optional.go:44-54 | Running calls `a` and then calls `b` gives the same state as running `a + b`. |
| `Flagutil.HistoryLatchMonotone` | go/flagutil/optional.go:44-54 | Consider a flag built with default `d`. If the calls in `h` have set it, it is still set after `h` followed by any further calls. |
| `Flagutil.RunFailuresOnly` | go/flagutil/optional.go:44-48 | A sequence of `Set` calls that all fail leaves the value and the latch exactly as they were. |
| `Flagutil.RunLastSuccess` | go/flagutil/optional.go:44-54 | After a sequence of `Set` calls, the flag holds the value parsed by the last successful call and is set, from any starting state. |
| `Flagutil.RunLatchMonotone` | go/flagutil/optional.go:44-54 | A flag that is set stays set after any sequence of `Set` calls, successful or not. |
| `Flagutil.RunSetIff` | go/flagutil/optional.go:44-54 | After a sequence of `Set` calls the latch is up if and only if it was up before or some call succeeded. |
| `Flagutil.FreshRun` | go/flagutil/optional.go:35-54 | From construction with default `d`: the flag is unset iff no `Set` call succeeded. While unset it holds `d`. Once set it holds the value of the most recent successful call. |
| `Flagutil.StringRun` | go/flagutil/optional.go:105-111 | For a string flag, any non-empty sequence of `Set` calls leaves it set to the last argument verbatim, the empty text included. |
| `Flagutil.OptionalFlag.constructor` | go/flagutil/optional.go:35-41 | A new flag holds the given value, is not set, and uses the given parser. |
| `Flagutil.OptionalFlag.Set` | go/flagutil/optional.go:44-54 | If the parser accepts `arg`, returns nil, stores exactly the parsed value and raises the latch. If the parser rejects it, returns that same error and leaves value and latch unchanged. The latch never drops, and the invariant `Valid()` is kept. |
| `Flagutil.OptionalFlag.Get` | go/flagutil/optional.go:66-70 | Returns the default while no `Set` call has succeeded, otherwise the value of the most recent successful call. |
| `Flagutil.OptionalFlag.IsSet` | go/flagutil/optional.go:72-75 | True exactly when some `Set` call so far has succeeded. |
| `Flagutil.NewOptionalFloat64` | go/flagutil/optional.go:85-91 | A new float64 flag holds the given value and is not set. Its parser is `float64Parser`. |
| `Flagutil.NewOptionalString` | go/flagutil/optional.go:105-111 | A new string flag holds the given value and is not set. Its parser accepts every text unchanged. |

## Left out

- `strconv.ParseFloat` (go/flagutil/optional.go:95): floating-point conversion in a library outside this package. It is the parameter `parseFloat`, and the model does not say which texts parse or overflow.
- The parser is a total, deterministic Dafny function `string -> Result<T>`. Go's `NewOptionalFlag` (go/flagutil/optional.go:35) accepts any `func(string) (T, error)`. That includes a nil func, and the zero value `OptionalFlag[T]{}` also has a nil parser; in both cases `Set` panics at go/flagutil/optional.go:45. It also includes a closure that keeps state and can answer the same text differently on two calls. The panic path is not modelled. The ensures of `Get` and `IsSet` re-read the parser over the history, so they rely on this assumption.
- The value a parser returns next to a non-nil error (for `ParseFloat`, 0 or ±Inf): `Set` discards it, so a parser result is either a value or an error.
- `String()` and `Type()` (go/flagutil/optional.go:57-64): they format through `fmt.Sprintf` with `%v` and `%T`, which is reflection over arbitrary types.
- The `OptionalFloat64` struct (go/flagutil/optional.go:78-81): declared but used by no function.
- The `Error()` text of errors: `ErrParse` and `ErrRange` are told apart by identity, and their texts ("parse error", "value out of range") appear only in their doc comments. The text of a `*strconv.NumError` comes from package strconv and is not modelled.
- Registration with the pflag flag set, help text and the `pflag.Value` interface: those collaborators are not part of this model.
- Concurrency: the type has no synchronisation, and none is modelled.
