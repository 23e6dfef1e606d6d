# unwrap_todo in Dafny

The `unwrap_todo` crate adds one method, `todo()`, to `Option<T>` and
`Result<T, E>` through the `UnwrapTodo` extension trait. It is meant for
prototype code: `todo()` acts like `unwrap()`, but when it finds nothing to
unwrap, its panic says that handling is not yet implemented.

- `Some(t).todo()` and `Ok(t).todo()` return `t`.
- `None.todo()` calls `unwrap_none`. That panics with
  `None handling not yet implemented`.
- `Err(e).todo()` calls `unwrap_err`. That panics with
  `Err handling not yet implemented: ` followed by the `Debug` rendering of `e`.

The model is in module `UnwrapTodo` (UnwrapTodo.dfy). It is pure, like the
source.

- A call's result is an `Outcome<T>`: either `Value(t)`, or `Panic(message)`,
  which carries the panic text.
- `OptionTodo` and `ResultTodo` are the two `todo` implementations.
- `UnwrapNone` and `UnwrapErr` are the two diverging helpers.
- The error type's `Debug` implementation is passed in as a function
  `debug: E -> string`.

The model also includes the reading side of the diagnostics. `Message`
gives the panic text for each unhandled case: `AbsentValue`, or
`FailureValue(text)`. `Diagnose` turns a panic text back into its case, as a
log scraper would. The lemmas prove two things about the texts. Every text
names exactly one case, and every `Err` text carries the debug text of its
error unchanged.

Chaining (`v.todo().todo()`) is modelled in two ways:

- `Then` evaluates calls in sequence. A panic stops evaluation.
- `TodoEachLayer` applies `todo()` once per layer to a value nested in any
  number of `Option` and `Result` layers (`Nested`).

Module `Scenarios` (Scenarios.dfy) restates the crate's tests.

## Model

| member | source | states |
|---|---|---|
| `UnwrapTodo.OptionTodo` | src/lib.rs:76-81 | The result is a value exactly when the input is `Some`. That value is the payload, with no default put in its place. Otherwise the call panics with the `None` diagnostic. |
| `UnwrapTodo.ResultTodo` | src/lib.rs:130-135 | The result is a value exactly when the input is `Ok`. That value is the payload. Otherwise the call panics with the `Err` diagnostic built from the debug text of that same error. |
| `UnwrapTodo.UnwrapNone` | src/lib.rs:87-89 | `unwrap_none` never yields a value: it always panics, with exactly `None handling not yet implemented`. |
| `UnwrapTodo.UnwrapErr` | src/lib.rs:141-143 | `unwrap_err` never yields a value: it always panics, with the `Err` diagnostic built from the debug text of the error it was given. |
| `UnwrapTodo.ErrMessage` | src/lib.rs:141-143 | The `Err` diagnostic starts with the fixed text `Err handling not yet implemented: `. The rest of it is exactly the error's debug text. |
| `UnwrapTodo.Diagnose` | src/lib.rs:87-143 | Whatever case it reads from a panic text, that case's diagnostic is that same text, so no text is misread. |
| `UnwrapTodo.MessagesDistinct` | src/lib.rs:87-143 | The `None` diagnostic differs from every `Err` diagnostic, whatever the debug text. |
| `UnwrapTodo.DiagnoseMessage` | src/lib.rs:87-143 | Reading back any diagnostic gives its case and, for an error, exactly its debug text. |
| `UnwrapTodo.MessageInjective` | src/lib.rs:87-143 | Two diagnostics are equal exactly when they report the same case with the same debug text. |
| `UnwrapTodo.Then` | tests/tests.rs:37 | In `x.todo().todo()`, a panic of the first call is what the whole expression does, and the second call never runs. If the first call yields a value, the second call runs on that value. |
| `UnwrapTodo.ChainThreeLayers` | tests/tests.rs:34-37 | `v.todo().todo().todo()` on `Option<Option<Result<T, E>>>` yields a value exactly when `v` is `Some(Some(Ok(t)))`, and then the value is `t`. Otherwise it panics with the diagnostic of the outermost layer that holds no payload. |
| `UnwrapTodo.TodoEachLayer` | tests/tests.rs:34-37 | With one `todo()` per layer, at any depth, the result is a value exactly when every layer holds a payload, and then it is the innermost payload. Otherwise it panics with the diagnostic of the first failing layer, counted from the outside. |
| `UnwrapTodo.TodoEachLayerWrap` | tests/tests.rs:34-37 | Unwrapping layer by layer undoes wrapping in `Some`/`Ok` layers, at any depth. |
| `Scenarios.OptionShouldPanic` | tests/tests.rs:3-9 | `None::<i32>.todo()` panics with exactly `None handling not yet implemented`. |
| `Scenarios.ResultShouldPanic` | tests/tests.rs:11-17 | `Err::<(), i32>(727).todo()` panics with exactly `Err handling not yet implemented: 727`, assuming `727` renders as `727`. |
| `Scenarios.ShouldReturnOk` | tests/tests.rs:19-24 | `Ok("hey man").todo()` returns `"hey man"`. |
| `Scenarios.ShouldReturnSome` | tests/tests.rs:26-31 | `Some("hey man").todo()` returns `"hey man"`. |
| `Scenarios.ShouldChain` | tests/tests.rs:33-37 | `Some(Some(Ok("hey man")))` unwrapped three times gives `"hey man"`, both call by call and as one `todo()` per layer. |

## Left out

- Panicking and unwinding are not modelled as real termination. A panic is a `Panic(message)` outcome, and `Then` stops at it.
- `#[track_caller]` (caller-location capture) is left out. So are `#[cold]`, `#[inline]` and `#[inline(never)]`. They change diagnostics and code generation, not results.
- The `Debug` formatting of error values is not modelled. It lives in `core::fmt`, which is not part of this model. The caller supplies it as `debug: E -> string`. So `ResultShouldPanic` takes as a hypothesis that `727` renders as `727`.
- `ResultTodo` assumes that `Debug` formatting succeeds. A Rust `Debug` impl can return `fmt::Error` or panic while the panic message is being built, and then the printed text is not the `Err` diagnostic. A total function `debug` cannot express either case.
- `TodoEachLayer` gives every `Result` layer of a `Nested` value the same error type and the same `debug`. In Rust, each `Result` layer of a type such as `Result<Option<Result<T, E1>>, E2>` has its own error type and its own `Debug`. So its "any depth" claim covers only nestings whose `Result` layers share one error type. The crate's test has a single `Result` layer.
- The trait and its associated type `Target` are not modelled. `OptionTodo` and `ResultTodo` are two separately named functions.
- The crate attributes (`no_std`, `forbid(unsafe_code)`, `deny(missing_docs)`) are left out. So are the doc examples that read files and paths, because they only do I/O.
- `Failure`, `Message`, `Diagnose`, `Then`, `Nested`, `Complete`, `Innermost`, `OutermostFailure`, `TodoEachLayer` and `Wrap` do not exist in the crate. They state what its messages and its chaining promise to a caller.
