/** The `UnwrapTodo` extension: `todo()` on `Option<T>` and `Result<T, E>`.
    Each call either hands back the payload or panics with a fixed
    "not yet implemented" diagnostic. A panic is modelled as the `Panic`
    outcome carrying its message, so that the message is observable. */
module UnwrapTodo {

  /** Rust's `Option<T>`. */
  datatype Option<T> = Some(value: T) | None

  /** Rust's `Result<T, E>`. */
  datatype Result<T, E> = Ok(value: T) | Err(error: E)

  /** What a call to `todo()` does: return a value, or panic with a message. */
  datatype Outcome<T> = Value(value: T) | Panic(message: string)

  /** The two kinds of unhandled case a `todo()` panic reports: a missing
      value, or an error value together with its debug text. */
  datatype Failure = AbsentValue | FailureValue(text: string)

  /** Panic text of `unwrap_none`. */
  const NoneMessage: string := "None handling not yet implemented"

  /** Fixed head of the panic text of `unwrap_err`; the error's debug
      rendering follows it. */
  const ErrPrefix: string := "Err handling not yet implemented: "

  /** The full `unwrap_err` panic text for an error whose debug rendering is `text`. */
  function ErrMessage(text: string): (m: string)
    ensures ErrPrefix <= m && m[|ErrPrefix|..] == text
  {
    ErrPrefix + text
  }

  /** `unwrap_none`: diverges with the fixed message; like Rust's `!`
      return type, it never yields a value. */
  function UnwrapNone<T>(): (r: Outcome<T>)
    ensures !r.Value?
    ensures r.Panic? && r.message == NoneMessage
  {
    Panic(NoneMessage)
  }

  /** `unwrap_err`: diverges with the message that embeds the error's debug
      rendering; `debug` stands for the error type's `Debug` implementation. */
  function UnwrapErr<T, E>(e: E, debug: E -> string): (r: Outcome<T>)
    ensures !r.Value?
    ensures r.Panic? && r.message == ErrMessage(debug(e))
  {
    Panic(ErrMessage(debug(e)))
  }

  /** `Option::todo`: the payload of `Some`, a panic on `None`. */
  function OptionTodo<T>(o: Option<T>): (r: Outcome<T>)
    ensures r.Value? <==> o.Some?
    ensures r.Value? ==> o == Some(r.value)
    ensures r.Panic? ==> r.message == NoneMessage
  {
    match o
    case Some(t) => Value(t)
    case None => UnwrapNone()
  }

  /** `Result::todo`: the payload of `Ok`, a panic on `Err` whose message
      embeds the debug text of that very error. */
  function ResultTodo<T, E>(res: Result<T, E>, debug: E -> string): (r: Outcome<T>)
    ensures r.Value? <==> res.Ok?
    ensures r.Value? ==> res == Ok(r.value)
    ensures r.Panic? ==> r.message == ErrMessage(debug(res.error))
  {
    match res
    case Ok(t) => Value(t)
    case Err(e) => UnwrapErr(e, debug)
  }

  /** The diagnostic a `todo()` panic prints for each kind of unhandled case. */
  function Message(f: Failure): string
  {
    match f
    case AbsentValue => NoneMessage
    case FailureValue(text) => ErrMessage(text)
  }

  /** Reads a panic message the way a log scraper would: which unhandled
      case it reports, or `None` for text no `todo()` call produces. */
  function Diagnose(message: string): (r: Option<Failure>)
    ensures r.Some? ==> Message(r.value) == message
  {
    if message == NoneMessage then Some(AbsentValue)
    else if ErrPrefix <= message then Some(FailureValue(message[|ErrPrefix|..]))
    else None
  }

  /** The `None` diagnostic differs from every `Err` diagnostic, whatever the
      error's debug text. */
  lemma MessagesDistinct(text: string)
    ensures NoneMessage != ErrMessage(text)
  {
  }

  /** Every diagnostic names its case unambiguously: reading it back gives
      the case and, for an error, exactly its debug text. */
  lemma DiagnoseMessage(f: Failure)
    ensures Diagnose(Message(f)) == Some(f)
  {
  }

  /** Different unhandled cases never print the same diagnostic. */
  lemma MessageInjective(f1: Failure, f2: Failure)
    ensures Message(f1) == Message(f2) <==> f1 == f2
  {
    DiagnoseMessage(f1);
    DiagnoseMessage(f2);
  }

  /** Runs `f` on the value of `o`; a panic in `o` stops evaluation and is
      what the whole expression does. This is how `x.todo().todo()`
      evaluates in Rust. */
  function Then<A, B>(o: Outcome<A>, f: A -> Outcome<B>): (r: Outcome<B>)
    ensures o.Panic? ==> r == Panic(o.message)
    ensures o.Value? ==> r == f(o.value)
  {
    match o
    case Value(a) => f(a)
    case Panic(m) => Panic(m)
  }

  /** `v.todo().todo().todo()` on an `Option<Option<Result<T, E>>>`: it yields
      the innermost payload exactly when every layer holds one, and otherwise
      panics with the diagnostic of the outermost layer that does not. */
  lemma ChainThreeLayers<T, E>(v: Option<Option<Result<T, E>>>, debug: E -> string)
    ensures var r := Then(Then(OptionTodo(v), OptionTodo), (x: Result<T, E>) => ResultTodo(x, debug));
      && (r.Value? <==> v.Some? && v.value.Some? && v.value.value.Ok?)
      && (r.Value? ==> v == Some(Some(Ok(r.value))))
      && (v.None? || v.value.None? ==> r == Panic(NoneMessage))
      && (v.Some? && v.value.Some? && v.value.value.Err? ==>
            r == Panic(ErrMessage(debug(v.value.value.error))))
  {
  }

  /** A payload under any number of `Option` and `Result` layers, outermost
      layer first, such as `Option<Option<Result<String, ()>>>`. */
  datatype Nested<T, E> =
    | Bare(payload: T)
    | InOption(opt: Option<Nested<T, E>>)
    | InResult(res: Result<Nested<T, E>, E>)

  /** Every layer holds its payload: each is a `Some` or an `Ok`. */
  predicate Complete<T, E>(x: Nested<T, E>)
  {
    match x
    case Bare(_) => true
    case InOption(o) => o.Some? && Complete(o.value)
    case InResult(r) => r.Ok? && Complete(r.value)
  }

  /** The payload under all the layers of a complete nesting. */
  function Innermost<T, E>(x: Nested<T, E>): T
    requires Complete(x)
  {
    match x
    case Bare(t) => t
    case InOption(o) => Innermost(o.value)
    case InResult(r) => Innermost(r.value)
  }

  /** The first layer, from the outside, that holds no payload, and what it
      holds instead; `debug` renders error values. */
  function OutermostFailure<T, E>(x: Nested<T, E>, debug: E -> string): Failure
    requires !Complete(x)
  {
    match x
    case InOption(o) =>
      if o.None? then AbsentValue else OutermostFailure(o.value, debug)
    case InResult(r) =>
      if r.Err? then FailureValue(debug(r.error)) else OutermostFailure(r.value, debug)
  }

  /** Calls `todo()` once per layer, each call on what the previous one
      returned, as in `v.todo().todo().todo()`. The payload comes out exactly
      when every layer holds one; otherwise the first failing layer, counted
      from the outside, panics with its own diagnostic. */
  function TodoEachLayer<T, E>(x: Nested<T, E>, debug: E -> string): (r: Outcome<T>)
    ensures r.Value? <==> Complete(x)
    ensures r.Value? ==> r.value == Innermost(x)
    ensures r.Panic? ==> r.message == Message(OutermostFailure(x, debug))
  {
    match x
    case Bare(t) => Value(t)
    case InOption(o) =>
      var step := OptionTodo(o);
      if step.Panic? then Panic(step.message) else TodoEachLayer(step.value, debug)
    case InResult(res) =>
      var step := ResultTodo(res, debug);
      if step.Panic? then Panic(step.message) else TodoEachLayer(step.value, debug)
  }

  /** Wraps a payload in `Some`/`Ok` layers, one per entry of `layers`
      (`true` for an `Option` layer, `false` for a `Result` layer), outermost
      first. */
  function Wrap<T, E>(layers: seq<bool>, t: T): Nested<T, E>
  {
    if layers == [] then Bare(t)
    else if layers[0] then InOption(Some(Wrap(layers[1..], t)))
    else InResult(Ok(Wrap(layers[1..], t)))
  }

  /** Unwrapping layer by layer undoes wrapping, whatever the depth. */
  lemma {:induction false} TodoEachLayerWrap<T, E>(layers: seq<bool>, t: T, debug: E -> string)
    ensures TodoEachLayer(Wrap(layers, t), debug) == Value(t)
  {
    if layers != [] {
      TodoEachLayerWrap(layers[1..], t, debug);
    }
  }
}
