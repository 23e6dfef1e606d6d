/** The crate's own test cases, stated over the model. */
module Scenarios {
  import opened UnwrapTodo

  /** `None::<i32>.todo()` panics with the `None` diagnostic. */
  lemma OptionShouldPanic()
    ensures OptionTodo<int>(None) == Panic("None handling not yet implemented")
  {
  }

  /** `Err::<(), i32>(727).todo()` panics; with `727` rendered as the text
      "727", the diagnostic is the `Err` text followed by it. */
  lemma ResultShouldPanic(debug: int -> string)
    requires debug(727) == "727"
    ensures ResultTodo<(), int>(Err(727), debug)
         == Panic("Err handling not yet implemented: 727")
  {
  }

  /** `Ok("hey man").todo()` returns "hey man", whatever the error type's rendering. */
  lemma ShouldReturnOk(debug: int -> string)
    ensures ResultTodo<string, int>(Ok("hey man"), debug) == Value("hey man")
  {
  }

  /** `Some("hey man").todo()` returns "hey man". */
  lemma ShouldReturnSome()
    ensures OptionTodo(Some("hey man")) == Value("hey man")
  {
  }

  /** `Some(Some(Ok("hey man"))).todo().todo().todo()` returns "hey man",
      both written out call by call and as one `todo()` per layer. */
  lemma ShouldChain(debug: (()) -> string)
    ensures Then(Then(OptionTodo(Some(Some(Ok("hey man")))), OptionTodo),
                 (x: Result<string, ()>) => ResultTodo(x, debug))
         == Value("hey man")
    ensures TodoEachLayer<string, ()>(InOption(Some(InOption(Some(InResult(Ok(Bare("hey man"))))))), debug)
         == Value("hey man")
  {
  }
}
