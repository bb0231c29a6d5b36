/** Success-or-diagnostic results shared by the builder generator.
    Every stage of the macro returns one of these; a failure aborts the
    entry point and no partial output is produced. */
module Outcome {

  /** The diagnostics the modelled code can raise, one per `bail!` site
      (the exact wording is not modelled, only which branch fails). */
  datatype Error =
    /** `#[builder(into)]` / `#[builder(into = false)]` that matches the default
        rule; `qualifies` is what the default rule decided, `origin` names the
        field's origin for the message. */
    | RedundantInto(origin: string, qualifies: bool)
    /** `#[bon]` placed on `impl Trait for Type`. */
    | TraitImpl
    /** `#[bon]` on an impl block without any `#[builder]` fn. */
    | NoBuilderFns
    /** `default fn` inside the impl block. */
    | DefaultFn
    /** The `unreachable!()` panic reached when a normalized or original
        item at a builder position is not a fn. */
    | Unreachable
    /** A failure reported by a collaborator outside this model (attribute
        decoding, `adapted_func`, `into_builder_gen_ctx`, `output`). */
    | Collaborator(code: nat)

  datatype Result<+T> = Ok(value: T) | Err(error: Error) {
    predicate IsFailure() {
      Err?
    }

    function PropagateFailure<U>(): Result<U>
      requires Err?
    {
      Err(error)
    }

    function Extract(): T
      requires Ok?
    {
      value
    }
  }

  datatype Option<+T> = None | Some(value: T)
}
