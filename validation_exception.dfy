/** The custom `ProductManagementt.Exceptions.ValidationException`: built
    either from a list of validation failures (their messages, joined for
    `Message` and kept one by one in `Errors`) or from a plain message. */
module ValidationErrors {
  import opened Text
  import opened Wrappers

  /** The two members of FluentValidation's `ValidationFailure` read here. */
  datatype ValidationFailure = ValidationFailure(propertyName: string, errorMessage: string)

  /** The exception's observable state: `Message` and `Errors` (null when the
      string constructor was used). */
  datatype ValidationException = ValidationException(message: string, errors: Option<seq<string>>)

  /** `failures.Select(f => f.ErrorMessage)`. */
  function Messages(failures: seq<ValidationFailure>): (ms: seq<string>)
    ensures |ms| == |failures|
    ensures forall i :: 0 <= i < |failures| ==> ms[i] == failures[i].errorMessage
  {
    if failures == [] then []
    else Messages(failures[..|failures| - 1]) + [failures[|failures| - 1].errorMessage]
  }

  /** `new ValidationException(failures)`. */
  function FromFailures(failures: seq<ValidationFailure>): (e: ValidationException)
    ensures e.errors.Some?
    ensures |e.errors.value| == |failures|
    ensures forall i :: 0 <= i < |failures| ==> e.errors.value[i] == failures[i].errorMessage
    ensures e.message == Join("; ", e.errors.value)
    ensures failures == [] ==> e.message == "" && e.errors == Some([])
  {
    var ms := Messages(failures);
    ValidationException(Join("; ", ms), Some(ms))
  }

  /** `new ValidationException(message)`. */
  function FromMessage(message: string): (e: ValidationException)
    ensures e.message == message
    ensures e.errors.None?
  {
    ValidationException(message, None)
  }

  /** Every failure's message appears verbatim inside `Message`. */
  lemma EachMessageInMessage(failures: seq<ValidationFailure>, k: nat)
    requires k < |failures|
    ensures exists o: nat :: OccursAt(FromFailures(failures).message, failures[k].errorMessage, o)
  {
    var ms := Messages(failures);
    JoinContainsEach("; ", ms, k);
    var o: nat :| OccursAt(Join("; ", ms), ms[k], o);
    assert OccursAt(FromFailures(failures).message, failures[k].errorMessage, o);
  }

  /** With a single failure, `Message` is exactly its message. */
  lemma SingleFailureMessage(f: ValidationFailure)
    ensures FromFailures([f]).message == f.errorMessage
  {
  }

  /** `Message` is the messages laid end to end with one "; " between each
      neighbouring pair. */
  lemma MessageLength(failures: seq<ValidationFailure>)
    requires failures != []
    ensures |FromFailures(failures).message| == TotalLength(Messages(failures)) + 2 * (|failures| - 1)
  {
  }

  /** The property names of the failures play no part. */
  lemma PropertyNamesIgnored(failures: seq<ValidationFailure>, renamed: seq<ValidationFailure>)
    requires |renamed| == |failures|
    requires forall i :: 0 <= i < |failures| ==> renamed[i].errorMessage == failures[i].errorMessage
    ensures FromFailures(renamed) == FromFailures(failures)
  {
    assert Messages(renamed) == Messages(failures);
  }
}
