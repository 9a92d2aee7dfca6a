/**
 * The diagnostics queue (ErrorHandler.cs): errors are appended in the order
 * the phases report them and handed back in that order.
 */
module ErrorHandling {
  datatype ErrorType = LexicalError | SyntaxError | SemanticError

  datatype Error = Error(errorMessage: string, errorType: ErrorType)

  function ErrorTypeName(t: ErrorType): string
  {
    match t
    case LexicalError => "LexicalError"
    case SyntaxError => "SyntaxError"
    case SemanticError => "SemanticError"
  }

  /** `Error.ToString`: the error type's name, a colon and a space, then the message. */
  function ErrorToString(e: Error): (s: string)
    ensures |s| == |ErrorTypeName(e.errorType)| + 2 + |e.errorMessage|
    ensures s[..|ErrorTypeName(e.errorType)|] == ErrorTypeName(e.errorType)
    ensures s[|ErrorTypeName(e.errorType)|..] == ": " + e.errorMessage
  {
    ErrorTypeName(e.errorType) + ": " + e.errorMessage
  }

  /** The printed form of an error determines it completely. */
  lemma ErrorToStringInjective(a: Error, b: Error)
    requires ErrorToString(a) == ErrorToString(b)
    ensures a == b
  {
    var sa, sb := ErrorToString(a), ErrorToString(b);
    assert sa[1] == sb[1] && sa[2] == sb[2];
    assert a.errorType == b.errorType;
    var n := |ErrorTypeName(a.errorType)| + 2;
    assert a.errorMessage == sa[n..] == sb[n..] == b.errorMessage;
  }

  class ErrorHandler {
    var errors: seq<Error>

    constructor ()
      ensures errors == [] && !HasErrors()
    {
      errors := [];
    }

    predicate HasErrors()
      reads this
    {
      |errors| > 0
    }

    method AddError(errorMessage: string, errorType: ErrorType)
      modifies this
      ensures errors == old(errors) + [Error(errorMessage, errorType)]
      ensures HasErrors()
    {
      errors := errors + [Error(errorMessage, errorType)];
    }

    /** A copy of the queue, oldest error first; the queue itself is kept. */
    method GetErrors() returns (r: seq<Error>)
      ensures r == errors
    {
      r := errors;
    }
  }
}
