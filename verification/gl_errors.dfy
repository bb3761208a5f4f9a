/** The OpenGL error decoder of the plugin (`gl_error_handler`): the code
    returned by `glGetError` is classified into one of the eight named
    OpenGL errors, "no error", or an unknown code. Every code except
    `GL_NO_ERROR` ends in `g_error`, which logs the message and aborts the
    process; the model returns that outcome as a value. */
module GlErrors {
  import opened Wrappers
  import opened CStrings

  const GL_NO_ERROR: uint32 := 0
  const GL_INVALID_ENUM: uint32 := 0x0500
  const GL_INVALID_VALUE: uint32 := 0x0501
  const GL_INVALID_OPERATION: uint32 := 0x0502
  const GL_STACK_OVERFLOW: uint32 := 0x0503
  const GL_STACK_UNDERFLOW: uint32 := 0x0504
  const GL_OUT_OF_MEMORY: uint32 := 0x0505
  const GL_INVALID_FRAMEBUFFER_OPERATION: uint32 := 0x0506
  const GL_CONTEXT_LOST: uint32 := 0x0507

  /** One branch of the decoder's `switch`. */
  datatype GlError =
    | NoError
    | InvalidEnum
    | InvalidValue
    | InvalidOperation
    | StackOverflow
    | StackUnderflow
    | OutOfMemory
    | InvalidFramebufferOperation
    | ContextLost
    | Unknown(code: uint32)

  /** The codes that have a `case` label of their own. */
  predicate IsNamedCode(code: uint32) {
    code == GL_NO_ERROR || GL_INVALID_ENUM <= code <= GL_CONTEXT_LOST
  }

  /** An `Unknown` never carries a code that has its own label. */
  predicate WellFormed(e: GlError) {
    e.Unknown? ==> !IsNamedCode(e.code)
  }

  /** The code each branch stands for. */
  function CodeOf(e: GlError): uint32 {
    match e
    case NoError => GL_NO_ERROR
    case InvalidEnum => GL_INVALID_ENUM
    case InvalidValue => GL_INVALID_VALUE
    case InvalidOperation => GL_INVALID_OPERATION
    case StackOverflow => GL_STACK_OVERFLOW
    case StackUnderflow => GL_STACK_UNDERFLOW
    case OutOfMemory => GL_OUT_OF_MEMORY
    case InvalidFramebufferOperation => GL_INVALID_FRAMEBUFFER_OPERATION
    case ContextLost => GL_CONTEXT_LOST
    case Unknown(c) => c
  }

  /** The branch of the `switch` a code selects. The classification loses
      nothing: the branch names the code it was selected by. */
  function Classify(code: uint32): (e: GlError)
    ensures WellFormed(e)
    ensures CodeOf(e) == code
    ensures e.NoError? <==> code == GL_NO_ERROR
    ensures e.Unknown? <==> !IsNamedCode(code)
  {
    if code == GL_NO_ERROR then NoError
    else if code == GL_INVALID_ENUM then InvalidEnum
    else if code == GL_INVALID_VALUE then InvalidValue
    else if code == GL_INVALID_OPERATION then InvalidOperation
    else if code == GL_STACK_OVERFLOW then StackOverflow
    else if code == GL_STACK_UNDERFLOW then StackUnderflow
    else if code == GL_OUT_OF_MEMORY then OutOfMemory
    else if code == GL_INVALID_FRAMEBUFFER_OPERATION then InvalidFramebufferOperation
    else if code == GL_CONTEXT_LOST then ContextLost
    else Unknown(code)
  }

  /** Every well-formed branch is selected by exactly the code it names. */
  lemma ClassifyCodeOf(e: GlError)
    requires WellFormed(e)
    ensures Classify(CodeOf(e)) == e
  {
  }

  const NAMED_PREFIX: string := "OpenGL Error: GL_"
  const UNKNOWN_PREFIX: string := "OpenGL Error: Unknown error code - 0x"

  /** The part of a named message after "OpenGL Error: GL_". */
  function NamedText(e: GlError): string
    requires !e.NoError? && !e.Unknown?
  {
    match e
    case InvalidEnum => "INVALID_ENUM - Enumeration parameter is not legal\n"
    case InvalidValue => "INVALID_VALUE - Value parameter is not legal\n"
    case InvalidOperation => "INVALID_OPERATION - Set of state is not legal for the parameters given\n"
    case StackOverflow => "STACK_OVERFLOW - Stack pushing operation would overflow\n"
    case StackUnderflow => "STACK_UNDERFLOW - Stack popping operation would underflow\n"
    case OutOfMemory => "OUT_OF_MEMORY - Memory allocation failed\n"
    case InvalidFramebufferOperation => "INVALID_FRAMEBUFFER_OPERATION - Incomplete framebuffer operation\n"
    case ContextLost => "CONTEXT_LOST - OpenGL context lost\n"
  }

  /** The text passed to `g_error`, or `None` for the branch that only
      breaks out of the `switch`. */
  function Message(e: GlError): Option<string> {
    match e
    case NoError => None
    case Unknown(c) => Some(UNKNOWN_PREFIX + Numeral(c, 16) + "\n")
    case _ => Some(NAMED_PREFIX + NamedText(e))
  }

  /** What `gl_error_handler` does: return to the caller, or abort the
      process through `g_error` with a message. */
  datatype HandlerOutcome = Continue | Abort(message: string)

  function ErrorHandler(code: uint32): (r: HandlerOutcome)
    ensures r.Continue? <==> code == GL_NO_ERROR
    ensures r.Abort? && !IsNamedCode(code) ==>
              r.message == UNKNOWN_PREFIX + Numeral(code, 16) + "\n"
  {
    match Message(Classify(code))
    case None => Continue
    case Some(m) => Abort(m)
  }

  /** The eight named texts have eight different lengths. */
  lemma NamedLengthsDistinct(e1: GlError, e2: GlError)
    requires !e1.NoError? && !e1.Unknown? && !e2.NoError? && !e2.Unknown?
    requires NamedTextLength(e1) == NamedTextLength(e2)
    ensures e1 == e2
  {
  }

  /** The length of each named text. */
  function NamedTextLength(e: GlError): (n: nat)
    requires !e.NoError? && !e.Unknown?
    ensures n == |NamedText(e)|
  {
    match e
    case InvalidEnum => 50
    case InvalidValue => 45
    case InvalidOperation => 71
    case StackOverflow => 56
    case StackUnderflow => 58
    case OutOfMemory => 41
    case InvalidFramebufferOperation => 65
    case ContextLost => 35
  }

  /** A named message differs from every unknown-code message: at index 14
      one reads 'G' (of "GL_") and the other 'U' (of "Unknown"). */
  lemma NamedDiffersFromUnknown(e1: GlError, c: uint32)
    requires !e1.NoError? && !e1.Unknown?
    ensures Message(e1) != Message(Unknown(c))
  {
    assert Message(Unknown(c)).value[14] == UNKNOWN_PREFIX[14] == 'U';
    assert Message(e1).value[14] == NAMED_PREFIX[14] == 'G';
  }

  lemma NamedMessageLength(e: GlError)
    requires !e.NoError? && !e.Unknown?
    ensures Message(e).Some? && |Message(e).value| == |NAMED_PREFIX| + NamedTextLength(e)
  {
  }

  /** Two named messages are equal only for the same error. */
  lemma NamedMessagesDistinct(e1: GlError, e2: GlError)
    requires !e1.NoError? && !e1.Unknown? && !e2.NoError? && !e2.Unknown?
    requires Message(e1) == Message(e2)
    ensures e1 == e2
  {
    NamedMessageLength(e1);
    NamedMessageLength(e2);
    NamedLengthsDistinct(e1, e2);
  }

  /** Distinct codes never produce the same outcome: each of the eight named
      codes has its own message, and an unknown code's message carries the
      code itself. */
  lemma ErrorHandlerInjective(a: uint32, b: uint32)
    requires ErrorHandler(a) == ErrorHandler(b)
    ensures a == b
  {
    var ea, eb := Classify(a), Classify(b);
    if ea.Unknown? && eb.Unknown? {
      var ma, mb := Numeral(a, 16), Numeral(b, 16);
      assert UNKNOWN_PREFIX + ma + "\n" == UNKNOWN_PREFIX + mb + "\n";
      assert |ma| == |mb|;
      assert ma == (UNKNOWN_PREFIX + ma + "\n")[|UNKNOWN_PREFIX|..|UNKNOWN_PREFIX| + |ma|];
      assert mb == (UNKNOWN_PREFIX + mb + "\n")[|UNKNOWN_PREFIX|..|UNKNOWN_PREFIX| + |mb|];
      NumeralInjective(a, b, 16);
    } else if ea.Unknown? {
      if !eb.NoError? {
        NamedDiffersFromUnknown(eb, a);
      }
    } else if eb.Unknown? {
      if !ea.NoError? {
        NamedDiffersFromUnknown(ea, b);
      }
    } else if !ea.NoError? && !eb.NoError? {
      NamedMessagesDistinct(ea, eb);
    }
  }
}
