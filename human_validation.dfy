/**
 * The classifier that decides whether an error raised by the remote browser
 * agent is a human-verification (CAPTCHA) challenge.
 */
module HumanValidation {
  import opened Strings

  /** The text whose presence marks a human-verification challenge. */
  const Marker: string := "HumanValidationError"

  /**
   * The Python values the classifier can be handed: None, a plain string, an
   * object carrying a `message` attribute (itself such a value) next to its
   * own `str()` text, or an object without `message`, known by its `str()`.
   */
  datatype ErrValue =
    | PyNone
    | Str(s: string)
    | WithMessage(message: ErrValue, repr: string)
    | Plain(repr: string)

  /** Python's `str(err)` for the objects the classifier stringifies. */
  function StrOf(err: ErrValue): string
  {
    match err
    case PyNone => "None"
    case Str(s) => s
    case WithMessage(_, repr) => repr
    case Plain(repr) => repr
  }

  /**
   * `contains_human_validation_error`, branch for branch. It looks only at
   * the innermost value of the `message` chain: it is true exactly when that
   * value is not None and its text contains the marker, so no `str()` of an
   * object with a `message` is ever consulted.
   */
  function ContainsHumanValidationError(err: ErrValue): (r: bool)
    ensures r <==> InnermostMentionsMarker(err)
    decreases err
  {
    if err.PyNone? then false
    else if err.Str? && Contains(err.s, Marker) then true
    else if err.WithMessage? then ContainsHumanValidationError(err.message)
    else Contains(StrOf(err), Marker)
  }

  /** The value at the end of the `message` chain is not None and its text contains the marker. */
  predicate InnermostMentionsMarker(err: ErrValue)
  {
    !Innermost(err).PyNone? && Contains(StrOf(Innermost(err)), Marker)
  }

  /** The value at the end of the `message` chain. */
  function Innermost(err: ErrValue): (r: ErrValue)
    ensures !r.WithMessage?
  {
    match err
    case WithMessage(m, _) => Innermost(m)
    case _ => err
  }

  /** None is never a human-verification error. */
  lemma NoneIsNotValidation()
    ensures !ContainsHumanValidationError(PyNone)
  {
  }

  /** A plain string is one exactly when it contains the marker. */
  lemma StringIffMarker(s: string)
    ensures ContainsHumanValidationError(Str(s)) <==> Contains(s, Marker)
  {
  }

  /** Wrapping a value as the `message` of any object, whatever that object's own text, changes nothing. */
  lemma {:induction false} MessageDecides(inner: ErrValue, repr: string, n: nat)
    ensures ContainsHumanValidationError(Wrap(inner, repr, n)) == ContainsHumanValidationError(inner)
  {
    if n > 0 {
      MessageDecides(inner, repr, n - 1);
    }
  }

  /** `inner` wrapped `n` times as the `message` of an object whose text is `repr`. */
  function Wrap(inner: ErrValue, repr: string, n: nat): ErrValue
  {
    if n == 0 then inner else WithMessage(Wrap(inner, repr, n - 1), repr)
  }

  /** An object without `message` is judged by its text alone. */
  lemma PlainIffMarker(repr: string)
    ensures ContainsHumanValidationError(Plain(repr)) <==> Contains(repr, Marker)
  {
  }

  /** Any text that mentions the marker is classified as a challenge, plain or wrapped. */
  lemma MentioningMarker(pre: string, post: string)
    ensures ContainsHumanValidationError(Str(pre + Marker + post))
    ensures ContainsHumanValidationError(Plain(pre + Marker + post))
  {
    ContainsInfix(pre, Marker, post);
  }
}
