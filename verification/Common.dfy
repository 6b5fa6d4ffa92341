/** Outcomes, errors and the acting principal, shared by every service. */
module Common {

  /** A random row id. Nothing is assumed about freshness: a repeated id violates a key. */
  type Token = int

  datatype Option<+T> = None | Some(value: T)

  /** The error codes of internal/apperr, plus Constraint for a violated key or
      uniqueness rule and Unavailable for a failing statement or cancelled context. */
  datatype ErrorCode = NotFound | Conflict | Invalid | Forbidden | Constraint | Unavailable

  datatype Result<+T> = Success(value: T) | Failure(error: ErrorCode) {
    predicate IsFailure() {
      Failure?
    }

    function PropagateFailure<U>(): Result<U>
      requires Failure?
    {
      Failure(error)
    }

    function Extract(): T
      requires Success?
    {
      value
    }

    function GetOr(default: T): T {
      if Success? then value else default
    }
  }

  datatype Principal = Principal(id: string, tenant: string, role: string) {
    predicate Can(action: string) {
      if role == "supervisor" then true
      else if action in {"intake", "inspect", "reserve", "recover"} then role == "operator"
      else false
    }
  }

  /** The instant of an unset time, in nanoseconds since 1970. */
  const ZERO_TIME := -62_135_596_800_000_000_000

  predicate Space(c: char) {
    var n := c as int;
    n in {9, 10, 11, 12, 13, 32, 0x85, 0xA0, 0x1680, 0x2028, 0x2029, 0x202F, 0x205F, 0x3000} || 0x2000 <= n <= 0x200A
  }

  /** Trimming white space leaves nothing. */
  predicate Blank(s: string) {
    forall i | 0 <= i < |s| :: Space(s[i])
  }

  /** White space is five control characters and the blank of ASCII, the next-line
      and no-break spaces, and Unicode's separators. */
  lemma BlankMeans(s: string)
    ensures Blank(s) <==> forall i | 0 <= i < |s| ::
      || s[i] in {'\t', '\n', '\U{B}', '\U{C}', '\r', ' ', '\U{85}', '\U{A0}', '\U{1680}'}
      || s[i] in {'\U{2028}', '\U{2029}', '\U{202F}', '\U{205F}', '\U{3000}'}
      || '\U{2000}' <= s[i] <= '\U{200A}'
  {
  }
}
