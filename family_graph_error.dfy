/**
 * `FamilyGraphError`: the error value that listeners receive when the server
 * (or the client on its behalf) reports a failure. It has no mutators, so it
 * is a value: a message, an optional error type and an integer error code.
 */
module FamilyGraphErrors {
  import opened Wrappers

  datatype FamilyGraphError = FamilyGraphError(message: string, errorType: Option<string>, errorCode: int)

  /** `new FamilyGraphError(message)`. */
  function NewError(message: string): (r: FamilyGraphError) {
    FamilyGraphError(message, None, 0)
  }

  /** `new FamilyGraphError(message, type, code)`. */
  function NewTypedError(message: string, errorType: Option<string>, code: int): (r: FamilyGraphError) {
    FamilyGraphError(message, errorType, code)
  }

  function GetErrorCode(e: FamilyGraphError): (r: int) { e.errorCode }

  function GetErrorType(e: FamilyGraphError): (r: Option<string>) { e.errorType }

  /** The one-argument constructor keeps the message, with code 0 and a null type. */
  lemma NewErrorDefaults(message: string)
    ensures NewError(message).message == message
    ensures GetErrorCode(NewError(message)) == 0
    ensures GetErrorType(NewError(message)) == None
    ensures NewError(message) == NewTypedError(message, None, 0)
  {
  }

  /** The getters return exactly what the three-argument constructor stored. */
  lemma NewTypedErrorStores(message: string, errorType: Option<string>, code: int)
    ensures NewTypedError(message, errorType, code).message == message
    ensures GetErrorType(NewTypedError(message, errorType, code)) == errorType
    ensures GetErrorCode(NewTypedError(message, errorType, code)) == code
  {
  }

  /** Distinct constructor arguments give distinct errors: nothing stored is lost. */
  lemma NewTypedErrorInjective(m1: string, t1: Option<string>, c1: int, m2: string, t2: Option<string>, c2: int)
    requires NewTypedError(m1, t1, c1) == NewTypedError(m2, t2, c2)
    ensures m1 == m2 && t1 == t2 && c1 == c2
  {
  }
}
