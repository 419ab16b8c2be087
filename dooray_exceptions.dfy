/**
 * The exception kinds of the library (src/dooray/DoorayExceptions.py) and the other
 * Python exceptions the modelled code can raise, with the messages the library attaches.
 */
module DoorayExceptions {
  import opened Wrappers

  /** The two subclasses of `DoorayException`. */
  datatype DoorayException =
    | BadHttpResponseStatusCode(statusCode: int)
    | ServerGeneralError

  /**
   * Everything a modelled call can raise: a `DoorayException`, or one of the built-in
   * exceptions the code provokes (a missing dict key, a subscript on a non-dict, a failed
   * `assert`, a response body that is not JSON).
   */
  datatype Error =
    | Dooray(exception: DoorayException)
    | KeyError(key: string)
    | TypeError
    | AssertionError
    | JsonDecodeError

  /** The exception classes an `except` clause of the library can name. */
  datatype ExceptionClass =
    | DoorayExceptionClass
    | BadHttpResponseStatusCodeClass
    | ServerGeneralErrorClass

  /** Whether `except cls:` catches `e`: both subclasses derive from `DoorayException`. */
  function Catches(cls: ExceptionClass, e: Error): (r: bool)
    ensures r ==> e.Dooray?
    ensures cls == DoorayExceptionClass ==> (r <==> e.Dooray?)
    ensures cls == BadHttpResponseStatusCodeClass ==> (r <==> e.Dooray? && e.exception.BadHttpResponseStatusCode?)
    ensures cls == ServerGeneralErrorClass ==> (r <==> e == Dooray(ServerGeneralError))
  {
    match cls
    case DoorayExceptionClass => e.Dooray?
    case BadHttpResponseStatusCodeClass => e.Dooray? && e.exception.BadHttpResponseStatusCode?
    case ServerGeneralErrorClass => e.Dooray? && e.exception.ServerGeneralError?
  }

  /** A handler for one subclass never catches the other. */
  lemma SubclassHandlersDisjoint(e: Error)
    ensures !(Catches(BadHttpResponseStatusCodeClass, e) && Catches(ServerGeneralErrorClass, e))
    ensures Catches(BadHttpResponseStatusCodeClass, e) || Catches(ServerGeneralErrorClass, e) <==> Catches(DoorayExceptionClass, e)
  {
  }

  const StatusCodeMessagePrefix := "Server has returned HTTP Response Status Code "
  const ServerGeneralErrorMessage := "Server has returned 'SERVER_GENERAL_ERROR'"

  /** The `message` attribute each exception is constructed with. */
  function Message(e: DoorayException): (m: string)
    ensures e.BadHttpResponseStatusCode? ==>
      StatusCodeMessagePrefix <= m && ParseInt(m[|StatusCodeMessagePrefix|..]) == Some(e.statusCode)
    ensures e.ServerGeneralError? ==> m == ServerGeneralErrorMessage
  {
    match e
    case BadHttpResponseStatusCode(code) =>
      IntParsesBack(code);
      StatusCodeMessagePrefix + IntToString(code)
    case ServerGeneralError => ServerGeneralErrorMessage
  }

  /** Two status-code messages are equal only for equal status codes; no status-code message is the general-error message. */
  lemma MessagesDistinguishExceptions(a: DoorayException, b: DoorayException)
    requires Message(a) == Message(b)
    ensures a == b
  {
    if a.BadHttpResponseStatusCode? && b.BadHttpResponseStatusCode? {
      assert ParseInt(Message(a)[|StatusCodeMessagePrefix|..]) == Some(a.statusCode);
    }
  }

  // ---- Python's str() of an int and its inverse

  function DigitChar(d: nat): char
    requires d < 10
  {
    "0123456789"[d]
  }

  function DigitValue(c: char): Option<nat>
  {
    if '0' <= c <= '9' then Some((c as int - '0' as int) as nat) else None
  }

  /** Decimal digits of `n`, most significant first, no leading zeros. */
  function NatToString(n: nat): (s: string)
    ensures |s| > 0 && DigitValue(s[0]).Some?
    decreases n
  {
    if n < 10 then [DigitChar(n)] else NatToString(n / 10) + [DigitChar(n % 10)]
  }

  /** `str(i)` for a Python int. */
  function IntToString(i: int): string
  {
    if i < 0 then "-" + NatToString(-i) else NatToString(i)
  }

  /** Reads a non-empty string of decimal digits. */
  function ParseNat(s: string): Option<nat>
    decreases |s|
  {
    if |s| == 0 then None
    else if |s| == 1 then DigitValue(s[0])
    else
      match (ParseNat(s[..|s| - 1]), DigitValue(s[|s| - 1]))
      case (Some(p), Some(d)) => Some(p * 10 + d)
      case _ => None
  }

  /** Reads an optionally negative decimal integer. */
  function ParseInt(s: string): Option<int>
  {
    if |s| > 0 && s[0] == '-' then
      match ParseNat(s[1..])
      case Some(n) => Some(0 - n as int)
      case None => None
    else
      match ParseNat(s)
      case Some(n) => Some(n)
      case None => None
  }

  lemma {:induction false} NatParsesBack(n: nat)
    ensures ParseNat(NatToString(n)) == Some(n)
    decreases n
  {
    if n >= 10 {
      NatParsesBack(n / 10);
      var s := NatToString(n);
      assert s[..|s| - 1] == NatToString(n / 10);
      assert DigitValue(s[|s| - 1]) == Some(n % 10);
    }
  }

  lemma IntParsesBack(i: int)
    ensures ParseInt(IntToString(i)) == Some(i)
  {
    if i < 0 {
      NatParsesBack(-i);
      assert IntToString(i)[1..] == NatToString(-i);
    } else {
      NatParsesBack(i);
    }
  }
}
