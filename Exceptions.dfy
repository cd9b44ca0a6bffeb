/** The client's error hierarchy: a base `PlexismsError` and three subclasses,
    written as one tagged datatype. Each constructor stores its message as
    given; `APIError` also stores its optional status code and response body
    (`JsUndefined` is an absent body, as an unset optional property reads in
    JavaScript). */
module Exceptions {
  import opened Wrappers
  import opened JsValues

  datatype Error =
    | PlexismsError(message: string)
    | AuthenticationError(message: string)
    | BalanceError(message: string)
    | APIError(message: string, statusCode: Option<int>, responseBody: JsValue)

  /** The classes of the hierarchy, for `instanceof`. */
  datatype ErrorClass = PlexismsErrorClass | AuthenticationErrorClass | BalanceErrorClass | APIErrorClass

  /** The class an error was constructed as. */
  function ClassOf(e: Error): ErrorClass {
    match e
    case PlexismsError(_) => PlexismsErrorClass
    case AuthenticationError(_) => AuthenticationErrorClass
    case BalanceError(_) => BalanceErrorClass
    case APIError(_, _, _) => APIErrorClass
  }

  /** The class a class extends, within the hierarchy (the base extends the
      built-in `Error`, which is outside it). */
  function Superclass(c: ErrorClass): Option<ErrorClass> {
    if c == PlexismsErrorClass then None else Some(PlexismsErrorClass)
  }

  /** `e instanceof c`: `c` is the class of `e` or one of its ancestors. */
  function InstanceOf(e: Error, c: ErrorClass): (b: bool)
    ensures b <==> c == ClassOf(e) || c == PlexismsErrorClass
  {
    ClassOf(e) == c || Superclass(ClassOf(e)) == Some(c)
  }

  /** The `name` property each constructor sets. */
  function Name(e: Error): (n: string)
    ensures n in {"PlexismsError", "AuthenticationError", "BalanceError", "APIError"}
    ensures n == "PlexismsError" <==> ClassOf(e) == PlexismsErrorClass
  {
    match e
    case PlexismsError(_) => "PlexismsError"
    case AuthenticationError(_) => "AuthenticationError"
    case BalanceError(_) => "BalanceError"
    case APIError(_, _, _) => "APIError"
  }

  /** Every error the client throws is a `PlexismsError`. */
  lemma EveryErrorIsPlexismsError(e: Error)
    ensures InstanceOf(e, PlexismsErrorClass)
  {
  }

  /** A subclass test succeeds exactly for errors constructed as that subclass:
      the three subclasses are disjoint. */
  lemma SubclassInstanceOf(e: Error, c: ErrorClass)
    requires c != PlexismsErrorClass
    ensures InstanceOf(e, c) <==> ClassOf(e) == c
  {
  }

  /** The `name` tag is the class name, so it tells the four kinds apart. */
  lemma NameIdentifiesClass(e1: Error, e2: Error)
    ensures Name(e1) == Name(e2) <==> ClassOf(e1) == ClassOf(e2)
  {
  }

  /** Every constructor keeps its message unchanged and sets its own `name`;
      `APIError` keeps its status and body exactly, absent ones included. */
  lemma ConstructorsStoreArguments(m: string, status: Option<int>, body: JsValue)
    ensures PlexismsError(m).message == m && Name(PlexismsError(m)) == "PlexismsError"
    ensures AuthenticationError(m).message == m && Name(AuthenticationError(m)) == "AuthenticationError"
    ensures BalanceError(m).message == m && Name(BalanceError(m)) == "BalanceError"
    ensures var e := APIError(m, status, body);
      e.message == m && e.statusCode == status && e.responseBody == body && Name(e) == "APIError"
  {
  }
}
