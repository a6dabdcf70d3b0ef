/**
 * `isRetryableMethod` (src/is-retryable-method.js): whether an HTTP method
 * is on an allowlist of methods that may be retried, after upper-casing it.
 */
module RetryableMethod {
  import opened Optional

  /** `IDEMPOTENT_HTTP_METHODS`. */
  const IdempotentHttpMethods: seq<string> := ["PUT", "DELETE", "GET", "HEAD", "PATCH", "OPTIONS"]

  /** The method assumed when the caller passes none. */
  const DefaultMethod: string := "GET"

  /** The allowlist argument: an array (as `Array.isArray` decides) of method names, or anything else. */
  datatype MethodList = NotAList | List(methods: seq<string>)

  /** `toUpperCase` on one character, for the ASCII letters. */
  function UpperChar(c: char): (u: char)
    ensures 'a' <= c <= 'z' ==> 'A' <= u <= 'Z' && u as int == c as int - 32
    ensures !('a' <= c <= 'z') ==> u == c
  {
    if 'a' <= c <= 'z' then (c as int - 32) as char else c
  }

  /** `String.prototype.toUpperCase`, restricted to ASCII letters. */
  function ToUpperCase(s: string): (r: string)
    ensures |r| == |s|
    ensures forall i :: 0 <= i < |s| ==> r[i] == UpperChar(s[i])
  {
    if s == [] then [] else [UpperChar(s[0])] + ToUpperCase(s[1..])
  }

  /** `Array.prototype.indexOf`: the first position holding `x`, or -1. */
  function IndexOf(xs: seq<string>, x: string): (r: int)
    ensures -1 <= r < |xs|
    ensures r >= 0 ==> xs[r] == x && forall k :: 0 <= k < r ==> xs[k] != x
    ensures r == -1 <==> x !in xs
  {
    if xs == [] then -1
    else if xs[0] == x then 0
    else
      var r := IndexOf(xs[1..], x);
      if r < 0 then -1 else r + 1
  }

  /**
   * `isRetryableMethod(retryMethods, httpMethod)`; `None` is an omitted
   * method. A list is retryable for a method exactly when it holds the
   * upper-cased method; anything that is not a list never is.
   */
  predicate IsRetryableMethod(retryMethods: MethodList, httpMethod: Option<string>)
    ensures IsRetryableMethod(retryMethods, httpMethod) <==>
      retryMethods.List? && ToUpperCase(httpMethod.GetOr(DefaultMethod)) in retryMethods.methods
  {
    match retryMethods
    case NotAList => false
    case List(methods) => IndexOf(methods, ToUpperCase(httpMethod.GetOr(DefaultMethod))) >= 0
  }

  /** Whether the text holds an ASCII lower-case letter. */
  predicate HasLowercase(s: string)
  {
    exists i :: 0 <= i < |s| && 'a' <= s[i] <= 'z'
  }

  /** Upper-casing twice is upper-casing once. */
  lemma {:induction false} UpperCaseIdempotent(s: string)
    ensures ToUpperCase(ToUpperCase(s)) == ToUpperCase(s)
  {
    if s != [] {
      UpperCaseIdempotent(s[1..]);
      assert ToUpperCase(s)[1..] == ToUpperCase(s[1..]);
    }
  }

  /** The answer does not depend on the case of the method: `get` and `GET` are alike. */
  lemma CaseInsensitive(retryMethods: MethodList, httpMethod: string)
    ensures IsRetryableMethod(retryMethods, Some(ToUpperCase(httpMethod))) == IsRetryableMethod(retryMethods, Some(httpMethod))
  {
    UpperCaseIdempotent(httpMethod);
  }

  /** An upper-cased text holds no lower-case letter, so a list entry such as `get` never matches. */
  lemma LowercaseEntryNeverMatches(entry: string, httpMethod: string)
    requires HasLowercase(entry)
    ensures ToUpperCase(httpMethod) != entry
  {
    var i :| 0 <= i < |entry| && 'a' <= entry[i] <= 'z';
    if |ToUpperCase(httpMethod)| == |entry| {
      assert ToUpperCase(httpMethod)[i] == UpperChar(httpMethod[i]);
    }
  }

  /** A list whose entries are all lower-case never matches any method. */
  lemma LowercaseListNeverRetryable(methods: seq<string>, httpMethod: Option<string>)
    requires forall k :: 0 <= k < |methods| ==> HasLowercase(methods[k])
    ensures !IsRetryableMethod(List(methods), httpMethod)
  {
    var upper := ToUpperCase(httpMethod.GetOr(DefaultMethod));
    forall k | 0 <= k < |methods| ensures methods[k] != upper {
      LowercaseEntryNeverMatches(methods[k], httpMethod.GetOr(DefaultMethod));
    }
  }

  /** The default method, in any case, is retryable against the idempotent methods. */
  lemma GetIsRetryable()
    ensures IsRetryableMethod(List(IdempotentHttpMethods), None)
    ensures IsRetryableMethod(List(IdempotentHttpMethods), Some("get"))
  {
    assert ToUpperCase("GET") == "GET";
    assert ToUpperCase("get") == "GET";
    assert IdempotentHttpMethods[2] == "GET";
  }

  /** POST, in either case, is not. */
  lemma PostIsNotRetryable()
    ensures !IsRetryableMethod(List(IdempotentHttpMethods), Some("POST"))
    ensures !IsRetryableMethod(List(IdempotentHttpMethods), Some("post"))
  {
    assert ToUpperCase("post") == "POST";
    assert ToUpperCase("POST") == "POST";
    assert "POST" !in IdempotentHttpMethods;
  }

  /** An allowlist that is not an array fails closed. */
  lemma NotAListFailsClosed(httpMethod: Option<string>)
    ensures !IsRetryableMethod(NotAList, httpMethod)
  {
  }
}
