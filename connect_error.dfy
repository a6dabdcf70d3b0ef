/**
 * `isConnectError` (src/is-connect-error.js): whether an error happened
 * while the connection was being set up, so that no request reached the
 * server. An error-like value is falsy or an object with optional `code`,
 * `syscall`, `errors` (the sub-errors of an AggregateError), `stack` and
 * `cause`.
 */
module ConnectError {
  import opened Optional

  /**
   * An error-like value. `Falsy` stands for `undefined`, `null`, `false`,
   * `0` and `''`; a string field the object lacks is `None`.
   */
  datatype ErrorLike =
    | Falsy
    | Error(
        code: Option<string>,
        syscall: Option<string>,
        errors: SubErrors,
        stack: Option<string>,
        cause: ErrorLike)

  /** The `errors` property: an array (as `Array.isArray` decides), or anything else, missing included. */
  datatype SubErrors = NotAnArray | Array(items: seq<ErrorLike>)

  /** `EARLY_STAGE_NET_ERRORS`: refused connections and failed DNS lookups. */
  const EarlyStageNetErrors: seq<string> := ["ECONNREFUSED", "ENOTFOUND"]

  /** The prefix of the codes raised while validating a TLS certificate. */
  const TlsCertPrefix: string := "ERR_TLS_CERT_"

  /** What a regular expression's `test` sees for a missing string property: `String(undefined)`. */
  const Undefined: string := "undefined"

  /**
   * `/^ERR_TLS_CERT_/.test(text)`: the pattern is anchored at the start only
   * (no `m` flag), so it holds exactly for the prefix followed by anything.
   */
  predicate IsTlsCertCode(text: string)
    ensures IsTlsCertCode(text) <==>
      |TlsCertPrefix| <= |text| && text == TlsCertPrefix + text[|TlsCertPrefix|..]
  {
    |TlsCertPrefix| <= |text| && text[..|TlsCertPrefix|] == TlsCertPrefix
  }

  /** The ECMAScript line terminators: LF, CR, LINE SEPARATOR and PARAGRAPH SEPARATOR. */
  predicate IsLineTerminator(c: char)
  {
    c == '\n' || c == '\r' || c == '\U{2028}' || c == '\U{2029}'
  }

  /**
   * The ECMAScript `\s` class: the WhiteSpace code points (tab, vertical tab,
   * form feed, space, no-break space, the byte order mark and the other
   * space separators) and the line terminators.
   */
  predicate IsWhitespace(c: char)
  {
    || c == '\t' || c == '\U{000B}' || c == '\U{000C}' || c == ' ' || c == '\U{00A0}'
    || c == '\U{1680}' || ('\U{2000}' <= c <= '\U{200A}') || c == '\U{202F}' || c == '\U{205F}'
    || c == '\U{3000}' || c == '\U{FEFF}'
    || IsLineTerminator(c)
  }

  /** `[A-Z]` without the `i` flag. */
  predicate IsUpper(c: char)
  {
    'A' <= c <= 'Z'
  }

  /** Where `^` matches under the `m` flag: at the start of the text or right after a line terminator. */
  predicate IsLineStart(s: string, p: nat)
    requires p <= |s|
  {
    p == 0 || IsLineTerminator(s[p - 1])
  }

  /** The end of the run of `\s` characters that starts at `i`. */
  function SkipWhitespace(s: string, i: nat): (k: nat)
    requires i <= |s|
    ensures i <= k <= |s|
    ensures forall m :: i <= m < k ==> IsWhitespace(s[m])
    ensures k == |s| || !IsWhitespace(s[k])
    decreases |s| - i
  {
    if i < |s| && IsWhitespace(s[i]) then SkipWhitespace(s, i + 1) else i
  }

  /**
   * `\s*at\s+onConnect[A-Z]` matched from `p`. Neither `a` nor `o` is a
   * whitespace character, so the greedy runs give back nothing when the
   * engine backtracks, and skipping each run to its end decides the match.
   */
  predicate FrameAt(s: string, p: nat)
    requires p <= |s|
  {
    var i := SkipWhitespace(s, p);
    i + 2 <= |s| && s[i..i + 2] == "at" &&
    var j := SkipWhitespace(s, i + 2);
    j > i + 2 && j + 10 <= |s| && s[j..j + 9] == "onConnect" && IsUpper(s[j + 9])
  }

  /**
   * The match of `\s*at\s+onConnect[A-Z]` from `p` as the pattern reads:
   * whitespace from `p` up to `i`, `at`, at least one whitespace character
   * up to `j`, `onConnect` and an upper-case letter.
   */
  ghost predicate FrameParts(s: string, p: nat, i: nat, j: nat)
  {
    && p <= i && i + 2 < j && j + 10 <= |s|
    && (forall m :: p <= m < i ==> IsWhitespace(s[m]))
    && s[i..i + 2] == "at"
    && (forall m :: i + 2 <= m < j ==> IsWhitespace(s[m]))
    && s[j..j + 9] == "onConnect"
    && IsUpper(s[j + 9])
  }

  /** Some split of the text from `p` matches the pattern. */
  ghost predicate FrameSpec(s: string, p: nat)
  {
    exists i: nat, j: nat :: FrameParts(s, p, i, j)
  }

  /** The search of `RegExp.prototype.test`: try every start position from `p` on; a match needs 13 characters. */
  predicate SearchFrom(s: string, p: nat)
    requires p <= |s|
    ensures SearchFrom(s, p) ==> p + 13 <= |s|
    decreases |s| - p
  {
    (IsLineStart(s, p) && FrameAt(s, p)) || (p < |s| && SearchFrom(s, p + 1))
  }

  /**
   * `/^\s*at\s+onConnect[A-Z]/m.test(text)`: some line of the text is a
   * stack frame of an `onConnect…` function. The shortest match, `at
   * onConnectX`, has 13 characters.
   */
  predicate HasConnectFrame(text: string)
    ensures HasConnectFrame(text) ==> 13 <= |text|
  {
    SearchFrom(text, 0)
  }

  /** The stack-trace heuristic for one error-like object (`e.stack` may be missing). */
  predicate StackMarked(e: ErrorLike)
    requires e.Error?
  {
    HasConnectFrame(e.stack.GetOr(Undefined))
  }

  /**
   * `isConnectError(err)`, checks in the order of src/is-connect-error.js:7-38.
   * A failed `connect` syscall always counts; a bare error object with
   * nothing to go on does not.
   */
  predicate IsConnectError(err: ErrorLike)
    ensures err.Error? && err.errors.NotAnArray? && err.syscall == Some("connect") ==> IsConnectError(err)
    ensures err == Error(None, None, NotAnArray, None, Falsy) ==> !IsConnectError(err)
    decreases err
  {
    match err
    case Falsy => false
    case Error(_, _, Array(items), _, _) =>
      forall e | e in items :: IsConnectError(e)
    case Error(code, syscall, NotAnArray, _, cause) =>
      if syscall == Some("connect") then true
      else if code.Some? && code.value in EarlyStageNetErrors then true
      else if IsTlsCertCode(code.GetOr(Undefined)) then true
      else StackMarked(err) || CauseMarked(cause)
  }

  /** The scan agrees with the pattern as it reads, start position by start position. */
  lemma FrameAtIff(s: string, p: nat)
    requires p <= |s|
    ensures FrameAt(s, p) <==> FrameSpec(s, p)
  {
    if FrameAt(s, p) {
      var i := SkipWhitespace(s, p);
      var j := SkipWhitespace(s, i + 2);
      assert FrameParts(s, p, i, j);
    }
    if FrameSpec(s, p) {
      var i: nat, j: nat :| FrameParts(s, p, i, j);
      FramePartsFound(s, p, i, j);
    }
  }

  /** A split that matches the pattern is the one the scan finds. */
  lemma FramePartsFound(s: string, p: nat, i: nat, j: nat)
    requires FrameParts(s, p, i, j)
    ensures FrameAt(s, p)
  {
    assert s[i] == s[i..i + 2][0] == 'a';
    assert s[j] == s[j..j + 9][0] == 'o';
    SkipToNonWhitespace(s, p, i);
    SkipToNonWhitespace(s, i + 2, j);
  }

  /** A whitespace run that ends at a non-whitespace character is exactly what `SkipWhitespace` skips. */
  lemma SkipToNonWhitespace(s: string, i: nat, k: nat)
    requires i <= k < |s|
    requires forall m :: i <= m < k ==> IsWhitespace(s[m])
    requires !IsWhitespace(s[k])
    ensures SkipWhitespace(s, i) == k
  {
  }

  /** A line of the text starts at `q` and begins a frame. */
  ghost predicate FrameLine(s: string, q: nat)
  {
    q <= |s| && IsLineStart(s, q) && FrameSpec(s, q)
  }

  /** The search succeeds from `p` exactly when some later line start begins a frame. */
  lemma {:induction false} SearchFromIff(s: string, p: nat)
    requires p <= |s|
    ensures SearchFrom(s, p) <==> exists q :: p <= q && FrameLine(s, q)
    decreases |s| - p
  {
    FrameAtIff(s, p);
    if IsLineStart(s, p) && FrameAt(s, p) {
      assert FrameLine(s, p);
    }
    if p < |s| {
      SearchFromIff(s, p + 1);
    }
    if exists q :: p <= q && FrameLine(s, q) {
      var q :| p <= q && FrameLine(s, q);
      if q != p {
        assert p + 1 <= q;
      }
    }
  }

  /**
   * `HasConnectFrame` holds exactly when some line start of the text (the
   * start, or a position after a line terminator) begins a frame.
   */
  lemma HasConnectFrameIff(text: string)
    ensures HasConnectFrame(text) <==> exists q :: FrameLine(text, q)
  {
    SearchFromIff(text, 0);
  }

  /** Whether the `cause` of an error has a connect frame in its stack; a falsy cause is filtered out. */
  predicate CauseMarked(cause: ErrorLike)
  {
    cause.Error? && StackMarked(cause)
  }

  /** A falsy value is never a connect error. */
  lemma FalsyIsNotConnectError()
    ensures !IsConnectError(Falsy)
  {
  }

  /**
   * An AggregateError is a connect error exactly when every sub-error is one
   * (so an empty one is); its own code, syscall, stack and cause are ignored.
   */
  lemma AggregateIsEvery(err: ErrorLike)
    requires err.Error? && err.errors.Array?
    ensures IsConnectError(err) <==> forall e | e in err.errors.items :: IsConnectError(e)
    ensures err.errors.items == [] ==> IsConnectError(err)
  {
  }

  /** One sub-error that is not a connect error spoils the aggregate. */
  lemma AggregateWithLaterStageError(err: ErrorLike, k: nat)
    requires err.Error? && err.errors.Array? && k < |err.errors.items|
    requires !IsConnectError(err.errors.items[k])
    ensures !IsConnectError(err)
  {
  }

  /**
   * A non-aggregate error is a connect error exactly when its syscall is
   * `connect`, its code is an early-stage network error or a TLS
   * certificate error, or some line of its own stack or of its direct
   * cause's stack is an `onConnect…` frame as the pattern reads.
   */
  lemma ClassifiedBy(err: ErrorLike)
    requires err.Error? && err.errors.NotAnArray?
    ensures IsConnectError(err) <==>
      || err.syscall == Some("connect")
      || (err.code.Some? && err.code.value in EarlyStageNetErrors)
      || IsTlsCertCode(err.code.GetOr(Undefined))
      || (exists q :: FrameLine(err.stack.GetOr(Undefined), q))
      || (err.cause.Error? && exists q :: FrameLine(err.cause.stack.GetOr(Undefined), q))
  {
    HasConnectFrameIff(err.stack.GetOr(Undefined));
    if err.cause.Error? {
      HasConnectFrameIff(err.cause.stack.GetOr(Undefined));
    }
  }

  /**
   * The cause is consulted for its stack only, and one level deep: two
   * causes whose stacks agree on the heuristic give the same answer,
   * whatever their codes, syscalls, sub-errors and own causes.
   */
  lemma CauseOnlyByStack(err: ErrorLike, other: ErrorLike)
    requires err.Error? && CauseMarked(err.cause) == CauseMarked(other)
    ensures IsConnectError(err) == IsConnectError(err.(cause := other))
  {
  }

  /** The search reaches every later line start. */
  lemma {:induction false} SearchFromReaches(s: string, p: nat, q: nat)
    requires p <= q <= |s| && IsLineStart(s, q) && FrameAt(s, q)
    ensures SearchFrom(s, p)
    decreases q - p
  {
    if p < q {
      SearchFromReaches(s, p + 1, q);
    }
  }

  /** An error object with only a `code`. */
  function WithCode(code: string): ErrorLike
  {
    Error(Some(code), None, NotAnArray, None, Falsy)
  }

  /** An error object with only a `syscall`. */
  function WithSyscall(syscall: string): ErrorLike
  {
    Error(None, Some(syscall), NotAnArray, None, Falsy)
  }

  /** No line terminator in the text. */
  predicate SingleLine(s: string)
  {
    '\n' !in s && '\r' !in s && '\U{2028}' !in s && '\U{2029}' !in s
  }

  /** In a single line of text only the start is a line start. */
  lemma SingleLineStart(s: string, p: nat)
    requires SingleLine(s) && p <= |s| && IsLineStart(s, p)
    ensures p == 0
  {
  }

  /** In two single lines joined by a line terminator, the line starts are the two line beginnings. */
  lemma TwoLineStarts(x: string, t: char, y: string, p: nat)
    requires SingleLine(x) && IsLineTerminator(t) && SingleLine(y)
    requires p <= |x + [t] + y| && IsLineStart(x + [t] + y, p)
    ensures p == 0 || p == |x| + 1
  {
  }

  /** A line that does not begin with optional whitespace and `at` is no frame. */
  lemma NoFrameWithoutAt(s: string, q: nat)
    requires q < |s| && !IsWhitespace(s[q]) && s[q] != 'a'
    ensures !FrameSpec(s, q)
  {
  }

  /** A line whose first word after `at` does not begin with `o` is no frame. */
  lemma NoFrameWithoutOnConnect(s: string, q: nat, i: nat, j: nat)
    requires q <= i && i + 2 < j < |s|
    requires forall m :: q <= m < i ==> IsWhitespace(s[m])
    requires !IsWhitespace(s[i])
    requires forall m :: i + 2 <= m < j ==> IsWhitespace(s[m])
    requires !IsWhitespace(s[j]) && s[j] != 'o'
    ensures !FrameSpec(s, q)
  {
    if FrameSpec(s, q) {
      var i': nat, j': nat :| FrameParts(s, q, i', j');
      SkipToNonWhitespace(s, q, i);
      assert s[i'] == s[i'..i' + 2][0] == 'a';
      SkipToNonWhitespace(s, q, i');
      SkipToNonWhitespace(s, i + 2, j);
      assert s[j'] == s[j'..j' + 9][0] == 'o';
      SkipToNonWhitespace(s, i + 2, j');
    }
  }

  /** The codes test/is-connect-error.js:13-23 expects to be told apart. */
  lemma CodeCases()
    ensures IsConnectError(WithCode("ECONNREFUSED"))
    ensures IsConnectError(WithCode("ENOTFOUND"))
    ensures IsConnectError(WithCode("ERR_TLS_CERT_ALTNAME_INVALID"))
    ensures !IsConnectError(WithCode("ECONNRESET"))
    ensures !IsConnectError(WithCode("ERR_ACCESS_DENIED"))
  {
    UndefinedMatchesNothing();
    assert "ERR_ACCESS_DENIED"[..13][4] != TlsCertPrefix[4];
  }

  /** A missing stack or code is tested as the text `undefined`, which never matches either pattern. */
  lemma UndefinedMatchesNothing()
    ensures !HasConnectFrame(Undefined) && !IsTlsCertCode(Undefined)
  {
  }

  /** test/is-connect-error.js:25-42. */
  lemma SyscallAndAggregateCases()
    ensures IsConnectError(WithSyscall("connect"))
    ensures IsConnectError(Error(None, None, Array([WithSyscall("connect")]), None, Falsy))
  {
  }

  /** Every character of the text is `\s`. */
  predicate AllWhitespace(s: string)
  {
    forall c | c in s :: IsWhitespace(c)
  }

  /**
   * A stack with a line of the form `<whitespace>at<whitespace>onConnect<Upper>…`
   * after its first line is marked, whatever the other lines say.
   */
  lemma FrameLineMarks(head: string, t: char, indent: string, gap: string, name: string)
    requires IsLineTerminator(t) && AllWhitespace(indent) && gap != [] && AllWhitespace(gap)
    requires name != [] && IsUpper(name[0])
    ensures HasConnectFrame(head + [t] + indent + "at" + gap + "onConnect" + name)
  {
    var s := head + [t] + indent + "at" + gap + "onConnect" + name;
    var q := |head| + 1;
    var i := q + |indent|;
    var j := i + 2 + |gap|;
    assert s[q - 1] == t;
    forall m | q <= m < i ensures IsWhitespace(s[m]) {
      assert s[m] == indent[m - q];
    }
    forall m | i + 2 <= m < j ensures IsWhitespace(s[m]) {
      assert s[m] == gap[m - i - 2];
    }
    assert s[i..i + 2] == "at";
    assert s[j..j + 9] == "onConnect";
    assert s[j + 9] == name[0];
    assert FrameParts(s, q, i, j);
    FramePartsFound(s, q, i, j);
    SearchFromReaches(s, 0, q);
  }

  /**
   * A two-line stack whose first line does not start with whitespace or `a`
   * and whose second line names a function not starting with `o` after its
   * `at` is not marked.
   */
  lemma OtherFrameUnmarked(head: string, t: char, indent: string, gap: string, name: string)
    requires SingleLine(head) && head != [] && !IsWhitespace(head[0]) && head[0] != 'a'
    requires IsLineTerminator(t)
    requires SingleLine(indent + "at" + gap + name) && AllWhitespace(indent) && gap != [] && AllWhitespace(gap)
    requires name != [] && !IsWhitespace(name[0]) && name[0] != 'o'
    ensures !HasConnectFrame(head + [t] + indent + "at" + gap + name)
  {
    var y := indent + "at" + gap + name;
    var s := head + [t] + y;
    assert s == head + [t] + indent + "at" + gap + name;
    var q := |head| + 1;
    var i := q + |indent|;
    var j := i + 2 + |gap|;
    forall m | q <= m < i ensures IsWhitespace(s[m]) {
      assert s[m] == indent[m - q];
    }
    forall m | i + 2 <= m < j ensures IsWhitespace(s[m]) {
      assert s[m] == gap[m - i - 2];
    }
    assert s[i] == 'a' && s[j] == name[0];
    NoFrameWithoutOnConnect(s, q, i, j);
    assert s[0] == head[0];
    NoFrameWithoutAt(s, 0);
    HasConnectFrameIff(s);
    forall p | FrameLine(s, p) ensures false {
      TwoLineStarts(head, t, y, p);
    }
  }
}
