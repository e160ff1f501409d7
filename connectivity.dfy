/**
 * The connectivity self-test run while a `PackageManager` is set up: a probe
 * of the extension server whose failure is turned into one diagnostic message.
 *
 * The probe's failure is the exception it throws. `ClientException` and
 * `ServerException` extend `RequestException`, and every class extends the
 * base `Exception`, so the catch clauses must name the specific classes
 * before the general ones.
 */
module Connectivity {
  import opened Wrappers

  /** The exception classes the probe can throw; `GenericException` is any other `Exception`. */
  datatype ExceptionClass = ClientException | ServerException | RequestException | GenericException

  /** `c instanceof handler`, over the class hierarchy above. */
  predicate InstanceOf(c: ExceptionClass, handler: ExceptionClass) {
    handler == GenericException || c == handler ||
    (handler == RequestException && (c == ClientException || c == ServerException))
  }

  /** What the probe of the extension server did. */
  datatype ProbeOutcome = Reachable | Threw(cls: ExceptionClass, message: string)

  /** The catch clauses around the probe, in source order. */
  const CATCH_ORDER: seq<ExceptionClass> := [ClientException, ServerException, RequestException, GenericException]

  /** The clause PHP runs for an exception of class `c`: the first in `handlers` that `c` is an instance of. */
  function FirstCatch(handlers: seq<ExceptionClass>, c: ExceptionClass): (r: Option<ExceptionClass>)
    ensures r.Some? ==> r.value in handlers && InstanceOf(c, r.value)
    ensures r.None? ==> forall k :: 0 <= k < |handlers| ==> !InstanceOf(c, handlers[k])
  {
    if handlers == [] then None
    else if InstanceOf(c, handlers[0]) then Some(handlers[0])
    else FirstCatch(handlers[1..], c)
  }

  /** The clause that runs is the first that matches: no earlier clause catches the exception. */
  lemma {:induction false} FirstCatchIsFirst(handlers: seq<ExceptionClass>, c: ExceptionClass, k: nat)
    requires k < |handlers| && InstanceOf(c, handlers[k])
    requires forall j :: 0 <= j < k ==> !InstanceOf(c, handlers[j])
    ensures FirstCatch(handlers, c) == Some(handlers[k])
  {
    if k > 0 {
      FirstCatchIsFirst(handlers[1..], c, k - 1);
    }
  }

  // The two longer texts are written in pieces: the verifier reads the
  // letters of a string literal only up to about forty characters.
  const CLIENT_PREFIX := "Client error: "
  const SERVER_PREFIX := "Extension server returned an error: "
  const REQUEST_PREFIX := "Testing connection to " + "extension server failed: "
  const GENERIC_PREFIX := "Generic failure while " + "testing connection to extension server: "

  /** The message prefix of each catch clause. */
  function Prefix(handler: ExceptionClass): string {
    match handler
    case ClientException => CLIENT_PREFIX
    case ServerException => SERVER_PREFIX
    case RequestException => REQUEST_PREFIX
    case GenericException => GENERIC_PREFIX
  }

  /** The messages the probe adds to the queue: none on success, else the one of the clause that catches it. */
  function ProbeMessages(o: ProbeOutcome): seq<string> {
    match o
    case Reachable => []
    case Threw(c, msg) =>
      match FirstCatch(CATCH_ORDER, c)
      case Some(h) => [Prefix(h) + msg]
      case None => assert InstanceOf(c, CATCH_ORDER[3]); assert false; []
  }

  /** Every exception is caught by the clause of its own class: the specific clauses come first. */
  lemma CatchSelectsOwnClass(c: ExceptionClass)
    ensures FirstCatch(CATCH_ORDER, c) == Some(c)
  {
    assert CATCH_ORDER[1..] == [ServerException, RequestException, GenericException];
    assert CATCH_ORDER[2..] == [RequestException, GenericException];
  }

  /** Listing `RequestException` first would swallow client and server errors under the general message. */
  lemma GeneralFirstMisroutes(c: ExceptionClass)
    requires c == ClientException || c == ServerException
    ensures FirstCatch([RequestException, ClientException, ServerException, GenericException], c) == Some(RequestException)
  {
  }

  /**
   * A probe adds at most one message, and adds one exactly when it threw; that
   * message is the prefix of the exception's own class followed by its message.
   */
  lemma ProbeMessagesClassified(o: ProbeOutcome)
    ensures |ProbeMessages(o)| <= 1
    ensures |ProbeMessages(o)| == 1 <==> o.Threw?
    ensures o.Threw? ==> ProbeMessages(o) == [Prefix(o.cls) + o.message]
  {
    if o.Threw? {
      CatchSelectsOwnClass(o.cls);
    }
  }

  predicate StartsWith(s: string, p: string) {
    |p| <= |s| && s[..|p|] == p
  }

  /** Reads a queued message back into the class of the clause that wrote it and the exception message. */
  function ParseMessage(m: string): Option<(ExceptionClass, string)> {
    if StartsWith(m, CLIENT_PREFIX) then Some((ClientException, m[|CLIENT_PREFIX|..]))
    else if StartsWith(m, SERVER_PREFIX) then Some((ServerException, m[|SERVER_PREFIX|..]))
    else if StartsWith(m, REQUEST_PREFIX) then Some((RequestException, m[|REQUEST_PREFIX|..]))
    else if StartsWith(m, GENERIC_PREFIX) then Some((GenericException, m[|GENERIC_PREFIX|..]))
    else None
  }

  /** A message that starts with one prefix starts with no other: the prefixes begin with different letters. */
  lemma PrefixesExclusive(h: ExceptionClass, other: ExceptionClass, msg: string)
    requires h != other
    ensures !StartsWith(Prefix(h) + msg, Prefix(other))
  {
    var m := Prefix(h) + msg;
    assert CLIENT_PREFIX[0] == 'C' && SERVER_PREFIX[0] == 'E' && REQUEST_PREFIX[0] == 'T' && GENERIC_PREFIX[0] == 'G';
  }

  /** A queued message reads back as the class of the clause that wrote it and the exception message. */
  lemma ParseWritten(h: ExceptionClass, msg: string)
    ensures ParseMessage(Prefix(h) + msg) == Some((h, msg))
  {
    var w := Prefix(h) + msg;
    assert StartsWith(w, Prefix(h)) by {
      assert w[..|Prefix(h)|] == Prefix(h);
    }
    assert w[|Prefix(h)|..] == msg;
    if h != ClientException { PrefixesExclusive(h, ClientException, msg); }
    if h != ServerException { PrefixesExclusive(h, ServerException, msg); }
    if h != RequestException { PrefixesExclusive(h, RequestException, msg); }
  }

  /** Only messages written by some clause read back. */
  lemma ParsedWasWritten(m: string)
    requires ParseMessage(m).Some?
    ensures m == Prefix(ParseMessage(m).value.0) + ParseMessage(m).value.1
  {
    var p := Prefix(ParseMessage(m).value.0);
    assert m == m[..|p|] + m[|p|..];
  }
}
