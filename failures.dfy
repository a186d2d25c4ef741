/** What a call of the hypervisor plugin can come back with, and which
    failures the retry loop treats as transient. A XenAPI plugin failure
    carries free-form detail lines that are scanned for known markers; any
    other exception is never retried. */
module Failures {
  import opened Strings

  /** A raised exception: the XenAPI `Failure` with its detail lines, or
      any other exception type (`RuntimeError`, ...), named by its type. */
  datatype Failure = XenApiFailure(details: seq<string>) | OtherError(name: string)

  /** What one plugin call gives back: its return value or what it raised. */
  datatype Outcome = Returned(payload: string) | Raised(failure: Failure)

  const RetryableMarker := "RetryableError"
  const TaskSignaledMarker := "task signaled"
  const SignalPrefix := "signal: "

  predicate IsUpperLetter(c: char) {
    'A' <= c <= 'Z'
  }

  /** `signal: ` followed by a signal name starts at position i. */
  predicate SignalNameAt(line: string, i: nat) {
    OccursAt(line, SignalPrefix, i) && i + |SignalPrefix| < |line| && IsUpperLetter(line[i + |SignalPrefix|])
  }

  /** Scans for `signal: <NAME>` from the front of the line. */
  function HasSignalName(line: string): bool
    decreases |line|
  {
    if |line| <= |SignalPrefix| then false
    else (line[..|SignalPrefix|] == SignalPrefix && IsUpperLetter(line[|SignalPrefix|]))
         || HasSignalName(line[1..])
  }

  /** The scan finds a signal name exactly when one occurs somewhere. */
  lemma {:induction false} HasSignalNameIff(line: string)
    ensures HasSignalName(line) <==> exists i: nat :: SignalNameAt(line, i)
    decreases |line|
  {
    var k := |SignalPrefix|;
    if |line| <= k {
      forall i: nat ensures !SignalNameAt(line, i) { }
    } else if line[..k] == SignalPrefix && IsUpperLetter(line[k]) {
      assert SignalNameAt(line, 0);
    } else {
      HasSignalNameIff(line[1..]);
      if HasSignalName(line[1..]) {
        var i: nat :| SignalNameAt(line[1..], i);
        assert line[1..][i..i + k] == line[i + 1..i + 1 + k];
        assert SignalNameAt(line, i + 1);
      } else {
        forall i: nat | SignalNameAt(line, i) ensures false {
          if i > 0 {
            assert line[1..][i - 1..i - 1 + k] == line[i..i + k];
            assert SignalNameAt(line[1..], i - 1);
          }
        }
      }
    }
  }

  /** A detail line that marks the failure as transient. */
  predicate IsRetryableLine(line: string) {
    Contains(line, RetryableMarker) || Contains(line, TaskSignaledMarker) || HasSignalName(line)
  }

  /** Transient failures: a XenAPI failure with a marked detail line. */
  predicate IsRetryable(f: Failure) {
    f.XenApiFailure? && exists line | line in f.details :: IsRetryableLine(line)
  }

  /** A marker, or `signal: ` followed by a name, starts at position i. */
  predicate MarkedAt(line: string, i: nat) {
    OccursAt(line, RetryableMarker, i) || OccursAt(line, TaskSignaledMarker, i) || SignalNameAt(line, i)
  }

  /** The line scan finds a marker exactly when one starts somewhere. */
  lemma RetryableLineIff(line: string)
    ensures IsRetryableLine(line) <==> exists i: nat :: MarkedAt(line, i)
  {
    ContainsIff(line, RetryableMarker);
    ContainsIff(line, TaskSignaledMarker);
    HasSignalNameIff(line);
    if IsRetryableLine(line) {
      if Contains(line, RetryableMarker) {
        var i: nat :| OccursAt(line, RetryableMarker, i);
        assert MarkedAt(line, i);
      } else if Contains(line, TaskSignaledMarker) {
        var i: nat :| OccursAt(line, TaskSignaledMarker, i);
        assert MarkedAt(line, i);
      } else {
        var i: nat :| SignalNameAt(line, i);
        assert MarkedAt(line, i);
      }
    }
  }

  /** The classification stated by positions: a failure is retryable
      exactly when it is a XenAPI failure one of whose detail lines holds a
      marker at some position. */
  lemma RetryableIff(f: Failure)
    ensures IsRetryable(f) <==>
      f.XenApiFailure? && exists k: nat, i: nat :: k < |f.details| && MarkedAt(f.details[k], i)
  {
    if f.XenApiFailure? {
      var d := f.details;
      forall k | 0 <= k < |d|
        ensures IsRetryableLine(d[k]) <==> exists i: nat :: MarkedAt(d[k], i)
      {
        RetryableLineIff(d[k]);
      }
      if IsRetryable(f) {
        var line :| line in d && IsRetryableLine(line);
        var k :| 0 <= k < |d| && d[k] == line;
        var i: nat :| MarkedAt(d[k], i);
        assert k < |d| && MarkedAt(d[k], i);
      } else {
        forall k: nat, i: nat | k < |d| ensures !MarkedAt(d[k], i) {
          assert d[k] in d;
        }
      }
    }
  }

  /** An exception that is not a XenAPI failure is never retried. */
  lemma OtherErrorIsFatal(name: string)
    ensures !IsRetryable(OtherError(name))
  {
  }

  /** A XenAPI failure whose detail lines are all empty is not retried. */
  lemma EmptyDetailsAreFatal(details: seq<string>)
    requires forall k :: 0 <= k < |details| ==> details[k] == ""
    ensures !IsRetryable(XenApiFailure(details))
  {
    forall line | line in details ensures !IsRetryableLine(line) {
      assert line == "";
    }
  }

  /** The detail line `RetryableError` that the tests raise. */
  lemma RetryableErrorLine()
    ensures IsRetryable(XenApiFailure(["", "", "RetryableError", ""]))
  {
    var line := "RetryableError";
    ContainsAt(line, RetryableMarker, 0);
    assert line in ["", "", line, ""];
  }

  /** The detail line `task signaled` that the tests raise. */
  lemma TaskSignaledLine()
    ensures IsRetryable(XenApiFailure(["", "task signaled", "", ""]))
  {
    var line := "task signaled";
    ContainsAt(line, TaskSignaledMarker, 0);
    assert line in ["", line, "", ""];
  }

  /** The detail line `signal: SIGTERM` that the tests raise. */
  lemma SignalLine()
    ensures IsRetryable(XenApiFailure(["", "signal: SIGTERM", "", ""]))
  {
    var line := "signal: SIGTERM";
    assert SignalNameAt(line, 0);
    HasSignalNameIff(line);
    assert line in ["", line, "", ""];
  }
}
