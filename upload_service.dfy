/** `UploadService.uploadFile`: the percentage its progress handler writes and
    the way the finished request is classified. The request itself
    (`XMLHttpRequest`, headers, the signed-URL call) is not part of this model. */
module UploadService {
  import opened Common
  import Decimal

  /** What `xhr.upload.onprogress` receives. */
  datatype ProgressEvent = ProgressEvent(lengthComputable: bool, loaded: nat, total: nat)

  /** `Math.round(loaded / total * 100)` on exact values: the integer nearest to
      100 * loaded / total, halves rounded up. */
  function RoundPercent(loaded: nat, total: nat): (p: nat)
    requires total > 0
    ensures 2 * p * total <= 200 * loaded + total < 2 * p * total + 2 * total
  {
    (200 * loaded + total) / (2 * total)
  }

  /** Within a transfer the percentage lies in [0, 100] and is 100 at the end. */
  lemma PercentBounds(loaded: nat, total: nat)
    requires 0 < total && loaded <= total
    ensures RoundPercent(loaded, total) <= 100
    ensures loaded == total ==> RoundPercent(loaded, total) == 100
  {
    var p := RoundPercent(loaded, total);
    assert 2 * p * total < 2 * 101 * total by {
      assert 200 * loaded <= 200 * total;
    }
    MulLessCancel(p, 101, 2 * total);
    if loaded == total {
      assert 2 * 99 * total < 2 * p * total by {
        assert 200 * total + total < 2 * p * total + 2 * total;
      }
      MulLessCancel(99, p, 2 * total);
    }
  }

  /** More bytes sent never means a smaller percentage. */
  lemma PercentMonotone(loaded1: nat, loaded2: nat, total: nat)
    requires 0 < total && loaded1 <= loaded2
    ensures RoundPercent(loaded1, total) <= RoundPercent(loaded2, total)
  {
    var p1, p2 := RoundPercent(loaded1, total), RoundPercent(loaded2, total);
    assert 2 * p1 * total < 2 * (p2 + 1) * total by {
      assert 200 * loaded1 + total <= 200 * loaded2 + total;
    }
    MulLessCancel(p1, p2 + 1, 2 * total);
  }

  lemma MulLessCancel(a: int, b: int, c: int)
    requires c > 0 && a * c < b * c
    ensures a < b
  {
  }

  /** What the handler writes into the progress signal: nothing unless the
      event is length-computable with a known, non-zero total. */
  function ProgressWrite(e: ProgressEvent): Option<nat> {
    if e.lengthComputable && e.total > 0 then Some(RoundPercent(e.loaded, e.total)) else None
  }

  /** The values written during a transfer, in order. */
  function Written(events: seq<ProgressEvent>): seq<nat> {
    if events == [] then []
    else
      var w := ProgressWrite(events[|events| - 1]);
      Written(events[..|events| - 1]) + (if w.Some? then [w.value] else [])
  }

  /** The events of one transfer: one total throughout, a byte count that never
      decreases and never exceeds it. */
  predicate OneTransfer(events: seq<ProgressEvent>) {
    && (forall i :: 0 <= i < |events| ==> events[i].loaded <= events[i].total)
    && (forall i, j :: 0 <= i < j < |events| ==>
          events[i].loaded <= events[j].loaded && events[i].total == events[j].total)
  }

  /** During one transfer the written percentages are non-decreasing and in [0, 100]. */
  lemma {:induction false} WrittenProgressMonotone(events: seq<ProgressEvent>)
    requires OneTransfer(events)
    ensures forall i :: 0 <= i < |Written(events)| ==> Written(events)[i] <= 100
    ensures forall i, j :: 0 <= i < j < |Written(events)| ==> Written(events)[i] <= Written(events)[j]
    ensures events != [] && ProgressWrite(events[|events| - 1]).Some? &&
            events[|events| - 1].loaded == events[|events| - 1].total ==>
              Written(events)[|Written(events)| - 1] == 100
    decreases |events|
  {
    if events != [] {
      var front := events[..|events| - 1];
      var e := events[|events| - 1];
      WrittenProgressMonotone(front);
      var w := ProgressWrite(e);
      if w.Some? {
        PercentBounds(e.loaded, e.total);
        assert Written(events) == Written(front) + [w.value];
        forall i | 0 <= i < |Written(front)| ensures Written(front)[i] <= w.value {
          var k := WrittenFrom(front, i);
          PercentMonotone(front[k].loaded, e.loaded, e.total);
        }
      }
    }
  }

  /** Each written value comes from a length-computable event with a non-zero total. */
  lemma {:induction false} WrittenFrom(events: seq<ProgressEvent>, i: nat) returns (k: nat)
    requires i < |Written(events)|
    ensures k < |events| && events[k].lengthComputable && events[k].total > 0
    ensures Written(events)[i] == RoundPercent(events[k].loaded, events[k].total)
    decreases |events|
  {
    var front := events[..|events| - 1];
    if i < |Written(front)| {
      k := WrittenFrom(front, i);
    } else {
      k := |events| - 1;
    }
  }

  /** How the request ended: `onload` with a status, or `onerror`. */
  datatype Completion = Loaded(status: nat) | NetworkError

  /** How the returned promise settles. */
  datatype Settlement = Resolved | Rejected(message: string)

  const StatusFailurePrefix: string := "Upload failed with status "
  const NetworkErrorMessage: string := "Network error during upload"

  /** Section 15.3 of RFC 9110: the Successful class, status codes 2xx. */
  predicate IsSuccessful(status: nat) {
    status / 100 == 2
  }

  /** `onload` resolves on 200..299 and rejects otherwise; `onerror` rejects. */
  function Settle(c: Completion): (s: Settlement)
    ensures s.Resolved? <==> c.Loaded? && IsSuccessful(c.status)
    ensures c.NetworkError? ==> s == Rejected(NetworkErrorMessage)
    ensures c.Loaded? && !IsSuccessful(c.status) ==>
              s == Rejected(StatusFailurePrefix + Decimal.NatToString(c.status))
  {
    match c
    case Loaded(status) =>
      if 200 <= status < 300 then Resolved
      else Rejected(StatusFailurePrefix + Decimal.NatToString(status))
    case NetworkError => Rejected(NetworkErrorMessage)
  }

  /** A status rejection names the status: the text after the prefix reads back as it. */
  lemma RejectionNamesStatus(status: nat)
    requires !IsSuccessful(status)
    ensures var m := Settle(Loaded(status)).message;
            |m| > |StatusFailurePrefix| && m[..|StatusFailurePrefix|] == StatusFailurePrefix &&
            Decimal.AllDigits(m[|StatusFailurePrefix|..]) &&
            Decimal.DigitsValue(m[|StatusFailurePrefix|..]) == status
  {
    var m := Settle(Loaded(status)).message;
    assert m[|StatusFailurePrefix|..] == Decimal.NatToString(status);
    Decimal.NatToStringRoundTrip(status);
  }
}
