/** Sessions and samples of a run: which keys a process owns, which sessions a snapshot continues, and
when each session began. */
module Samples {
  import opened Model
  import opened FiniteSums
  import opened TransferAccounting
  import opened TransferTheorems
  import Endpoint

  // ----- One step

  ghost predicate Owns(trace: Trace, pid: uint32, k: string) {
    k in LastRows(trace) && LastRows(trace)[k].connection.processId == pid
  }

  /** A session that the latest snapshot continues. */
  ghost predicate Continues(trace: Trace, pid: uint32, k: string) {
    k in PriorRows(trace) && Owns(trace, pid, k)
  }

  function RemoteOf(row: TransferSnapshot): string {
    Endpoint.FormatEndpoint(row.connection.remoteAddress, row.connection.remotePort)
  }

  /** The remote a session is collected under. */
  ghost function RemoteOfKey(trace: Trace, k: string): string {
    if k in LastRows(trace) then RemoteOf(LastRows(trace)[k]) else ""
  }

  lemma {:induction false} RemoteOfOwned(trace: Trace, pid: uint32, k: string)
    requires Owns(trace, pid, k)
    ensures RemoteOfKey(trace, k) == RemoteOf(LastRows(trace)[k])
  {
  }

  lemma {:induction false} OwnedBefore(trace: Trace, pid: uint32, k: string)
    requires Continues(trace, pid, k)
    ensures trace != Start && Owns(trace.before, pid, k)
  {
    hide FirstRows;
    PriorOwner(trace, k);
  }

  lemma {:induction false} StaysOwned(t: Trace, pid: uint32, k: string)
    requires t != Start && Owns(t.before, pid, k)
    ensures k in LastRows(t) ==> Continues(t, pid, k)
  {
    hide FirstRows;
    if k in LastRows(t) {
      PriorOwner(t, k);
    }
  }

  lemma {:induction false} StartOwnsNothing(trace: Trace, pid: uint32, k: string)
    requires Owns(trace, pid, k)
    ensures trace != Start
  {
  }

  /** The bytes of a session are part of its process's total. */
  lemma {:induction false} SessionInTrace(trace: Trace, pid: uint32, k: string, d: Direction)
    requires Owns(trace, pid, k)
    ensures SessionBytes(trace, k, d) <= TraceBytes(trace, pid, d)
  {
    hide FirstRows, Total, TraceBytes, TransferTheorems.EndedBytes;
    TransferTheorems.Conservation(trace, pid, d);
    TotalRemove(TransferTheorems.SessionsOf(trace, pid, d), k);
  }

  lemma {:induction false} PriorIsLast(trace: Trace)
    requires trace != Start
    ensures PriorRows(trace) == LastRows(trace.before)
  {
  }

  lemma {:induction false} DeltasOf(trace: Trace, pid: uint32, d: Direction, k: string)
    requires trace != Start
    ensures k in StepDeltas(PriorRows(trace), LastRows(trace), pid, d) <==> Continues(trace, pid, k)
    ensures Continues(trace, pid, k) ==>
      SessionBytes(trace, k, d) == SessionBytes(trace.before, k, d)
        + StepDeltas(PriorRows(trace), LastRows(trace), pid, d)[k]
  {
    hide FirstRows;
  }

  lemma {:induction false} UnfoldTraceBytes(trace: Trace, pid: uint32, d: Direction)
    requires trace != Start
    ensures TraceBytes(trace, pid, d)
      == TraceBytes(trace.before, pid, d) + Total(StepDeltas(PriorRows(trace), LastRows(trace), pid, d))
  {
    hide FirstRows, Total;
  }

  // ----- Samples

  /** `v` is an initial part of the run `t`: with a key it names a sample of that key's session. */
  ghost predicate Within(v: Trace, t: Trace) {
    v == t || (t != Start && Within(v, t.before))
  }

  function Length(t: Trace): nat {
    if t == Start then 0 else Length(t.before) + 1
  }

  lemma {:induction false} WithinLength(v: Trace, t: Trace)
    requires Within(v, t)
    ensures Length(v) <= Length(t) && (Length(v) == Length(t) ==> v == t)
  {
    if v != t {
      WithinLength(v, t.before);
    }
  }

  lemma {:induction false} WithinUnique(v: Trace, w: Trace, t: Trace)
    requires Within(v, t) && Within(w, t) && Length(v) == Length(w)
    ensures v == w
  {
    WithinLength(v, t);
    WithinLength(w, t);
    if v != t && w != t {
      WithinUnique(v, w, t.before);
    }
  }

  lemma {:induction false} WithinBefore(v: Trace, t: Trace)
    requires Within(v, t) && v != Start
    ensures Within(v.before, t)
  {
    if v != t {
      WithinBefore(v, t.before);
    } else {
      assert Within(v.before, v.before);
    }
  }

  lemma {:induction false} WithinOrdered(v: Trace, w: Trace, t: Trace)
    requires Within(v, t) && Within(w, t) && Length(v) <= Length(w)
    ensures Within(v, w)
  {
    WithinLength(v, t);
    if w != t {
      if v == t {
        WithinLength(w, t.before);
      }
      WithinOrdered(v, w, t.before);
    }
  }

  lemma {:induction false} WithinTransitive(v: Trace, w: Trace, t: Trace)
    requires Within(v, w) && Within(w, t)
    ensures Within(v, t)
  {
    if w != t {
      WithinTransitive(v, w, t.before);
    }
  }

  /** The length of the run when the current session of a key began: it tells the session from the
  other sessions of the key. */
  ghost function Opening(t: Trace, k: string): nat {
    if k in PriorRows(t) && k in LastRows(t) then Opening(t.before, k) else Length(t)
  }

  lemma {:induction false} OpeningBound(t: Trace, pid: uint32, k: string)
    ensures Opening(t, k) <= Length(t)
    ensures Continues(t, pid, k) ==> Opening(t, k) < Length(t)
  {
    hide FirstRows;
    if k in PriorRows(t) && k in LastRows(t) {
      OpeningBound(t.before, pid, k);
    }
  }

  lemma {:induction false} OpeningContinues(t: Trace, pid: uint32, k: string)
    requires Continues(t, pid, k)
    ensures t != Start && Opening(t, k) == Opening(t.before, k)
  {
    hide FirstRows;
  }

  lemma {:induction false} OpeningStarts(t: Trace, pid: uint32, k: string)
    requires Owns(t, pid, k) && !Continues(t, pid, k)
    ensures Opening(t, k) == Length(t) > 0
    ensures t != Start && Length(t.before) < Length(t)
  {
    hide FirstRows;
  }

  /** Between its opening and its latest sample a session is at every sample. */
  lemma {:induction false} SessionSpans(v: Trace, t: Trace, pid: uint32, k: string)
    requires Within(v, t) && Owns(t, pid, k) && Opening(t, k) <= Length(v)
    ensures Owns(v, pid, k) && Opening(v, k) == Opening(t, k)
    ensures Opening(t, k) < Length(v) ==> Continues(v, pid, k)
    decreases t
  {
    hide FirstRows;
    if v != t {
      WithinLength(v, t.before);
      assert Continues(t, pid, k);
      OwnedBefore(t, pid, k);
      SessionSpans(v, t.before, pid, k);
    }
  }

  ghost predicate SameSession(v: Trace, j: string, w: Trace, k: string) {
    j == k && Opening(v, j) == Opening(w, k)
  }

  lemma {:induction false} ContinuesBetween(v: Trace, w: Trace, pid: uint32, k: string)
    requires Within(v, w) && Continues(v, pid, k) && Owns(w, pid, k) && Opening(v, k) == Opening(w, k)
    ensures Continues(w, pid, k)
  {
    hide FirstRows;
    OpeningBound(v, pid, k);
    WithinLength(v, w);
    if !Continues(w, pid, k) {
      OpeningStarts(w, pid, k);
    }
  }

  /** Past its opening a session continues. */
  lemma {:induction false} LongerContinues(v: Trace, y: Trace, pid: uint32, k: string)
    requires y != Start && Within(v, y.before) && v != y.before && Owns(y.before, pid, k) &&
      Opening(y.before, k) <= Length(v)
    ensures Continues(y.before, pid, k)
  {
    hide FirstRows;
    WithinLength(v, y.before);
  }

  /** The sample is its session's last one in the run. */
  ghost predicate Ends(v: Trace, t: Trace, k: string) {
    forall w | Within(w, t) && w != Start && w.before == v :: k !in LastRows(w)
  }

  lemma {:induction false} NothingAfter(t: Trace)
    ensures forall w | Within(w, t) && w != Start :: w.before != t
  {
    forall w | Within(w, t) && w != Start ensures w.before != t {
      WithinLength(w, t);
    }
  }
}
