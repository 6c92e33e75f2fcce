/** The promises of the flush sequencer, read off the log of any run. */
module FlushTheorems {
  import opened FlushProtocol
  import opened FlushInvariant
  import opened FlushRuns

  // ------------------------------------------------------------------
  // Facts about lawful logs

  lemma {:induction false} BornInside(log: seq<Event>, id: RqId)
    requires PhaseOf(log, id) != Unborn && PhaseOf(log, id) != Wrong
    ensures exists b :: 0 <= b < |log| && log[b].Inserted? && log[b].id == id
  {
    var n := |log| - 1;
    assert log == log[..n] + [log[n]];
    if !(About(log[n], id) && log[n].Inserted?) {
      BornInside(log[..n], id);
      var b :| 0 <= b < n && log[..n][b].Inserted? && log[..n][b].id == id;
      assert log[b] == log[..n][b];
    }
  }

  /** A request's insertion comes before everything else that happens to it. */
  lemma InsertionFirst(log: seq<Event>, id: RqId, a: nat, k: nat)
    requires PhaseOf(log, id) != Wrong
    requires a < |log| && log[a].Inserted? && log[a].id == id
    requires k < |log| && About(log[k], id) && !log[k].Inserted?
    ensures a < k
  {
    assert log[..k + 1] == log[..k] + [log[k]];
    PhaseSnoc(log[..k], log[k], id);
    PhaseForward(log, id, k + 1);
    PhaseForward(log, id, k);
    BornInside(log[..k], id);
    var b :| 0 <= b < k && log[..k][b].Inserted? && log[..k][b].id == id;
    assert log[b] == log[..k][b];
    InsertedOnce(log, id, a);
  }

  /** Phases in which the data of a request is behind it. */
  predicate Written(ph: Phase) {
    ph.After? || ph.Dropped? || ph.Told? || ph.Over? || ph.Wrong?
  }

  lemma {:induction false} WrittenForward(log: seq<Event>, id: RqId, n: nat)
    requires n <= |log| && Written(PhaseOf(log[..n], id))
    ensures Written(PhaseOf(log, id))
    decreases |log| - n
  {
    if n == |log| {
      assert log[..n] == log;
    } else {
      assert log[..n + 1] == log[..n] + [log[n]];
      PhaseSnoc(log[..n], log[n], id);
      WrittenForward(log, id, n + 1);
    }
  }

  /** The data of a request finishes once. */
  lemma WrittenOnce(log: seq<Event>, id: RqId, d: nat, e: nat)
    requires PhaseOf(log, id) != Wrong
    requires d < |log| && log[d].DataDone? && log[d].id == id
    requires e < |log| && log[e].DataDone? && log[e].id == id
    ensures d == e
  {
    if d < e {
      WrittenTwice(log, id, d, e);
    } else if e < d {
      WrittenTwice(log, id, e, d);
    }
  }

  lemma WrittenTwice(log: seq<Event>, id: RqId, d: nat, e: nat)
    requires d < e < |log| && log[d].DataDone? && log[e].DataDone? && log[d].id == id && log[e].id == id
    ensures PhaseOf(log, id) == Wrong
  {
    assert log[..d + 1] == log[..d] + [log[d]];
    PhaseSnoc(log[..d], log[d], id);
    assert log[..e][..d + 1] == log[..d + 1];
    WrittenForward(log[..e], id, d + 1);
    assert log[..e + 1] == log[..e] + [log[e]];
    PhaseSnoc(log[..e], log[e], id);
    PhaseForward(log, id, e + 1);
  }

  /** How often the submitter of a request has been told of its completion. */
  function Tellings(log: seq<Event>, id: RqId): nat {
    if log == [] then 0
    else
      var n := |log| - 1;
      Tellings(log[..n], id) + if log[n].Notified? && log[n].id == id then 1 else 0
  }

  lemma {:induction false} TellingsByPhase(log: seq<Event>, id: RqId)
    requires PhaseOf(log, id) != Wrong
    ensures
      var ph := PhaseOf(log, id);
      Tellings(log, id) == if ph.Told? || (ph.Over? && ph.k.bio) then 1 else 0
    ensures PhaseOf(log, id).Told? ==> PhaseOf(log, id).k.bio
  {
    if log != [] {
      TellingsByPhase(log[..|log| - 1], id);
    }
  }

  /** A postflush between the end of the data and entry k. */
  ghost predicate FlushAfterData(log: seq<Event>, id: RqId, k: nat)
    requires k <= |log|
  {
    exists d, j, l :: 0 <= d < j < l < k && log[d] == DataDone(id, true)
                      && log[j].FlushIssued? && log[l] == FlushDone(log[j].flush, true)
  }

  lemma PostflushInLog(log: seq<Event>, a: nat, k: nat)
    requires a < k < |log| && log[a].Inserted? && log[a].policy.data && log[a].policy.post
    requires log[k] == Notified(log[a].id, true) && Honest(log, k) && Restored(log[a].id) !in log[..k]
    ensures FlushAfterData(log, log[a].id, k)
  {
    var id := log[a].id;
    var h := log[..k];
    assert h[a] == log[a];
    assert WantsPostflush(h, id) && Postflushed(h, id);
    var d :| 0 <= d < |h| && h[d] == DataDone(id, true) && FlushedSince(h, d);
    var j, l :| 0 <= j < l < |h| && d < j && h[j].FlushIssued? && h[l] == FlushDone(h[j].flush, true);
    assert log[d] == h[d] && log[j] == h[j] && log[l] == h[l];
  }

  lemma NoPostflushInLog(log: seq<Event>, id: RqId, k: nat)
    requires k < |log| && PhaseOf(log, id) != Wrong
    requires log[k] == Notified(id, true) && Honest(log, k) && Restored(id) in log[..k]
    ensures !FlushAfterData(log, id, k)
  {
    var h := log[..k];
    assert log[k - 1] == h[k - 1] == DataDone(id, true);
    forall d | 0 <= d < k && log[d] == DataDone(id, true) ensures d == k - 1 {
      WrittenOnce(log, id, d, k - 1);
    }
  }

  lemma SnocHas(log: seq<Event>, e: Event)
    requires log != []
    ensures e in log <==> e in log[..|log| - 1] || e == log[|log| - 1]
  {
    assert log == log[..|log| - 1] + [log[|log| - 1]];
  }

  /** A request is clean exactly if neither a part of its data nor all of it has failed. */
  lemma {:induction false} CleanIff(log: seq<Event>, id: RqId)
    requires PhaseOf(log, id) != Wrong
    ensures
      var ph := PhaseOf(log, id);
      PartDone(id, false) !in log && DataDone(id, false) !in log <==> ph == Unborn || ph.k.clean
    decreases |log|
  {
    if log != [] {
      var n := |log| - 1;
      PhaseForward(log, id, n);
      CleanIff(log[..n], id);
      SnocHas(log, PartDone(id, false));
      SnocHas(log, DataDone(id, false));
    }
  }

  lemma {:induction false} BadWrite(log: seq<Event>, id: RqId)
    requires PhaseOf(log, id).After? && !PhaseOf(log, id).ok
    ensures DataDone(id, false) in log
    decreases |log|
  {
    var n := |log| - 1;
    SnocHas(log, DataDone(id, false));
    if !About(log[n], id) {
      BadWrite(log[..n], id);
    }
  }

  lemma {:induction false} TornOut(log: seq<Event>, id: RqId)
    requires PhaseOf(log, id).Loose? || PhaseOf(log, id).Dropped?
    ensures Restored(id) in log
    decreases |log|
  {
    var n := |log| - 1;
    SnocHas(log, Restored(id));
    if log[n] != Restored(id) {
      TornOut(log[..n], id);
    }
  }

  /** What can go wrong for the request inserted at a. */
  predicate GoesWrong(log: seq<Event>, a: nat, t: nat)
    requires a < |log| && t < |log| && log[a].Inserted?
  {
    var id := log[a].id;
    || log[t] == PartDone(id, false) || log[t] == DataDone(id, false)
    || log[t] == Restored(id) || log[t] == Aborted
    || (log[t].FlushDone? && !log[t].ok && (log[a].policy.pre || log[a].policy.post))
  }

  lemma FoundAfter(log: seq<Event>, a: nat, k: nat, e: Event)
    requires a < |log| && k < |log| && log[a].Inserted? && PhaseOf(log, log[a].id) != Wrong
    requires e in log[..k] && About(e, log[a].id) && !e.Inserted?
    requires e == PartDone(log[a].id, false) || e == DataDone(log[a].id, false) || e == Restored(log[a].id)
    ensures exists t :: a < t < k && GoesWrong(log, a, t)
  {
    var t :| 0 <= t < k && log[..k][t] == e;
    assert log[t] == e;
    InsertionFirst(log, log[a].id, a, t);
    assert GoesWrong(log, a, t);
  }

  lemma FlushFound(log: seq<Event>, a: nat, k: nat, b: nat)
    requires a <= b < k < |log| && log[a].Inserted? && (log[a].policy.pre || log[a].policy.post)
    requires FailedFlush(log[..k], b)
    ensures exists t :: a < t < k && GoesWrong(log, a, t)
  {
    var h := log[..k];
    var j, l :| 0 <= j < l < |h| && b < j && h[j].FlushIssued? && h[l] == FlushDone(h[j].flush, false);
    assert log[l] == h[l] && GoesWrong(log, a, l);
  }

  lemma TroubleFound(log: seq<Event>, a: nat, k: nat)
    requires a < k < |log| && log[a].Inserted? && PhaseOf(log, log[a].id) != Wrong
    requires PhaseOf(log[..k], log[a].id) != Wrong && PhaseOf(log[..k], log[a].id) != Unborn
    requires PhaseOf(log[..k], log[a].id).k.policy == log[a].policy
    requires Failed(log[..k], log[a].id)
    ensures exists t :: a < t < k && GoesWrong(log, a, t)
  {
    hide PhaseOf, FailedFlush, GoesWrong;
    var id, h := log[a].id, log[..k];
    var ph := PhaseOf(h, id);
    InsertedOnce(log, id, a);
    CleanIff(h, id);
    if !ph.k.clean {
      FoundAfter(log, a, k, if PartDone(id, false) in h then PartDone(id, false) else DataDone(id, false));
    } else if ph.Loose? || ph.Dropped? {
      TornOut(h, id);
      FoundAfter(log, a, k, Restored(id));
    } else if ph.Before? && PreflushFailed(h, id) && FlushFirst(ph.k.policy) {
      var b :| 0 <= b < |h| && h[b].Inserted? && h[b].id == id && FailedFlush(h, b);
      assert log[b] == h[b];
      FlushFound(log, a, k, b);
    } else if ph.Before? {
      AbortFound(log, a, k);
    } else if !ph.ok {
      BadWrite(h, id);
      FoundAfter(log, a, k, DataDone(id, false));
    } else {
      var d :| 0 <= d < |h| && h[d] == DataDone(id, true) && FailedFlush(h, d);
      assert log[d] == h[d];
      InsertionFirst(log, id, a, d);
      FlushFound(log, a, k, d);
    }
  }

  lemma AbortFound(log: seq<Event>, a: nat, k: nat)
    requires a < k < |log| && log[a].Inserted? && PhaseOf(log, log[a].id) != Wrong
    requires AbortedSince(log[..k], log[a].id)
    ensures exists t :: a < t < k && GoesWrong(log, a, t)
  {
    var id, h := log[a].id, log[..k];
    InsertedOnce(log, id, a);
    var b, t :| 0 <= b < t < |h| && h[b].Inserted? && h[b].id == id && h[t] == Aborted;
    assert log[b] == h[b] && log[t] == h[t] && GoesWrong(log, a, t);
  }

  /** The phase of a request knows the policy it was inserted with. */
  lemma {:induction false} PolicyOf(log: seq<Event>, id: RqId, a: nat)
    requires PhaseOf(log, id) != Wrong && a < |log| && log[a].Inserted? && log[a].id == id
    ensures PhaseOf(log, id) != Unborn && PhaseOf(log, id).k.policy == log[a].policy
    decreases |log|
  {
    var n := |log| - 1;
    assert log == log[..n] + [log[n]];
    PhaseSnoc(log[..n], log[n], id);
    if a < n {
      PhaseForward(log, id, n);
      PolicyOf(log[..n], id, a);
    }
  }

  // ------------------------------------------------------------------
  // Theorems

  /** Every request of every run lives by the automaton: its steps are taken in order and none
      is repeated. No BUG_ON of the sequencer is reachable. */
  lemma LawfulLives(ops: seq<Op>, id: RqId)
    requires Valid(ops)
    ensures PhaseOf(Exec(ops).log, id) != Wrong
    ensures !Exec(ops).bug
  {
    var s := Exec(ops);
    if id in s.rqs {
      assert RqOk(s, id);
    }
  }

  /** Every sequenced request is on exactly the list its current step demands. */
  lemma OnTheRightList(ops: seq<Op>, id: RqId)
    requires Valid(ops) && id in Exec(ops).rqs && Exec(ops).rqs[id].sequenced
    ensures
      var s := Exec(ops);
      var step := CurSeq(s.rqs[id].fseq);
      && step != Done
      && (id in s.data <==> step == Data)
      && (OnQueue(s, id) <==> step != Data)
      && !(id in s.queues[0] && id in s.queues[1])
      && (Req(id) in s.head || Req(id) in s.driver <==> step == Data)
  {
    assert RqOk(Exec(ops), id);
  }

  /** At most one flush is outstanding, and one is exactly when the indices differ. */
  lemma OneFlushAtATime(ops: seq<Op>)
    requires Valid(ops)
    ensures FlightOf(Exec(ops).log) != Broken
    ensures FlightOf(Exec(ops).log).Busy? <==> Exec(ops).pendingIdx != Exec(ops).runningIdx
    ensures FlightOf(Exec(ops).log).Busy? <==> FlushRq in Exec(ops).head || FlushRq in Exec(ops).driver
  {
  }

  /** Data of a request that asked for a preflush is sent only after a flush issued after its
      insertion has completed without error. */
  lemma PreflushBeforeData(ops: seq<Op>, a: nat, k: nat)
    requires Valid(ops)
    requires
      var log := Exec(ops).log;
      && a < |log| && k < |log|
      && log[a].Inserted? && log[a].policy.pre
      && log[k] == DataQueued(log[a].id)
    ensures
      var log := Exec(ops).log;
      exists j, l :: a < j < l < k && log[j].FlushIssued? && log[l] == FlushDone(log[j].flush, true)
  {
    var log := Exec(ops).log;
    FlushPrecedes(ops, a, k);
  }

  /** The same holds of every success reported for it, whether or not it carried data, and of one
      without data that asked for a postflush. */
  lemma PreflushBeforeSuccess(ops: seq<Op>, a: nat, k: nat)
    requires Valid(ops)
    requires
      var log := Exec(ops).log;
      && a < |log| && k < |log|
      && log[a].Inserted? && FlushFirst(log[a].policy)
      && log[k] == Notified(log[a].id, true)
    ensures
      var log := Exec(ops).log;
      exists j, l :: a < j < l < k && log[j].FlushIssued? && log[l] == FlushDone(log[j].flush, true)
  {
    FlushPrecedes(ops, a, k);
  }

  lemma FlushPrecedes(ops: seq<Op>, a: nat, k: nat)
    requires Valid(ops)
    requires
      var log := Exec(ops).log;
      && a < |log| && k < |log|
      && log[a].Inserted? && FlushFirst(log[a].policy)
      && (log[k] == DataQueued(log[a].id) || log[k] == Notified(log[a].id, true))
    ensures
      var log := Exec(ops).log;
      exists j, l :: a < j < l < k && log[j].FlushIssued? && log[l] == FlushDone(log[j].flush, true)
  {
    var log := Exec(ops).log;
    var id := log[a].id;
    LawfulLives(ops, id);
    InsertionFirst(log, id, a, k);
    var h := log[..k];
    assert Honest(log, k) && h[a] == log[a];
    assert FlushedSince(h, a);
    var j, l :| 0 <= j < l < |h| && a < j && h[j].FlushIssued? && h[l] == FlushDone(h[j].flush, true);
    assert log[j] == h[j] && log[l] == h[l];
  }

  /** A request with data that asked for a postflush and is reported successful had a flush issued after
      its data finished and completed without error before the report. This holds exactly when
      no abort took the request out of the sequence. */
  lemma PostflushBeforeSuccess(ops: seq<Op>, a: nat, k: nat)
    requires Valid(ops)
    requires
      var log := Exec(ops).log;
      && a < |log| && k < |log|
      && log[a].Inserted? && log[a].policy.data && log[a].policy.post
      && log[k] == Notified(log[a].id, true)
    ensures
      var log := Exec(ops).log;
      FlushAfterData(log, log[a].id, k) <==> Restored(log[a].id) !in log[..k]
  {
    var log := Exec(ops).log;
    LawfulLives(ops, log[a].id);
    InsertionFirst(log, log[a].id, a, k);
    assert Honest(log, k);
    if Restored(log[a].id) !in log[..k] {
      PostflushInLog(log, a, k);
    } else {
      NoPostflushInLog(log, log[a].id, k);
    }
  }

  /** The submitter is told the truth: success is reported exactly if the last step was one, be it the
      data or a flush, and no part of the data failed; and a failure is never reported unless
      something went wrong after the insertion. */
  lemma ToldTheTruth(ops: seq<Op>, a: nat, k: nat)
    requires Valid(ops)
    requires
      var log := Exec(ops).log;
      a < |log| && k < |log| && log[a].Inserted? && log[k].Notified? && log[k].id == log[a].id
    ensures
      var log := Exec(ops).log;
      var id, h := log[a].id, log[..k];
      && (log[k].ok <==> Deserved(h, id))
      && (log[k].ok ==> PartDone(id, false) !in h && DataDone(id, false) !in h)
      && (!log[k].ok ==> exists t :: a < t < k && GoesWrong(log, a, t))
  {
    hide Exec, PhaseOf, GoesWrong;
    var log := Exec(ops).log;
    var id, h := log[a].id, log[..k];
    LawfulLives(ops, id);
    InsertionFirst(log, id, a, k);
    PhaseForward(log, id, k);
    assert Honest(log, k) && h[a] == log[a];
    PolicyOf(h, id, a);
    CleanIff(h, id);
    if !log[k].ok {
      TroubleFound(log, a, k);
    }
  }

  /** The submitter of a request is told exactly once, and only when the whole sequence is over,
      whatever the outcome: success, data error, flush error or abort. */
  lemma ToldExactlyOnce(ops: seq<Op>, id: RqId)
    requires Valid(ops) && id in Exec(ops).rqs
    ensures
      var s := Exec(ops);
      Tellings(s.log, id) == if s.rqs[id].ended && s.rqs[id].biotail then 1 else 0
  {
    var s := Exec(ops);
    assert RqOk(s, id);
    TellingsByPhase(s.log, id);
  }

}
