/**
 Handle-value notifications and indications of GattServer: which connections wait for a
 confirmation, and when the callback of a SendNotification call is run.  A pending
 indication, shared by the connections it was sent on, is named by the number of its call.
 */
module Indications {
  const SUCCESS: int := 0
  const ERROR_NONE: int := 0

  datatype Event =
    | Sent(id: nat, conn: int)
    | Returned(id: nat, ok: bool, callback: bool)
    | Confirmed(id: nat, conn: int, status: int)
    | Fired(id: nat, error: int)

  datatype State = State(
    pending: map<int, nat>,
    succeeded: set<nat>,
    withCallback: set<nat>,
    next: nat,
    log: seq<Event>)

  /** `results[i]` is what the HAL answers if the i-th target is sent to. */
  datatype Action =
    | Notify(targets: seq<int>, results: seq<bool>, callback: bool)
    | Confirm(conn: int, status: int)

  const INITIAL: State := State(map[], {}, {}, 0, [])

  /** One turn of the sending loop of SendNotification. */
  function SendOne(s: State, id: nat, conn: int, halOk: bool): State
  {
    if conn in s.pending || !halOk then s else
      s.(pending := s.pending[conn := id], log := s.log + [Sent(id, conn)])
  }

  function SendAll(s: State, id: nat, targets: seq<int>, results: seq<bool>): State
    requires |targets| <= |results|
  {
    if targets == [] then s else
      var n := |targets| - 1;
      SendOne(SendAll(s, id, targets[..n], results), id, targets[n], results[n])
  }

  /** Is some connection still to confirm indication `id`? */
  predicate Waits(pending: map<int, nat>, id: nat)
  {
    exists k | k in pending :: pending[k] == id
  }

  /** SendNotification to the connections of a known device. */
  function Notified(s: State, targets: seq<int>, results: seq<bool>, callback: bool): State
    requires |targets| <= |results|
  {
    var s1 := SendAll(s.(next := s.next + 1), s.next, targets, results);
    s1.(withCallback := if callback then s.withCallback + {s.next} else s.withCallback,
        log := s1.log + [Returned(s.next, Waits(s1.pending, s.next), callback)])
  }

  /** IndicationSentCallback. */
  function ConfirmedBy(s: State, conn: int, status: int): State
  {
    if conn !in s.pending then s else
      var id := s.pending[conn];
      var s1 := s.(pending := s.pending - {conn},
                   succeeded := if status == SUCCESS then s.succeeded + {id} else s.succeeded,
                   log := s.log + [Confirmed(id, conn, status)]);
      if Waits(s1.pending, id) || id !in s.withCallback then s1 else
        s1.(log := s1.log + [Fired(id, if id in s1.succeeded then ERROR_NONE else status)])
  }

  function Next(s: State, a: Action): State
  {
    match a
    case Notify(targets, results, callback) =>
      if |targets| <= |results| then Notified(s, targets, results, callback) else s
    case Confirm(conn, status) => ConfirmedBy(s, conn, status)
  }

  function Run(actions: seq<Action>): State
  {
    if actions == [] then INITIAL else
      var n := |actions| - 1;
      Next(Run(actions[..n]), actions[n])
  }

  // ----- The history, read on its own

  /** The connections that were sent to and have not confirmed since. */
  function Outstanding(log: seq<Event>): map<int, nat>
  {
    if log == [] then map[] else
      var n := |log| - 1;
      After(Outstanding(log[..n]), log[n])
  }

  function After(before: map<int, nat>, e: Event): map<int, nat>
  {
    match e
    case Sent(id, conn) => before[conn := id]
    case Confirmed(_, conn, _) => before - {conn}
    case _ => before
  }

  ghost function SentIds(log: seq<Event>): set<nat>
  {
    if log == [] then {} else
      var n, e := |log| - 1, log[|log| - 1];
      SentIds(log[..n]) + if e.Sent? then {e.id} else {}
  }

  ghost function ReturnedIds(log: seq<Event>): set<nat>
  {
    if log == [] then {} else
      var n, e := |log| - 1, log[|log| - 1];
      ReturnedIds(log[..n]) + if e.Returned? then {e.id} else {}
  }

  ghost function CallbackIds(log: seq<Event>): set<nat>
  {
    if log == [] then {} else
      var n, e := |log| - 1, log[|log| - 1];
      CallbackIds(log[..n]) + if e.Returned? && e.callback then {e.id} else {}
  }

  /** The indications with at least one successful confirmation. */
  ghost function SucceededIds(log: seq<Event>): set<nat>
  {
    if log == [] then {} else
      var n, e := |log| - 1, log[|log| - 1];
      SucceededIds(log[..n]) + if e.Confirmed? && e.status == SUCCESS then {e.id} else {}
  }

  ghost function FiredIds(log: seq<Event>): set<nat>
  {
    if log == [] then {} else
      var n, e := |log| - 1, log[|log| - 1];
      FiredIds(log[..n]) + if e.Fired? then {e.id} else {}
  }

  /** The history ends with the confirmation that leaves an indication with a callback
      no connection to wait for. */
  ghost predicate Owing(log: seq<Event>)
  {
    && log != []
    && var last := log[|log| - 1];
       last.Confirmed? && !Waits(Outstanding(log), last.id) && last.id in CallbackIds(log)
  }

  /** May `e` come right after `past`?  A callback is run exactly when it is owed. */
  ghost predicate Admissible(past: seq<Event>, e: Event)
  {
    && (e.Fired? <==> Owing(past))
    && match e
       case Sent(id, conn) => conn !in Outstanding(past) && id !in ReturnedIds(past)
       case Returned(id, ok, _) => id !in ReturnedIds(past) && (ok <==> id in SentIds(past))
       case Confirmed(id, conn, _) =>
         && conn in Outstanding(past) && Outstanding(past)[conn] == id
         && id in ReturnedIds(past) && id !in FiredIds(past)
       case Fired(id, error) =>
         && id !in FiredIds(past) && id == past[|past| - 1].id
         && error == if id in SucceededIds(past) then ERROR_NONE else past[|past| - 1].status
  }

  ghost predicate HistoryOk(log: seq<Event>)
  {
    log == [] || var n := |log| - 1; HistoryOk(log[..n]) && Admissible(log[..n], log[n])
  }

  // ----- The invariant

  /** The state is a summary of its history. */
  ghost predicate Recorded(s: State)
  {
    && HistoryOk(s.log) && !Owing(s.log)
    && s.pending == Outstanding(s.log)
    && s.succeeded == SucceededIds(s.log)
    && s.withCallback == CallbackIds(s.log)
    && (forall c | c in s.pending :: s.pending[c] in SentIds(s.log) && s.pending[c] !in FiredIds(s.log))
    && FiredIds(s.log) <= ReturnedIds(s.log)
    && (forall id | id in SentIds(s.log) :: id < s.next)
    && (forall id | id in ReturnedIds(s.log) :: id < s.next)
  }

  /** The indications of calls that have returned. */
  ghost predicate Settled(s: State)
  {
    SentIds(s.log) <= ReturnedIds(s.log)
  }

  lemma {:induction false} Append(log: seq<Event>, e: Event)
    ensures Outstanding(log + [e]) == After(Outstanding(log), e)
    ensures SentIds(log + [e]) == SentIds(log) + if e.Sent? then {e.id} else {}
    ensures ReturnedIds(log + [e]) == ReturnedIds(log) + if e.Returned? then {e.id} else {}
    ensures CallbackIds(log + [e]) == CallbackIds(log) + if e.Returned? && e.callback then {e.id} else {}
    ensures FiredIds(log + [e]) == FiredIds(log) + if e.Fired? then {e.id} else {}
    ensures SucceededIds(log + [e]) == SucceededIds(log) + if e.Confirmed? && e.status == SUCCESS then {e.id} else {}
    ensures HistoryOk(log + [e]) <==> HistoryOk(log) && Admissible(log, e)
  {
    var log' := log + [e];
    assert log'[..|log|] == log;
  }

  // ----- Every step keeps it

  lemma {:induction false} SendOneRecorded(s: State, id: nat, conn: int, halOk: bool)
    requires Recorded(s) && id < s.next && id !in ReturnedIds(s.log)
    ensures Recorded(SendOne(s, id, conn, halOk))
  {
    if conn !in s.pending && halOk {
      Append(s.log, Sent(id, conn));
    }
  }

  lemma {:induction false} SendAllRecorded(s: State, id: nat, targets: seq<int>, results: seq<bool>)
    requires |targets| <= |results|
    requires Recorded(s) && id < s.next && id !in ReturnedIds(s.log)
    ensures var s' := SendAll(s, id, targets, results);
            && Recorded(s') && ReturnedIds(s'.log) == ReturnedIds(s.log)
            && SentIds(s'.log) <= SentIds(s.log) + {id}
            && s'.next == s.next && s'.withCallback == s.withCallback
            && (id !in SentIds(s.log) ==> (Waits(s'.pending, id) <==> id in SentIds(s'.log)))
  {
    if targets != [] {
      var n := |targets| - 1;
      SendAllRecorded(s, id, targets[..n], results);
      var s1 := SendAll(s, id, targets[..n], results);
      SendOneRecorded(s1, id, targets[n], results[n]);
      Append(s1.log, Sent(id, targets[n]));
      if targets[n] !in s1.pending && results[n] {
        var s' := SendAll(s, id, targets, results);
        assert targets[n] in s'.pending && s'.pending[targets[n]] == id;
      }
    }
  }

  lemma {:induction false} NotifiedRecorded(s: State, targets: seq<int>, results: seq<bool>, callback: bool)
    requires Recorded(s) && Settled(s) && |targets| <= |results|
    ensures Recorded(Notified(s, targets, results, callback)) && Settled(Notified(s, targets, results, callback))
  {
    var s0 := s.(next := s.next + 1);
    SendAllRecorded(s0, s.next, targets, results);
    var s1 := SendAll(s0, s.next, targets, results);
    ReturnRecorded(s1, s.next, callback);
  }

  lemma {:induction false} ReturnRecorded(s: State, id: nat, callback: bool)
    requires Recorded(s) && id < s.next && id !in ReturnedIds(s.log)
    requires Waits(s.pending, id) <==> id in SentIds(s.log)
    ensures Recorded(s.(withCallback := if callback then s.withCallback + {id} else s.withCallback,
                        log := s.log + [Returned(id, Waits(s.pending, id), callback)]))
    ensures ReturnedIds(s.log + [Returned(id, Waits(s.pending, id), callback)]) == ReturnedIds(s.log) + {id}
    ensures SentIds(s.log + [Returned(id, Waits(s.pending, id), callback)]) == SentIds(s.log)
  {
    Append(s.log, Returned(id, Waits(s.pending, id), callback));
  }

  lemma {:induction false} ConfirmedRecorded(s: State, conn: int, status: int)
    requires Recorded(s) && Settled(s)
    ensures Recorded(ConfirmedBy(s, conn, status)) && Settled(ConfirmedBy(s, conn, status))
  {
    if conn in s.pending {
      var id := s.pending[conn];
      var e := Confirmed(id, conn, status);
      Append(s.log, e);
      var log1 := s.log + [e];
      var error := if id in SucceededIds(log1) then ERROR_NONE else status;
      Append(log1, Fired(id, error));
    }
  }

  lemma {:induction false} RunRecorded(actions: seq<Action>)
    ensures Recorded(Run(actions)) && Settled(Run(actions))
  {
    if actions != [] {
      var n := |actions| - 1;
      RunRecorded(actions[..n]);
      var s := Run(actions[..n]);
      match actions[n]
      case Notify(targets, results, callback) =>
        if |targets| <= |results| { NotifiedRecorded(s, targets, results, callback); }
      case Confirm(conn, status) => ConfirmedRecorded(s, conn, status);
    }
  }

  // ----- Reading a history at a position

  lemma {:induction false} HistoryAt(log: seq<Event>, j: nat)
    requires HistoryOk(log) && j < |log|
    ensures HistoryOk(log[..j]) && Admissible(log[..j], log[j])
  {
    var n := |log| - 1;
    if j < n {
      HistoryAt(log[..n], j);
      assert log[..n][..j] == log[..j];
    }
  }

  lemma {:induction false} InIds(log: seq<Event>, i: nat)
    requires i < |log|
    ensures log[i].Sent? ==> log[i].id in SentIds(log)
    ensures log[i].Returned? ==> log[i].id in ReturnedIds(log) && (log[i].callback ==> log[i].id in CallbackIds(log))
    ensures log[i].Confirmed? && log[i].status == SUCCESS ==> log[i].id in SucceededIds(log)
    ensures log[i].Fired? ==> log[i].id in FiredIds(log)
  {
    var n := |log| - 1;
    if i < n { InIds(log[..n], i); }
  }

  /** A connection waits since its last Sent: nothing in between confirmed it. */
  lemma {:induction false} OutstandingSince(log: seq<Event>, conn: int) returns (i: nat)
    requires conn in Outstanding(log)
    ensures i < |log| && log[i] == Sent(Outstanding(log)[conn], conn)
    ensures forall k | i < k < |log| :: !(log[k].Confirmed? && log[k].conn == conn)
  {
    var n := |log| - 1;
    if log[n].Sent? && log[n].conn == conn {
      i := n;
    } else {
      i := OutstandingSince(log[..n], conn);
      assert log[..n][i] == log[i];
      forall k | i < k < |log| ensures !(log[k].Confirmed? && log[k].conn == conn) {
        if k < n { assert log[..n][k] == log[k]; }
      }
    }
  }

  /** Sent and not confirmed since means outstanding. */
  lemma {:induction false} StillOutstanding(log: seq<Event>, i: nat)
    requires i < |log| && log[i].Sent?
    requires forall k | i < k < |log| :: !(log[k].Confirmed? && log[k].conn == log[i].conn)
    ensures log[i].conn in Outstanding(log)
  {
    var n := |log| - 1;
    if i < n {
      forall k | i < k < n ensures !(log[..n][k].Confirmed? && log[..n][k].conn == log[i].conn) {
        assert log[..n][k] == log[k];
      }
      StillOutstanding(log[..n], i);
    }
  }

  // ----- The theorems, for every run and any HAL results

  /** Two indications on one connection id are separated by a confirmation from it. */
  lemma {:induction false} OneOutstandingPerConnection(actions: seq<Action>, i: nat, j: nat) returns (k: nat)
    requires var log := Run(actions).log;
             i < j < |log| && log[i].Sent? && log[j].Sent? && log[i].conn == log[j].conn
    ensures var log := Run(actions).log; i < k < j && log[k].Confirmed? && log[k].conn == log[j].conn
  {
    RunRecorded(actions);
    var log := Run(actions).log;
    HistoryAt(log, j);
    if forall k | i < k < j :: !(log[k].Confirmed? && log[k].conn == log[i].conn) {
      forall k | i < k < |log[..j]| ensures !(log[..j][k].Confirmed? && log[..j][k].conn == log[i].conn) {
        assert log[..j][k] == log[k];
      }
      StillOutstanding(log[..j], i);
    }
    k :| i < k < j && log[k].Confirmed? && log[k].conn == log[i].conn;
  }

  /** The callback of a call runs at most once. */
  lemma {:induction false} FiresAtMostOnce(actions: seq<Action>, i: nat, j: nat)
    requires var log := Run(actions).log; i < j < |log| && log[i].Fired? && log[j].Fired?
    ensures Run(actions).log[i].id != Run(actions).log[j].id
  {
    RunRecorded(actions);
    var log := Run(actions).log;
    HistoryAt(log, j);
    InIds(log[..j], i);
  }

  /** The event after a confirmation is the callback exactly when that confirmation was the
      last one its indication waited for and there is a callback; the callback then gets
      "no error" if and only if some confirmation succeeded, and else the last status. */
  lemma {:induction false} FiresAtLastConfirmation(actions: seq<Action>, j: nat)
    requires j < |Run(actions).log| && Run(actions).log[j].Confirmed?
    ensures var log := Run(actions).log; var past := log[..j + 1]; var e := log[j];
            && (!Waits(Outstanding(past), e.id) && e.id in CallbackIds(past) <==>
                  j + 1 < |log| && log[j + 1].Fired?)
            && (j + 1 < |log| && log[j + 1].Fired? ==>
                  log[j + 1] == Fired(e.id, if e.id in SucceededIds(past) then ERROR_NONE else e.status))
  {
    RunRecorded(actions);
    var log := Run(actions).log;
    assert log[..|log|] == log;
    if j + 1 < |log| { HistoryAt(log, j + 1); }
  }

  /** Callbacks run at no other point. */
  lemma {:induction false} FiresOnlyAfterConfirmation(actions: seq<Action>, j: nat)
    requires j < |Run(actions).log| && Run(actions).log[j].Fired?
    ensures j > 0 && Run(actions).log[j - 1].Confirmed? && Run(actions).log[j - 1].id == Run(actions).log[j].id
  {
    RunRecorded(actions);
    HistoryAt(Run(actions).log, j);
  }

  /** A call that returned false sent nothing, and its callback never runs. */
  lemma {:induction false} FailedCallNeverFires(actions: seq<Action>, i: nat, j: nat)
    requires var log := Run(actions).log; i < |log| && j < |log| && log[i].Returned? && !log[i].ok
    ensures !(Run(actions).log[j].Sent? && Run(actions).log[j].id == Run(actions).log[i].id)
    ensures !(Run(actions).log[j].Fired? && Run(actions).log[j].id == Run(actions).log[i].id)
  {
    RunRecorded(actions);
    var log := Run(actions).log;
    HistoryAt(log, i);
    NeverSent(log, i, j);
    if log[j].Fired? && log[j].id == log[i].id {
      FiresOnlyAfterConfirmation(actions, j);
      HistoryAt(log, j - 1);
      var k := OutstandingSince(log[..j - 1], log[j - 1].conn);
      NeverSent(log, i, k);
    }
  }

  lemma {:induction false} NeverSent(log: seq<Event>, i: nat, j: nat)
    requires HistoryOk(log) && i < |log| && j < |log| && log[i].Returned? && !log[i].ok
    ensures !(log[j].Sent? && log[j].id == log[i].id)
  {
    HistoryAt(log, i);
    HistoryAt(log, j);
    if j < i { InIds(log[..i], j); }
    if i < j { InIds(log[..j], i); }
  }

  // ----- Which connections a call reaches, and what a confirmation does

  /** Is connection k among the targets with a HAL that accepts? */
  predicate Offered(targets: seq<int>, results: seq<bool>, k: int)
    requires |targets| <= |results|
  {
    exists i | 0 <= i < |targets| :: targets[i] == k && results[i]
  }

  lemma {:induction false} OfferedLast(targets: seq<int>, results: seq<bool>, k: int)
    requires 0 < |targets| <= |results|
    ensures var n := |targets| - 1;
            Offered(targets, results, k) <==> Offered(targets[..n], results, k) || (targets[n] == k && results[n])
  {
    var n := |targets| - 1;
    if Offered(targets[..n], results, k) {
      var i :| 0 <= i < n && targets[..n][i] == k && results[i];
      assert targets[i] == k;
    }
    if Offered(targets, results, k) && !(targets[n] == k && results[n]) {
      var i :| 0 <= i < |targets| && targets[i] == k && results[i];
      assert targets[..n][i] == k;
    }
  }

  lemma {:induction false} SendAllReaches(s: State, id: nat, targets: seq<int>, results: seq<bool>, k: int)
    requires |targets| <= |results|
    ensures var s' := SendAll(s, id, targets, results);
            && (k in s.pending ==> k in s'.pending && s'.pending[k] == s.pending[k])
            && (k !in s.pending ==>
                  (k in s'.pending <==> Offered(targets, results, k)) && (k in s'.pending ==> s'.pending[k] == id))
            && s'.succeeded == s.succeeded && s'.withCallback == s.withCallback && s'.next == s.next
    decreases |targets|
  {
    if targets != [] {
      SendAllReaches(s, id, targets[..|targets| - 1], results, k);
      OfferedLast(targets, results, k);
    }
  }

  /** A notification is sent on exactly the connections of the device that have nothing
      pending and on which the HAL accepts it; those and no others become pending, under the
      number of the call.  The call returns true if and only if there is one. */
  lemma {:induction false} NotifyReaches(actions: seq<Action>, targets: seq<int>, results: seq<bool>, callback: bool)
    requires |targets| <= |results|
    ensures var s := Run(actions); var s' := Next(s, Notify(targets, results, callback)); var id := s.next;
            && s'.next == id + 1 && s'.succeeded == s.succeeded
            && (forall k :: k in s'.pending <==> k in s.pending || Offered(targets, results, k))
            && (forall k | k in s'.pending :: s'.pending[k] == if k in s.pending then s.pending[k] else id)
            && (id in s'.withCallback <==> callback)
            && s'.log != []
            && s'.log[|s'.log| - 1] ==
               Returned(id, exists k :: k !in s.pending && Offered(targets, results, k), callback)
  {
    RunRecorded(actions);
    var s := Run(actions);
    var s0, id := s.(next := s.next + 1), s.next;
    var s1 := SendAll(s0, id, targets, results);
    forall k
      ensures k in s1.pending <==> k in s.pending || Offered(targets, results, k)
      ensures k in s1.pending ==> s1.pending[k] == if k in s.pending then s.pending[k] else id
      ensures s1.withCallback == s.withCallback && s1.succeeded == s.succeeded && s1.next == id + 1
    {
      SendAllReaches(s0, id, targets, results, k);
    }
    ReturnsIfReached(s, s1, targets, results);
    CallbackIsNew(s, id);
  }

  lemma {:induction false} ReturnsIfReached(s: State, s1: State, targets: seq<int>, results: seq<bool>)
    requires |targets| <= |results| && Recorded(s)
    requires forall k :: k in s1.pending <==> k in s.pending || Offered(targets, results, k)
    requires forall k | k in s1.pending :: s1.pending[k] == if k in s.pending then s.pending[k] else s.next
    ensures Waits(s1.pending, s.next) <==> exists k :: k !in s.pending && Offered(targets, results, k)
  {
    forall k | k in s.pending ensures s.pending[k] != s.next { assert s.pending[k] in SentIds(s.log); }
    if k :| k !in s.pending && Offered(targets, results, k) { assert k in s1.pending && s1.pending[k] == s.next; }
  }

  /** No call has the next number yet. */
  lemma {:induction false} CallbackIsNew(s: State, id: nat)
    requires Recorded(s) && id == s.next
    ensures id !in s.withCallback
  {
    CallbacksReturned(s.log);
    assert id !in ReturnedIds(s.log);
  }

  lemma {:induction false} CallbacksReturned(log: seq<Event>)
    ensures CallbackIds(log) <= ReturnedIds(log)
  {
    if log != [] { CallbacksReturned(log[..|log| - 1]); }
  }

  /** A confirmation takes its connection, and no other, off the pending ones and is logged with
      the indication it confirms; an unexpected one changes nothing. */
  lemma {:induction false} ConfirmTakes(s: State, conn: int, status: int)
    ensures var s' := Next(s, Confirm(conn, status));
            if conn !in s.pending then s' == s
            else
              && (forall k :: k in s'.pending <==> k in s.pending && k != conn)
              && (forall k | k in s'.pending :: s'.pending[k] == s.pending[k])
              && |s'.log| > |s.log| && s'.log[|s.log|] == Confirmed(s.pending[conn], conn, status)
              && s'.withCallback == s.withCallback && s'.next == s.next
  {
  }

  // ----- Holders of a shared indication

  ghost function HoldersIn(pending: map<int, nat>, id: nat): set<int>
  {
    set k | k in pending && pending[k] == id
  }

  /** One more holder means one more pointer. */
  lemma {:induction false} OneMoreHolder(before: map<int, nat>, conn: int, id: nat, i: nat)
    requires conn !in before
    ensures |HoldersIn(before[conn := id], i)| == |HoldersIn(before, i)| + if i == id then 1 else 0
  {
    assert HoldersIn(before[conn := id], i) == HoldersIn(before, i) + if i == id then {conn} else {};
  }

  lemma {:induction false} OneHolderLess(before: map<int, nat>, conn: int, i: nat)
    requires conn in before
    ensures |HoldersIn(before, i)| == |HoldersIn(before - {conn}, i)| + if i == before[conn] then 1 else 0
  {
    assert HoldersIn(before, i) == HoldersIn(before - {conn}, i) + if i == before[conn] then {conn} else {};
  }

  lemma {:induction false} NoMembers(s: set<int>)
    requires forall k: int :: k !in s
    ensures s == {}
  {
    assert forall k | k in s :: false;
  }

  lemma {:induction false} NoHolders(pending: map<int, nat>, id: nat)
    ensures |HoldersIn(pending, id)| == 0 <==> !Waits(pending, id)
  {
    if Waits(pending, id) {
      var k :| k in pending && pending[k] == id;
      assert k in HoldersIn(pending, id);
    } else {
      forall k: int ensures k !in HoldersIn(pending, id) {}
      NoMembers(HoldersIn(pending, id));
    }
  }
}
