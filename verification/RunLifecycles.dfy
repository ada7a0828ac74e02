/**
 The lifecycle in its own words: the states that a legal history goes through, one after another,
 told without the table of permitted transitions.
 */
module RunLifecycles {
  import opened WorkRuns

  /** The states of a history, with repetitions dropped. */
  function Trail(events: seq<Event>): (r: seq<State>)
    ensures events != [] ==> r != [] && r[|r| - 1] == events[|events| - 1].state
  {
    if events == [] then []
    else if |events| == 1 then [events[0].state]
    else
      var front, last := events[..|events| - 1], events[|events| - 1].state;
      if front[|front| - 1].state == last then Trail(front) else Trail(front) + [last]
  }

  /** The working part of a run: approved, executed, then verified, with one correction between two verdicts. */
  function Working(k: nat): State {
    if k == 0 then Approved else if k == 1 then Executing else if k % 2 == 0 then Verifying else Remediating
  }

  predicate AllWorking(states: seq<State>) {
    forall k | 0 <= k < |states| :: states[k] == Working(k)
  }

  /** A stop, or the publication of a verified run and what may come of it. */
  predicate Ending(verified: bool, end: seq<State>) {
    || end == []
    || (|end| == 1 && (end[0] == Blocked || end[0] == Failed || end[0] == Cancelled))
    || (verified && |end| == 1 && end[0] == PublishingDraftPr)
    || (&& verified && |end| == 2 && end[0] == PublishingDraftPr
        && (end[1] == Completed || end[1] == Blocked || end[1] == Failed || end[1] == Cancelled))
  }

  predicate SplitsAt(states: seq<State>, n: nat) {
    && 1 <= n <= |states|
    && AllWorking(states[..n])
    && Ending(states[n - 1].Verifying?, states[n..])
  }

  ghost predicate Lifecycle(states: seq<State>) {
    exists n: nat :: SplitsAt(states, n)
  }

  /** Each state may follow the one before it, from approval on. */
  predicate Stepped(states: seq<State>) {
    states != []
    && var n := |states| - 1;
    if n == 0 then states[0] == Approved else Stepped(states[..n]) && Allowed(states[n - 1], states[n])
  }

  predicate Moving(events: seq<Event>) {
    events != []
    && var n := |events| - 1;
    if n == 0 then events[0].state == Approved
    else Moving(events[..n]) && Moves(events[n - 1].state, events[n].state)
  }

  /** What may be done next depends on the ending so far. */
  lemma EndingGrows(verified: bool, end: seq<State>, next: State)
    requires Ending(verified, end) && end != [] && Allowed(end[|end| - 1], next)
    ensures Ending(verified, end + [next])
  {
  }

  lemma {:induction false} SteppedIsLifecycle(states: seq<State>) returns (n: nat)
    requires Stepped(states)
    ensures SplitsAt(states, n)
  {
    hide Allowed, Ending, Stepped;
    var m := |states| - 1;
    FirstIsApproved(states);
    if m == 0 {
      n := 1;
      assert states[..1] == [Approved] && states[1..] == [];
    } else {
      n := SteppedIsLifecycle(states[..m]);
      var end, last := states[n..m], states[m];
      assert states[..m][..n] == states[..n] && states[..m][n..] == end;
      assert states[n..] == end + [last];
      if end != [] {
        assert end[|end| - 1] == states[m - 1];
        EndingGrows(states[n - 1].Verifying?, end, last);
      } else if last == Working(m) {
        assert states[..m + 1] == states && states[m + 1..] == [];
        n := m + 1;
      } else {
        assert states[..n][n - 1] == Working(n - 1);
        StopsOrPublishes(n - 1, last);
        assert states[n..] == [last];
      }
    }
    EmptyEnding(states[n - 1].Verifying?);
  }

  lemma FirstIsApproved(states: seq<State>)
    requires Stepped(states)
    ensures states != [] && (|states| == 1 ==> states[0] == Approved)
    ensures
      |states| > 1 ==>
        && Stepped(states[..|states| - 1])
        && Allowed(states[|states| - 2], states[|states| - 1])
  {
  }

  lemma EmptyEnding(verified: bool)
    ensures Ending(verified, [])
  {
  }

  lemma StopsOrPublishes(k: nat, next: State)
    requires Allowed(Working(k), next) && next != Working(k + 1)
    ensures Ending(Working(k).Verifying?, [next])
  {
  }

  lemma {:induction false} LifecycleIsStepped(states: seq<State>, n: nat)
    requires SplitsAt(states, n)
    ensures Stepped(states)
    decreases |states|
  {
    hide Ending, Allowed;
    var m := |states| - 1;
    if m > 0 {
      var front := states[..m];
      if n == |states| {
        assert front[..m] == front == states[..n][..m] && front[m..] == [];
        EmptyEnding(front[m - 1].Verifying?);
        LifecycleIsStepped(front, m);
        assert states[..n][m - 1] == Working(m - 1) && states[..n][m] == Working(m);
        WorkingGoesOn(m - 1);
      } else {
        var end := states[n..];
        assert front[..n] == states[..n] && front[n..] == end[..|end| - 1];
        EndingShrinks(states[n - 1], end);
        LifecycleIsStepped(front, n);
        assert states[..n][n - 1] == Working(n - 1);
        WorkingIsOpen(n - 1);
        assert end[|end| - 1] == states[m] && (|end| > 1 ==> end[|end| - 2] == states[m - 1]);
      }
    } else {
      assert states[..n][0] == Working(0);
    }
  }

  lemma WorkingGoesOn(k: nat)
    ensures Allowed(Working(k), Working(k + 1))
  {
  }

  lemma WorkingIsOpen(k: nat)
    ensures !Terminal(Working(k)) && Working(k) != PublishingDraftPr
  {
  }

  lemma EndingShrinks(last: State, end: seq<State>)
    requires Ending(last.Verifying?, end) && end != []
    ensures Ending(last.Verifying?, end[..|end| - 1])
    ensures !Terminal(last) && last != PublishingDraftPr ==>
      Allowed(if |end| == 1 then last else end[|end| - 2], end[|end| - 1])
  {
  }

  lemma {:induction false} TrailOfMoves(events: seq<Event>)
    requires events != []
    ensures Stepped(Trail(events)) <==> Moving(events)
  {
    hide Allowed;
    var n := |events| - 1;
    if n > 0 {
      var front, last := events[..n], events[n].state;
      TrailOfMoves(front);
      var was := Trail(front);
      if events[n - 1].state != last {
        assert Trail(events) == was + [last] && (was + [last])[..|was|] == was;
      }
    }
  }

  predicate Counted(events: seq<Event>) {
    forall i | 0 <= i < |events| :: events[i].sequence == i + 1
  }

  predicate Earlier(events: seq<Event>, i: int)
    requires 0 < i < |events|
  {
    events[i - 1].at <= events[i].at
  }

  predicate Timely(events: seq<Event>) {
    forall i | 0 < i < |events| :: Earlier(events, i)
  }

  lemma {:induction false} HistoryMoves(events: seq<Event>)
    requires events != []
    ensures HistoryOk(events) <==> Counted(events) && Timely(events) && Moving(events)
  {
    hide Moves;
    var n := |events| - 1;
    if n > 0 {
      var front := events[..n];
      HistoryMoves(front);
      assert forall i | 0 < i < n :: Follows(front, i) == Follows(events, i) && Earlier(front, i) == Earlier(events, i);
      if HistoryOk(events) {
        assert Follows(events, n);
        assert HistoryOk(front);
        assert forall i | 0 <= i < n :: front[i] == events[i];
        assert Counted(events);
      }
      if Counted(events) && Timely(events) && Moving(events) {
        assert Earlier(events, n);
        assert Counted(front) && Timely(front);
      }
    }
  }

  /**
   A history is legal exactly when its events are numbered from one, its times do not run
   backwards and the states it goes through are a lifecycle: approved, executed, verified, with
   corrections in between, then published and completed or stopped at any point on the way.
   */
  lemma LegalHistories(events: seq<Event>)
    ensures
      HistoryOk(events)
      <==> events != [] && Counted(events) && Timely(events) && Lifecycle(Trail(events))
  {
    hide HistoryOk, Counted, Timely, Stepped, Moving, SplitsAt;
    if events != [] {
      HistoryMoves(events);
      TrailOfMoves(events);
      if HistoryOk(events) {
        var n := SteppedIsLifecycle(Trail(events));
      }
      if Lifecycle(Trail(events)) {
        var n: nat :| SplitsAt(Trail(events), n);
        LifecycleIsStepped(Trail(events), n);
      }
    } else {
      assert !HistoryOk([]) by { NothingIsNoHistory(); }
    }
  }

  lemma NothingIsNoHistory()
    ensures !HistoryOk([])
  {
  }
}
