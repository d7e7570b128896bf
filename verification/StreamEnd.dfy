/**
  What a finished event stream has left undelivered, over every schedule of the reader and the
  publisher: the end of `generate` in app/api/vibe_routes.py.
 */
module StreamEnd {
  import opened Prelude
  import opened EventStream

  // How much of the log the reader's last fetch saw.
  function Looked(actions: seq<Action>, maxEmpty: nat): nat {
    if actions == [] then 0
    else
      var s := Run(Front(actions), maxEmpty);
      if Last(actions) == Fetch && s.phase == AtTop && s.emptyPolls < maxEmpty then |s.log|
      else Looked(Front(actions), maxEmpty)
  }

  // Everything the stream owes its client: up to and including the first terminal event.
  function Owed(log: seq<Event>): (r: seq<Event>)
    ensures r <= log
  {
    log[..DeliverableTo(log, 0)]
  }

  // How the reader's position relates to what it has looked at.
  ghost predicate LookInv(s: Stream, looked: nat, maxEmpty: nat) {
    && looked <= |s.log|
    && s.seen <= looked
    && (s.phase == Draining ==>
          s.emptyPolls < maxEmpty && s.seen + |s.pending| <= looked && (s.fetchedNone ==> s.seen == looked))
    && (s.phase == AtTop && s.emptyPolls >= maxEmpty ==> s.seen == looked)
    && (s.phase == Stopped ==> (s.emitted != [] && Terminal(Last(s.emitted))) || s.seen == looked)
  }

  lemma FetchedSlice(s: Stream)
    requires s.seen <= |s.log|
    ensures var batch := GetEvents(s.log, None, s.seen, BATCH);
            s.seen + |batch| <= |s.log| && (batch == [] ==> s.seen == |s.log|)
  {
  }

  lemma StepKeepsLook(s: Stream, a: Action, looked: nat, maxEmpty: nat)
    requires LookInv(s, looked, maxEmpty)
    ensures var looked' := if a == Fetch && s.phase == AtTop && s.emptyPolls < maxEmpty then |s.log| else looked;
            LookInv(Step(s, a, maxEmpty), looked', maxEmpty)
  {
    if a == Fetch {
      FetchedSlice(s);
    }
    hide GetEvents, Terminal;
  }

  lemma {:induction false} RunKeepsLook(actions: seq<Action>, maxEmpty: nat)
    ensures LookInv(Run(actions, maxEmpty), Looked(actions, maxEmpty), maxEmpty)
  {
    if actions != [] {
      RunKeepsLook(Front(actions), maxEmpty);
      StepKeepsLook(Run(Front(actions), maxEmpty), Last(actions), Looked(Front(actions), maxEmpty), maxEmpty);
      hide LookInv, Step;
    }
  }

  lemma {:induction false} OwedWithTerminal(log: seq<Event>, from: nat, n: nat)
    requires from < n <= |log| && Terminal(log[n - 1]) && forall i :: from <= i < n - 1 ==> !Terminal(log[i])
    ensures DeliverableTo(log, from) == n
    decreases n - from
  {
    if from < n - 1 {
      OwedWithTerminal(log, from + 1, n);
    }
  }

  lemma {:induction false} OwedWithoutTerminal(log: seq<Event>, from: nat, n: nat)
    requires from <= n <= |log| && forall i :: from <= i < n ==> !Terminal(log[i])
    ensures DeliverableTo(log, from) >= n
    ensures DeliverableTo(log, from) == n <==> n == |log|
    decreases n - from
  {
    if from < n {
      OwedWithoutTerminal(log, from + 1, n);
    }
  }

  // Over every schedule: a stopped stream has yielded exactly what it owed of the log it last
  // looked at. So it leaves owed events behind if and only if it saw no terminal event and
  // something was published after its last fetch.
  lemma StoppedExactly(actions: seq<Action>, maxEmpty: nat)
    requires Run(actions, maxEmpty).phase == Stopped
    ensures var s, looked := Run(actions, maxEmpty), Looked(actions, maxEmpty);
            && looked <= |s.log|
            && s.emitted == Owed(s.log[..looked])
            && (s.emitted != Owed(s.log) <==>
                  looked < |s.log| && forall i :: 0 <= i < looked ==> !Terminal(s.log[i]))
  {
    var s, looked := Run(actions, maxEmpty), Looked(actions, maxEmpty);
    EachEventOnceInOrder(actions, maxEmpty);
    RunKeepsLook(actions, maxEmpty);
    hide Run, Looked;
    var head, n := s.log[..looked], s.seen;
    assert n == |s.emitted| && s.emitted == s.log[..n] == head[..n];
    forall i | 0 <= i < n
      ensures s.emitted[i] == s.log[i] == head[i]
    {
    }
    if n > 0 && Terminal(s.emitted[n - 1]) {
      OwedWithTerminal(head, 0, n);
      OwedWithTerminal(s.log, 0, n);
    } else {
      OwedWithoutTerminal(head, 0, n);
      OwedWithoutTerminal(s.log, 0, n);
    }
  }

  // An event published when the reader is at most one empty poll away from giving up.
  ghost predicate LateAppend(actions: seq<Action>, maxEmpty: nat) {
    exists i :: 0 <= i < |actions| && actions[i].Append? && Run(actions[..i], maxEmpty).emptyPolls + 1 >= maxEmpty
  }

  ghost predicate UpToDate(s: Stream, looked: nat, maxEmpty: nat) {
    && (s.emptyPolls >= maxEmpty ==> looked == |s.log|)
    && (s.emptyPolls + 1 >= maxEmpty && s.phase == Draining ==> looked == |s.log|)
  }

  lemma LateAppendGrows(actions: seq<Action>, maxEmpty: nat)
    requires actions != []
    ensures LateAppend(Front(actions), maxEmpty) ==> LateAppend(actions, maxEmpty)
    ensures Last(actions).Append? && Run(Front(actions), maxEmpty).emptyPolls + 1 >= maxEmpty ==> LateAppend(actions, maxEmpty)
  {
    hide Run;
    if LateAppend(Front(actions), maxEmpty) {
      var i :| 0 <= i < |actions| - 1 && Front(actions)[i].Append?
               && Run(Front(actions)[..i], maxEmpty).emptyPolls + 1 >= maxEmpty;
      assert Front(actions)[..i] == actions[..i] && actions[i].Append?;
    }
    assert actions[..|actions| - 1] == Front(actions);
  }

  lemma {:induction false} StaysUpToDate(actions: seq<Action>, maxEmpty: nat)
    requires !LateAppend(actions, maxEmpty)
    ensures UpToDate(Run(actions, maxEmpty), Looked(actions, maxEmpty), maxEmpty)
  {
    if actions != [] {
      LateAppendGrows(actions, maxEmpty);
      StaysUpToDate(Front(actions), maxEmpty);
      RunKeepsLook(Front(actions), maxEmpty);
      hide LateAppend, GetEvents, Terminal;
    }
  }

  // A stream that leaves owed events behind had one published during its last quiet poll or later.
  lemma MissedWasLate(actions: seq<Action>, maxEmpty: nat)
    requires Run(actions, maxEmpty).phase == Stopped && !LateAppend(actions, maxEmpty)
    ensures Run(actions, maxEmpty).emitted == Owed(Run(actions, maxEmpty).log)
  {
    StaysUpToDate(actions, maxEmpty);
    StoppedExactly(actions, maxEmpty);
    EachEventOnceInOrder(actions, maxEmpty);
    RunKeepsLook(actions, maxEmpty);
    hide Run, Looked, LateAppend;
    var s, looked := Run(actions, maxEmpty), Looked(actions, maxEmpty);
    if s.emptyPolls < maxEmpty {
      assert s.seen <= looked && Terminal(s.log[s.seen - 1]);
    }
  }

  // Nothing is published once a poll has been told that the run is over.
  ghost predicate QuietOnceOver(actions: seq<Action>) {
    forall i, j :: 0 <= i < j < |actions| && actions[i] == EndPoll(true) ==> !actions[j].Append?
  }

  lemma {:induction false} CountedPollsWereOver(actions: seq<Action>, maxEmpty: nat)
    requires Run(actions, maxEmpty).emptyPolls > 0
    ensures EndPoll(true) in actions
  {
    hide GetEvents, Terminal;
    if Run(Front(actions), maxEmpty).emptyPolls > 0 {
      CountedPollsWereOver(Front(actions), maxEmpty);
    }
  }

  // If the run is reported over only after its last event, two empty polls are enough: whatever
  // the schedule, a stopped stream has delivered everything it owed.
  lemma QuietRunsAreComplete(actions: seq<Action>, maxEmpty: nat)
    requires maxEmpty >= 2 && QuietOnceOver(actions)
    requires Run(actions, maxEmpty).phase == Stopped
    ensures Run(actions, maxEmpty).emitted == Owed(Run(actions, maxEmpty).log)
  {
    if LateAppend(actions, maxEmpty) {
      var i :| 0 <= i < |actions| && actions[i].Append? && Run(actions[..i], maxEmpty).emptyPolls + 1 >= maxEmpty;
      CountedPollsWereOver(actions[..i], maxEmpty);
    }
    MissedWasLate(actions, maxEmpty);
  }

  function EmptyPolls(n: nat): seq<Action> {
    if n == 0 then [] else EmptyPolls(n - 1) + [Fetch, EndPoll(true)]
  }

  lemma {:induction false} EmptyPollsCount(n: nat, maxEmpty: nat)
    requires n <= maxEmpty
    ensures Run(EmptyPolls(n), maxEmpty) == START.(emptyPolls := n, fetchedNone := n > 0)
  {
    if n > 0 {
      EmptyPollsCount(n - 1, maxEmpty);
      var before := EmptyPolls(n - 1);
      RunTwo(before, Fetch, EndPoll(true), maxEmpty);
    }
  }

  lemma RunTwo(actions: seq<Action>, a: Action, b: Action, maxEmpty: nat)
    ensures Run(actions + [a, b], maxEmpty) == Step(Step(Run(actions, maxEmpty), a, maxEmpty), b, maxEmpty)
  {
    hide Step;
    assert Front(actions + [a, b]) == actions + [a] && Front(actions + [a]) == actions;
  }

  // Without that promise no limit is enough: for every limit, a run reported over before its
  // done event can end the stream with that event undelivered.
  lemma DoneTooLate(maxEmpty: nat) returns (actions: seq<Action>)
    ensures var s := Run(actions, maxEmpty);
            && s.phase == Stopped && s.emitted == [] && s.log == [Event(Done, 0)] && s.emitted != Owed(s.log)
  {
    EmptyPollsCount(maxEmpty, maxEmpty);
    actions := EmptyPolls(maxEmpty) + [Append(Event(Done, 0)), GiveUp];
    RunTwo(EmptyPolls(maxEmpty), Append(Event(Done, 0)), GiveUp, maxEmpty);
    var log := [Event(Done, 0)];
    assert DeliverableTo(log, 0) == 1;
  }

  // And with a limit of one even a quiet run can.
  lemma OneEmptyPollIsTooFew()
    ensures var actions := [Fetch, Append(Event(Done, 0)), EndPoll(true), GiveUp];
            var s := Run(actions, 1);
            && QuietOnceOver(actions)
            && s.phase == Stopped && s.emitted != Owed(s.log)
  {
    var first, last := [Fetch, Append(Event(Done, 0))], [Fetch, Append(Event(Done, 0)), EndPoll(true), GiveUp];
    assert first == [] + [Fetch, Append(Event(Done, 0))] && last == first + [EndPoll(true), GiveUp];
    RunTwo([], Fetch, Append(Event(Done, 0)), 1);
    RunTwo(first, EndPoll(true), GiveUp, 1);
    var log := [Event(Done, 0)];
    assert DeliverableTo(log, 0) == 1;
  }
}
