/** The run log and the polling reader, in the publishes and the actions alone. */
module EventRules {
  import opened Prelude
  import opened EventStream

  // ------------------------------------------------------------------
  // The log
  // ------------------------------------------------------------------

  ghost predicate Increasing(at: seq<nat>, n: nat) {
    (forall i :: 0 <= i < |at| ==> at[i] < n) && (forall i, j :: 0 <= i < j < |at| ==> at[i] < at[j])
  }

  // Publish n was accepted as event e, under the number it brought or else its own position, dropped
  // publishes counted.
  predicate EntryOf(ps: seq<Publish>, n: nat, e: Event) {
    && n < |ps| && ps[n].wellFormed && e.kind == ps[n].kind
    && e.seq_ == match ps[n].supplied case Some(number) => number case None => n
  }

  predicate Entries(ps: seq<Publish>, log: seq<Event>, at: seq<nat>) {
    |at| == |log| && forall i :: 0 <= i < |log| ==> EntryOf(ps, at[i], log[i])
  }

  // No accepted publish is missing.
  predicate CoversAll(ps: seq<Publish>, at: seq<nat>) {
    forall n :: 0 <= n < |ps| && ps[n].wellFormed ==> n in at
  }

  lemma EntriesGrow(front: seq<Publish>, p: Publish, log: seq<Event>, at: seq<nat>)
    requires Entries(front, log, at)
    ensures Entries(front + [p], log, at)
  {
    forall i | 0 <= i < |log|
      ensures EntryOf(front + [p], at[i], log[i])
    {
      assert EntryOf(front, at[i], log[i]);
    }
  }

  lemma LogStep(ps: seq<Publish>)
    requires ps != []
    ensures var log, before := AfterAll(ps).log, AfterAll(Front(ps)).log;
            if Last(ps).wellFormed then log != [] && Front(log) == before && EntryOf(ps, |ps| - 1, Last(log))
            else log == before
  {
    CounterCounts(Front(ps));
  }

  // The log holds the well-formed publishes, each once and in order.
  lemma {:induction false} LogIs(ps: seq<Publish>) returns (at: seq<nat>)
    ensures Entries(ps, AfterAll(ps).log, at) && Increasing(at, |ps|) && CoversAll(ps, at)
  {
    at := [];
    if ps != [] {
      var front, p := Front(ps), Last(ps);
      assert ps == front + [p];
      at := LogIs(front);
      CounterCounts(front);
      EntriesGrow(front, p, AfterAll(front).log, at);
      LogStep(ps);
      hide EntryOf, AfterAll;
      if p.wellFormed {
        at := at + [|front|];
      }
    }
  }

  // ------------------------------------------------------------------
  // The reader
  // ------------------------------------------------------------------

  // Under any schedule only the last event yielded can be a done or a failure. It stops the stream,
  // and nothing else does but the limit of empty polls.
  lemma StopsAtTheEnd(actions: seq<Action>, maxEmpty: nat)
    ensures var s := Run(actions, maxEmpty);
            var n := |s.emitted|;
            && (forall i :: 0 <= i < n - 1 ==> s.emitted[i].kind == Progress)
            && (s.emptyPolls < maxEmpty ==>
                  (s.phase == Stopped <==> n > 0 && (s.emitted[n - 1].kind == Done || s.emitted[n - 1].kind == Failure)))
  {
    EachEventOnceInOrder(actions, maxEmpty);
    hide Run, Published;
    var s := Run(actions, maxEmpty);
    assert forall i :: 0 <= i < |s.emitted| && Terminal(s.emitted[i]) ==> i == |s.emitted| - 1 && s.phase == Stopped;
  }

  // The reader looks at the store before it waits.
  predicate Fetches(s: Stream, a: Action, maxEmpty: nat) {
    a == Fetch && s.phase == AtTop && s.emptyPolls < maxEmpty
  }

  // A fetch takes the next fifty events, or all that are left.
  lemma FetchReads(s: Stream, maxEmpty: nat)
    requires s.seen <= |s.log| && Fetches(s, Fetch, maxEmpty)
    ensures var s' := Step(s, Fetch, maxEmpty);
            && s'.pending == (if |s.log| - s.seen <= 50 then s.log[s.seen..] else s.log[s.seen..s.seen + 50])
            && s' == s.(pending := s'.pending, fetchedNone := s.seen == |s.log|, phase := Draining)
  {
  }

  // Action i ends a poll that found nothing.
  predicate EmptyPoll(actions: seq<Action>, maxEmpty: nat, i: nat)
    requires i < |actions|
  {
    var s := Run(actions[..i], maxEmpty);
    actions[i].EndPoll? && s.phase == Draining && s.pending == [] && s.fetchedNone
  }

  // Such a poll, told that the run was over, with no later one told that it was not.
  ghost predicate CountsToward(actions: seq<Action>, maxEmpty: nat, i: nat)
    requires i < |actions|
  {
    && EmptyPoll(actions, maxEmpty, i) && actions[i].runIsOver
    && forall j :: i < j < |actions| && EmptyPoll(actions, maxEmpty, j) ==> actions[j].runIsOver
  }

  ghost function CountedPolls(actions: seq<Action>, maxEmpty: nat): set<nat> {
    set i: nat | i < |actions| && CountsToward(actions, maxEmpty, i)
  }

  lemma EmptyPollFront(actions: seq<Action>, maxEmpty: nat, i: nat)
    requires i < |actions| - 1
    ensures EmptyPoll(actions, maxEmpty, i) == EmptyPoll(Front(actions), maxEmpty, i)
  {
    assert Front(actions)[..i] == actions[..i] && Front(actions)[i] == actions[i];
  }

  lemma CountedFront(actions: seq<Action>, maxEmpty: nat)
    requires actions != []
    ensures var n := |actions| - 1;
            CountedPolls(actions, maxEmpty) ==
            if !EmptyPoll(actions, maxEmpty, n) then CountedPolls(Front(actions), maxEmpty)
            else if actions[n].runIsOver then CountedPolls(Front(actions), maxEmpty) + {n}
            else {}
  {
    var n, front := |actions| - 1, Front(actions);
    forall i: nat | i < n
      ensures EmptyPoll(actions, maxEmpty, i) == EmptyPoll(front, maxEmpty, i) && front[i] == actions[i]
    {
      EmptyPollFront(actions, maxEmpty, i);
    }
    hide EmptyPoll;
    forall i: nat | i < n
      ensures CountsToward(actions, maxEmpty, i) <==>
              CountsToward(front, maxEmpty, i) && (EmptyPoll(actions, maxEmpty, n) ==> actions[n].runIsOver)
    {
    }
  }

  lemma PollsStep(actions: seq<Action>, maxEmpty: nat)
    requires actions != []
    ensures var n, polls := |actions| - 1, Run(Front(actions), maxEmpty).emptyPolls;
            Run(actions, maxEmpty).emptyPolls ==
            if !EmptyPoll(actions, maxEmpty, n) then polls else if actions[n].runIsOver then polls + 1 else 0
  {
    assert actions[..|actions| - 1] == Front(actions);
    hide GetEvents;
  }

  // The empty polls the reader counts are those told that the run is over since the last one told
  // otherwise; a poll that found events neither counts nor resets.
  lemma {:induction false} PollsAreCounted(actions: seq<Action>, maxEmpty: nat)
    ensures Run(actions, maxEmpty).emptyPolls == |CountedPolls(actions, maxEmpty)|
  {
    if actions != [] {
      PollsAreCounted(Front(actions), maxEmpty);
      CountedFront(actions, maxEmpty);
      PollsStep(actions, maxEmpty);
      hide Run, EmptyPoll;
    }
  }
}
