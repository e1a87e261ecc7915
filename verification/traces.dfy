/** Finite runs of the polling loop: a sequence of iterations, each with its
    clock reading and what its API call produced, stopped by a crash. */
module Traces {
  import opened Wrappers
  import opened Json
  import opened Api
  import opened Statuses
  import opened Bot

  /** One iteration's inputs. */
  datatype Event = Event(now: int, fetch: Fetch)

  /** After a run: the state if the loop is still going, and every text sent. */
  datatype Trace = Trace(live: Option<State>, sent: seq<string>)

  /** Every text the bot sends is a status notification or a failure report. */
  predicate Sendable(text: string) {
    Header <= text || FailurePrefix <= text
  }

  /** The texts a step sends are all sendable. */
  lemma StepSendsSendable(s: State, now: int, fetch: Fetch)
    ensures forall text :: text in Step(s, now, fetch).sent ==> Sendable(text)
  {
  }

  /** Runs the loop over `events`, stopping at the first crash. */
  function Run(s: State, events: seq<Event>): (t: Trace)
    ensures |t.sent| <= |events|
    ensures forall k :: 0 <= k < |t.sent| ==> Sendable(t.sent[k])
    ensures t.live.None? ==> events != []
    decreases |events|
  {
    if events == [] then Trace(Some(s), [])
    else
      StepSendsSendable(s, events[0].now, events[0].fetch);
      match Step(s, events[0].now, events[0].fetch)
      case Crash(_, sent, _) => Trace(None, sent)
      case Continue(_, next, sent) =>
        var rest := Run(next, events[1..]);
        Trace(rest.live, sent + rest.sent)
  }

  /** A run is still going at its end exactly when none of its outcomes
      could crash an iteration: the loop stops only at a crash. */
  lemma {:induction false} RunLiveIffSurvivable(s: State, events: seq<Event>)
    ensures Run(s, events).live.Some? <==>
      forall k :: 0 <= k < |events| ==> Survivable(events[k].fetch)
    decreases |events|
  {
    if events != [] {
      CrashIffNotSurvivable(s, events[0].now, events[0].fetch);
      var o := Step(s, events[0].now, events[0].fetch);
      if o.Continue? {
        RunLiveIffSurvivable(o.next, events[1..]);
        assert forall k :: 1 <= k < |events| ==> events[k] == events[1..][k - 1];
      }
    }
  }

  /** Every event of `events` carries the same API outcome. */
  predicate Replays(events: seq<Event>, fetch: Fetch) {
    forall k :: 0 <= k < |events| ==> events[k].fetch == fetch
  }

  /** Once an outcome has been handled, replaying it any number of times
      leaves the state where it is and sends nothing. */
  lemma {:induction false} SettledRunIsSilent(s: State, now: int, fetch: Fetch, events: seq<Event>)
    requires Step(s, now, fetch).Continue?
    requires Replays(events, fetch)
    ensures var t := Step(s, now, fetch).next;
      Run(t, events) == Trace(Some(t), [])
    decreases |events|
  {
    var t := Step(s, now, fetch).next;
    if events != [] {
      StepIdempotent(s, now, events[0].now, fetch);
      assert Step(t, events[0].now, events[0].fetch).next == t;
      SettledRunIsSilent(s, now, fetch, events[1..]);
    }
  }

  /** A stalled upstream: however many times in a row the same outcome comes
      back, the bot sends exactly what the first iteration sent, at most one
      text, and ends where the first iteration left it. */
  lemma {:induction false} ReplaySendsOnce(s: State, events: seq<Event>, fetch: Fetch)
    requires events != [] && Replays(events, fetch)
    ensures var o := Step(s, events[0].now, fetch);
      && Run(s, events).sent == o.sent
      && |Run(s, events).sent| <= 1
      && (o.Continue? ==> Run(s, events).live == Some(o.next))
      && (o.Crash? ==> Run(s, events).live == None)
  {
    var o := Step(s, events[0].now, fetch);
    if o.Continue? {
      SettledRunIsSilent(s, events[0].now, fetch, events[1..]);
      assert Run(s, events).sent == o.sent + [];
    }
  }

  /** The same new homework status returned twice in a row is notified once. */
  lemma {:induction false} SameAnswerTwiceNotifiesOnce(s: State, now1: int, now2: int, fetch: Fetch)
    requires Try(fetch).Latest?
    requires var homework := Try(fetch).homework;
      "id" in homework.fields
      && !(PyEq(homework.fields["id"], s.lastId) && PyEq(homework.fields["status"], s.lastStatus))
    ensures Run(s, [Event(now1, fetch), Event(now2, fetch)]).sent == [Try(fetch).text]
  {
    NewPairNotifiedOnce(s, now1, fetch);
    ReplaySendsOnce(s, [Event(now1, fetch), Event(now2, fetch)], fetch);
  }

  /** A persistent failure, however long, is reported at most once, and
      nothing at all if it is the failure last reported. */
  lemma {:induction false} OutageReportedOnce(s: State, events: seq<Event>, fetch: Fetch)
    requires events != [] && Replays(events, fetch)
    requires Try(fetch).Recoverable?
    ensures var text := Report(Try(fetch).failure);
      && Run(s, events).live == Some(s.(lastError := text))
      && Run(s, events).sent == (if text == s.lastError then [] else [text])
  {
    FailureKeepsPosition(s, events[0].now, fetch);
    ReplaySendsOnce(s, events, fetch);
  }

  /** The last error text survives a recovery: a failure, then an iteration
      that neither fails nor crashes, then the same failure again — the third
      iteration sends nothing, because only a failure ever changes the
      stored error text. */
  lemma RecurringOutageNotReportedAgain(s: State, events: seq<Event>)
    requires |events| == 3
    requires Try(events[0].fetch).Recoverable? && events[2].fetch == events[0].fetch
    requires Survivable(events[1].fetch) && !Try(events[1].fetch).Recoverable?
    ensures Run(s, events).live.Some?
    ensures Run(s, events).sent == Run(s, events[..2]).sent
  {
    var e0, e1, e2 := events[0], events[1], events[2];
    FailureKeepsPosition(s, e0.now, e0.fetch);
    var s1 := Step(s, e0.now, e0.fetch).next;
    CrashIffNotSurvivable(s1, e1.now, e1.fetch);
    var s2 := Step(s1, e1.now, e1.fetch).next;
    assert s2.lastError == s1.lastError;
    FailureKeepsPosition(s2, e2.now, e2.fetch);
    assert Step(s2, e2.now, e2.fetch).sent == [];
    var s3 := Step(s2, e2.now, e2.fetch).next;
    var sent0, sent1 := Step(s, e0.now, e0.fetch).sent, Step(s1, e1.now, e1.fetch).sent;
    assert events == [e0, e1, e2] && events[..2] == [e0, e1];
    assert Run(s2, [e2]) == Trace(Some(s3), []) by {
      assert [e2][1..] == [];
    }
    assert Run(s1, [e1, e2]) == Trace(Some(s3), sent1) by {
      assert [e1, e2][1..] == [e2];
    }
    assert Run(s1, [e1]) == Trace(Some(s2), sent1) by {
      assert [e1][1..] == [];
    }
    assert [e0, e1, e2][1..] == [e1, e2] && [e0, e1][1..] == [e1];
    assert Run(s, events) == Trace(Some(s3), sent0 + sent1);
    assert Run(s, events[..2]) == Trace(Some(s2), sent0 + sent1);
  }

  /** Failures only: the cursor and the remembered pair never move, however
      many and whichever failures come. */
  lemma {:induction false} FailuresKeepPosition(s: State, events: seq<Event>)
    requires forall k :: 0 <= k < |events| ==> Try(events[k].fetch).Recoverable?
    ensures Run(s, events).live.Some?
    ensures var t := Run(s, events).live.value;
      t.cursor == s.cursor && t.lastId == s.lastId && t.lastStatus == s.lastStatus
    decreases |events|
  {
    if events != [] {
      FailureKeepsPosition(s, events[0].now, events[0].fetch);
      var next := Step(s, events[0].now, events[0].fetch).next;
      FailuresKeepPosition(next, events[1..]);
    }
  }

  /** What every reachable state satisfies: the remembered status is the
      initial empty string or a vocabulary status, and the last error text
      is empty or a failure report. */
  predicate Consistent(s: State) {
    && (s.lastStatus == Str("") || Known(s.lastStatus))
    && (s.lastError == "" || FailurePrefix <= s.lastError)
  }

  /** Running the loop from a consistent state keeps it consistent. */
  lemma {:induction false} RunKeepsConsistent(s: State, events: seq<Event>)
    requires Consistent(s)
    ensures Run(s, events).live.Some? ==> Consistent(Run(s, events).live.value)
    decreases |events|
  {
    if events != [] {
      var o := Step(s, events[0].now, events[0].fetch);
      if o.Continue? {
        assert Consistent(o.next);
        RunKeepsConsistent(o.next, events[1..]);
      }
    }
  }

  /** The loop starts consistent. */
  lemma InitialConsistent(now: int)
    ensures Consistent(Initial(now))
  {
  }
}
