/** The recent public questions list: every trigger fetches the recent
    questions, and every delivered list becomes a single `recent` section
    whose items wrap the questions in order. Errors are not caught. */
module RecentPublicQuestionsViewModel {
  import opened Common
  import PublicQuestionService

  datatype RecentItem<Q> = Recent(question: Q)

  datatype RecentSection<Q> = RecentSection(items: seq<RecentItem<Q>>)

  /** One stream event: a value, or the error that ends the stream. */
  datatype Event<T, E> = Next(value: T) | Failed(error: E)

  /** The questions an item list wraps, in order. */
  function Questions<Q>(items: seq<RecentItem<Q>>): (qs: seq<Q>)
    ensures |qs| == |items|
    decreases |items|
  {
    if |items| == 0 then [] else [items[0].question] + Questions(items[1..])
  }

  /** A delivered list as the output: one section, one item per question. */
  function Sections<Q>(questions: seq<Q>): (sections: seq<RecentSection<Q>>)
    ensures |sections| == 1
    ensures |sections[0].items| == |questions|
    ensures forall i :: 0 <= i < |questions| ==> sections[0].items[i] == Recent(questions[i])
  {
    [RecentSection(seq(|questions|, i requires 0 <= i < |questions| => Recent(questions[i])))]
  }

  /** Unwrapping the section's items gives back the fetched questions,
      unchanged and in order. */
  lemma {:induction false} SectionsKeepQuestions<Q>(questions: seq<Q>)
    ensures Questions(Sections(questions)[0].items) == questions
    decreases |questions|
  {
    if |questions| > 0 {
      var items := Sections(questions)[0].items;
      SectionsKeepQuestions(questions[1..]);
      assert items[1..] == Sections(questions[1..])[0].items;
    }
  }

  /** The output stream for the fetch results in the order they arrive:
      each delivered list is one event of one section; the first failure is
      the last event. */
  function Output<Q, E>(results: seq<Result<seq<Q>, E>>): (out: seq<Event<seq<RecentSection<Q>>, E>>)
    ensures |out| <= |results|
    ensures forall i :: 0 <= i < |out| ==> (out[i].Next? <==> results[i].Ok?)
    ensures forall i :: 0 <= i < |out| && out[i].Next? ==> out[i].value == Sections(results[i].value)
    ensures forall i :: 0 <= i < |out| && out[i].Failed? ==> out[i].error == results[i].error && i == |out| - 1
    decreases |results|
  {
    if |results| == 0 then []
    else match results[0]
      case Err(e) => [Failed(e)]
      case Ok(questions) => [Next(Sections(questions))] + Output(results[1..])
  }

  /** While no fetch fails, every fetch yields exactly one output event. */
  lemma {:induction false} OutputWithoutErrors<Q, E>(results: seq<Result<seq<Q>, E>>)
    requires forall i :: 0 <= i < |results| ==> results[i].Ok?
    ensures |Output(results)| == |results|
    decreases |results|
  {
    if |results| > 0 {
      OutputWithoutErrors(results[1..]);
    }
  }

  /** A failed fetch ends the stream: nothing after it is delivered. */
  lemma {:induction false} OutputStopsAtFailure<Q, E>(results: seq<Result<seq<Q>, E>>, k: nat)
    requires k < |results| && results[k].Err?
    requires forall i :: 0 <= i < k ==> results[i].Ok?
    ensures |Output(results)| == k + 1
    ensures Output(results)[k] == Failed(results[k].error)
    decreases k
  {
    if k > 0 {
      OutputStopsAtFailure(results[1..], k - 1);
    }
  }

  /** What `transform`'s subscription sees, in the order it happens: a
      trigger event, or the result of one of the fetches arriving. */
  datatype Input<Q, E> = Trigger | Arrived(result: Result<seq<Q>, E>)

  /** The requests issued so far, the output so far, and whether the output
      has failed (which disposes the subscription to the trigger). */
  datatype Run<Q, E> = Run(fetches: seq<Request>, out: seq<Event<seq<RecentSection<Q>>, E>>, failed: bool)

  /** The recent-questions request. */
  function RecentRequest(host: string): (req: Request)
    ensures req.verb == Get && req.body == NoBody
    ensures req.url == PublicQuestionService.RecentURL(host)
  {
    Request(Get, PublicQuestionService.RecentURL(host), NoBody)
  }

  /** The number of trigger events. */
  function Triggers<Q, E>(events: seq<Input<Q, E>>): nat
    decreases |events|
  {
    if |events| == 0 then 0
    else Triggers(events[..|events| - 1]) + (if events[|events| - 1].Trigger? then 1 else 0)
  }

  /** The fetch results in the order they arrive. */
  function Arrivals<Q, E>(events: seq<Input<Q, E>>): (rs: seq<Result<seq<Q>, E>>)
    ensures |rs| <= |events|
    decreases |events|
  {
    if |events| == 0 then []
    else Arrivals(events[..|events| - 1]) + (if events[|events| - 1].Arrived? then [events[|events| - 1].result] else [])
  }

  /** The flatMap-and-map chain over the events: each trigger issues one
      recent-questions GET and each arrival is mapped to one output event,
      until a fetch fails; the failure is the output's last event, and from
      then on neither triggers nor arrivals have any effect. */
  function RunOf<Q, E>(host: string, events: seq<Input<Q, E>>): (r: Run<Q, E>)
    ensures r.failed <==> |r.out| > 0 && r.out[|r.out| - 1].Failed?
    ensures forall i :: 0 <= i < |r.fetches| ==> r.fetches[i] == RecentRequest(host)
    ensures |r.fetches| <= Triggers(events)
    decreases |events|
  {
    if |events| == 0 then Run([], [], false)
    else
      var prev := RunOf(host, events[..|events| - 1]);
      if prev.failed then prev
      else match events[|events| - 1]
        case Trigger => prev.(fetches := prev.fetches + [RecentRequest(host)])
        case Arrived(Ok(questions)) => prev.(out := prev.out + [Next(Sections(questions))])
        case Arrived(Err(e)) => prev.(out := prev.out + [Failed(e)], failed := true)
  }

  /** Whether some fetch result among the events is a failure. */
  predicate SomeFailure<Q, E>(events: seq<Input<Q, E>>)
  {
    exists i :: 0 <= i < |events| && events[i].Arrived? && events[i].result.Err?
  }

  /** While no fetch has failed, every trigger event issues exactly one
      request. */
  lemma {:induction false} FetchPerTrigger<Q, E>(host: string, events: seq<Input<Q, E>>)
    requires !SomeFailure(events)
    ensures |RunOf(host, events).fetches| == Triggers(events)
    ensures !RunOf(host, events).failed
    decreases |events|
  {
    if |events| > 0 {
      var prefix := events[..|events| - 1];
      assert !SomeFailure(prefix) by {
        forall i | 0 <= i < |prefix| ensures !(prefix[i].Arrived? && prefix[i].result.Err?) {
          assert prefix[i] == events[i];
        }
      }
      FetchPerTrigger(host, prefix);
      assert !(events[|events| - 1].Arrived? && events[|events| - 1].result.Err?);
    }
  }

  /** After a failure nothing happens any more: whatever events follow, no
      request is issued and no output is sent. */
  lemma {:induction false} NothingAfterFailure<Q, E>(host: string, events: seq<Input<Q, E>>, later: seq<Input<Q, E>>)
    requires RunOf(host, events).failed
    ensures RunOf(host, events + later) == RunOf(host, events)
    decreases |later|
  {
    if |later| > 0 {
      var all := events + later;
      assert all[..|all| - 1] == events + later[..|later| - 1];
      NothingAfterFailure(host, events, later[..|later| - 1]);
    } else {
      assert events + later == events;
    }
  }

  /** A trigger after a failed fetch issues nothing: one request for the
      two triggers. */
  lemma TriggerAfterFailure<Q, E>(host: string, e: E)
    ensures |RunOf<Q, E>(host, [Trigger, Arrived(Err(e)), Trigger]).fetches| == 1
  {
    var one: seq<Input<Q, E>> := [Trigger];
    var two: seq<Input<Q, E>> := [Trigger, Arrived(Err(e))];
    var three: seq<Input<Q, E>> := [Trigger, Arrived(Err(e)), Trigger];
    assert one[..0] == [];
    assert |RunOf(host, one).fetches| == 1 && !RunOf(host, one).failed;
    assert two[..1] == one;
    assert |RunOf(host, two).fetches| == 1 && RunOf(host, two).failed;
    assert three[..2] == two;
  }

  /** One more fetch result: it is appended as an event unless the output
      has already failed. */
  lemma {:induction false} OutputStep<Q, E>(results: seq<Result<seq<Q>, E>>, r: Result<seq<Q>, E>)
    ensures var out := Output(results);
            Output(results + [r]) ==
              if |out| > 0 && out[|out| - 1].Failed? then out
              else out + [if r.Ok? then Next(Sections(r.value)) else Failed(r.error)]
    decreases |results|
  {
    var all := results + [r];
    if |results| > 0 {
      assert all[0] == results[0];
      assert all[1..] == results[1..] + [r];
      if results[0].Ok? {
        OutputStep(results[1..], r);
      }
    }
  }

  /** The output of the run is `Output` over the results in the order they
      arrive. */
  lemma {:induction false} RunOutputIsOutput<Q, E>(host: string, events: seq<Input<Q, E>>)
    ensures RunOf(host, events).out == Output(Arrivals(events))
    decreases |events|
  {
    if |events| > 0 {
      var prefix := events[..|events| - 1];
      var last := events[|events| - 1];
      RunOutputIsOutput(host, prefix);
      if last.Arrived? {
        assert Arrivals(events) == Arrivals(prefix) + [last.result];
        OutputStep(Arrivals(prefix), last.result);
      } else {
        assert Arrivals(events) == Arrivals(prefix) + [];
        assert Arrivals(prefix) + [] == Arrivals(prefix);
      }
    }
  }
}
