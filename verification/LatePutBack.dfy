// When a message can be put back after its deadline: the handler looks at the clock
// before it sends, and the send may have to wait.
module LatePutBack {
  import opened FailoverQueue

  lemma {:induction false} RequeuesGrow(q: Queue, events: seq<Event>)
    ensures q.requeues <= Run(q, events).requeues
    decreases |events|
  {
    if events != [] {
      assert q.requeues <= Step(q, events[0]).requeues;
      RequeuesGrow(Step(q, events[0]), events[1..]);
    }
  }

  // The k-th handler decides to retry, and its message, the next one put back,
  // goes back at or after its deadline.
  ghost predicate PutBackLate(q: Queue, k: nat, events: seq<Event>)
    requires k < |q.inflight|
  {
    var r := Run(Finish(q, k, true, true), events).requeues;
    var n := |q.requeues|;
    n < |r| && r[n].msg == q.inflight[k] && q.inflight[k].deadline <= r[n].at
  }

  // A retry decided in time can be sent late if and only if the channel is full
  // when it is decided.
  lemma {:induction false} PutBackLateIff(q: Queue, k: nat)
    requires Ok(q) && k < |q.inflight| && !Locked(q.senders) && Retries(q, q.inflight[k], true, true)
    ensures (exists events: seq<Event> :: PutBackLate(q, k, events)) <==> |q.channel| == CAPACITY
  {
    if |q.channel| == CAPACITY {
      LateWitness(q, k);
    } else {
      forall events: seq<Event>
        ensures !PutBackLate(q, k, events)
      {
        RequeuesGrow(Finish(q, k, true, true), events);
      }
    }
  }

  lemma {:induction false} LateWitness(q: Queue, k: nat)
    requires Ok(q) && k < |q.inflight| && !Locked(q.senders) && Retries(q, q.inflight[k], true, true)
    requires |q.channel| == CAPACITY
    ensures exists events: seq<Event> :: PutBackLate(q, k, events)
  {
    var m, q1 := q.inflight[k], Finish(q, k, true, true);
    var tick, take, send := TickEvent(m.deadline), ConsumeEvent, SendEvent(|q.senders|);
    RunThree(q1, tick, take, send);
    var q2 := Step(Step(q1, tick), take);
    assert q2.senders[|q.senders|] == Sender(m, true, true, q.now);
    assert PutBackLate(q, k, [tick, take, send]);
  }

  lemma {:induction false} RunThree(q: Queue, a: Event, b: Event, c: Event)
    ensures Run(q, [a, b, c]) == Step(Step(Step(q, a), b), c)
  {
    assert [a, b, c][1..] == [b, c] && [b, c][1..] == [c] && [c][1..] == [];
    assert Run(Step(Step(q, a), b), [c]) == Step(Step(Step(q, a), b), c);
  }
}
