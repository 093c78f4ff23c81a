// The queue of failover messages: a bounded channel, a set of keys that lets one
// message per address in, handlers in flight that put a message back until its
// deadline, and goroutines that wait to send because the channel is full. A send
// that finds room happens at once; checking and setting a key is one step.
module FailoverQueue {

  const CAPACITY := 1000

  datatype Message = Message(ip: string, key: string, partition: int, deadline: int)

  // A goroutine blocked on a send: `add` for a new message, or, when `back`, a
  // handler that decided at time `since` to put its message back. `locked` says
  // that it holds the lock of the event loop: every handler does, and so does the
  // sentinel listener, but not the reconciler that reports a silent node.
  datatype Sender = Sender(msg: Message, back: bool, locked: bool, since: int)

  // A message put back: when the handler decided it, and when it was sent.
  datatype Requeue = Requeue(msg: Message, decided: int, at: int)

  // `accepted`, `finished` and `requeues` record the past; the code keeps only
  // the rest.
  datatype Queue = Queue(channel: seq<Message>, keys: set<string>, inflight: seq<Message>, senders: seq<Sender>,
                         now: int,
                         accepted: multiset<Message>, finished: multiset<Message>, requeues: seq<Requeue>)

  const EMPTY := Queue([], {}, [], [], 0, multiset{}, multiset{}, [])

  predicate Locked(senders: seq<Sender>) {
    exists k :: 0 <= k < |senders| && senders[k].locked
  }

  // ----- steps -----

  // add: nothing when the address is known. The key is set before the send, which
  // waits while the channel is full; a caller that needs the lock waits for it first.
  function Add(q: Queue, m: Message, locked: bool): (r: Queue) {
    if (locked && Locked(q.senders)) || m.ip in q.keys then q
    else
      var q1 := q.(keys := q.keys + {m.ip}, accepted := q.accepted + multiset{m});
      if |q.channel| < CAPACITY then q1.(channel := q.channel + [m])
      else q1.(senders := q.senders + [Sender(m, false, locked, q.now)])
  }

  // consumer: take the first message and start a handler for it.
  function Consume(q: Queue): (r: Queue) {
    if q.channel == [] then q
    else q.(channel := q.channel[1..], inflight := q.inflight + [q.channel[0]])
  }

  predicate Retries(q: Queue, m: Message, err: bool, requeue: bool) {
    err && q.now < m.deadline && requeue
  }

  // The deferred end of handleFailover for the k-th handler in flight. It needs
  // the lock. Once it has decided to retry it only waits for the send.
  function Finish(q: Queue, k: nat, err: bool, requeue: bool): (r: Queue) {
    if k >= |q.inflight| || Locked(q.senders) then q
    else
      var m := q.inflight[k];
      var q1 := q.(inflight := q.inflight[..k] + q.inflight[k + 1..]);
      if !Retries(q, m, err, requeue) then q1.(keys := q.keys - {m.ip}, finished := q.finished + multiset{m})
      else if |q.channel| < CAPACITY
      then q1.(channel := q.channel + [m], requeues := q.requeues + [Requeue(m, q.now, q.now)])
      else q1.(senders := q.senders + [Sender(m, true, true, q.now)])
  }

  // The k-th waiting goroutine gets its message into the channel. Nobody looks at
  // the deadline again.
  function Send(q: Queue, k: nat): (r: Queue) {
    if k >= |q.senders| || |q.channel| >= CAPACITY then q
    else
      var w := q.senders[k];
      q.(channel := q.channel + [w.msg], senders := q.senders[..k] + q.senders[k + 1..],
         requeues := if w.back then q.requeues + [Requeue(w.msg, w.since, q.now)] else q.requeues)
  }

  function Tick(q: Queue, now: int): (r: Queue) {
    if now <= q.now then q else q.(now := now)
  }

  datatype Event =
    | AddEvent(msg: Message, locked: bool)
    | ConsumeEvent
    | FinishEvent(k: nat, err: bool, requeue: bool)
    | SendEvent(k: nat)
    | TickEvent(now: int)

  function Step(q: Queue, e: Event): (r: Queue) {
    match e
    case AddEvent(m, locked) => Add(q, m, locked)
    case ConsumeEvent => Consume(q)
    case FinishEvent(k, err, requeue) => Finish(q, k, err, requeue)
    case SendEvent(k) => Send(q, k)
    case TickEvent(now) => Tick(q, now)
  }

  function Run(q: Queue, events: seq<Event>): (r: Queue)
    decreases |events|
  {
    if events == [] then q else Run(Step(q, events[0]), events[1..])
  }

  // ----- the queue object -----

  class MessageQueue {
    var channel: seq<Message>
    var keys: set<string>
    var inflight: seq<Message>
    var senders: seq<Sender>
    var now: int
    ghost var accepted: multiset<Message>
    ghost var finished: multiset<Message>
    ghost var requeues: seq<Requeue>

    ghost function State(): (q: Queue)
      reads this
    {
      Queue(channel, keys, inflight, senders, now, accepted, finished, requeues)
    }

    constructor ()
      ensures State() == EMPTY
    {
      channel, keys, inflight, senders, now := [], {}, [], [], 0;
      accepted, finished, requeues := multiset{}, multiset{}, [];
    }

    // `waits` when the caller is left blocked on the send.
    method AddMessage(msg: Message, locked: bool) returns (waits: bool)
      modifies this
      ensures State() == Add(old(State()), msg, locked)
      ensures waits <==> |senders| > |old(senders)|
    {
      waits := false;
      if locked && Locked(senders) {
        return;
      }
      if msg.ip !in keys {
        keys := keys + {msg.ip};
        accepted := accepted + multiset{msg};
        if |channel| < CAPACITY {
          channel := channel + [msg];
        } else {
          senders := senders + [Sender(msg, false, locked, now)];
          waits := true;
        }
      }
    }

    method ConsumeMessage()
      modifies this
      ensures State() == Consume(old(State()))
    {
      if |channel| > 0 {
        var msg := channel[0];
        channel := channel[1..];
        inflight := inflight + [msg];
      }
    }

    method FinishHandler(k: nat, err: bool, requeue: bool) returns (waits: bool)
      requires k < |inflight|
      modifies this
      ensures State() == Finish(old(State()), k, err, requeue)
      ensures waits <==> |senders| > |old(senders)|
    {
      waits := false;
      if Locked(senders) {
        return;
      }
      var msg := inflight[k];
      inflight := inflight[..k] + inflight[k + 1..];
      if err && now < msg.deadline && requeue {
        if |channel| < CAPACITY {
          channel := channel + [msg];
          requeues := requeues + [Requeue(msg, now, now)];
        } else {
          senders := senders + [Sender(msg, true, true, now)];
          waits := true;
        }
        return;
      }
      keys := keys - {msg.ip};
      finished := finished + multiset{msg};
    }

    method SendWaiting(k: nat)
      requires k < |senders|
      modifies this
      ensures State() == Send(old(State()), k)
    {
      if |channel| < CAPACITY {
        var w := senders[k];
        channel := channel + [w.msg];
        senders := senders[..k] + senders[k + 1..];
        requeues := if w.back then requeues + [Requeue(w.msg, w.since, now)] else requeues;
      }
    }
  }

  // ----- safety over every run -----

  function Messages(senders: seq<Sender>): (r: seq<Message>)
    ensures |r| == |senders| && forall k :: 0 <= k < |r| ==> r[k] == senders[k].msg
  {
    seq(|senders|, k requires 0 <= k < |senders| => senders[k].msg)
  }

  // Every message that is queued, in flight or waiting to be sent.
  function Known(q: Queue): (r: seq<Message>) {
    q.channel + q.inflight + Messages(q.senders)
  }

  function Addresses(ms: seq<Message>): (r: set<string>) {
    set k | 0 <= k < |ms| :: ms[k].ip
  }

  predicate OnePerAddress(ms: seq<Message>) {
    forall i, j :: 0 <= i < j < |ms| ==> ms[i].ip != ms[j].ip
  }

  // One message for each key.
  ghost predicate Keyed(keys: set<string>, ms: seq<Message>) {
    keys == Addresses(ms) && OnePerAddress(ms)
  }

  // Whoever waits to put a message back holds the lock and decided in time; at
  // most one goroutine waits with the lock.
  ghost predicate SendersOk(senders: seq<Sender>, now: int) {
    && (forall k :: 0 <= k < |senders| && senders[k].back ==>
          senders[k].locked && senders[k].since < senders[k].msg.deadline && senders[k].since <= now)
    && (forall i, j :: 0 <= i < j < |senders| ==> !(senders[i].locked && senders[j].locked))
  }

  // Every put-back was decided before the deadline.
  ghost predicate RequeuesOk(requeues: seq<Requeue>, now: int) {
    forall i :: 0 <= i < |requeues| ==>
      requeues[i].decided < requeues[i].msg.deadline && requeues[i].decided <= requeues[i].at <= now
  }

  // The keys are the addresses queued, in flight or waiting, one message each;
  // every message accepted is in one of these places or finished, exactly once.
  ghost predicate Ok(q: Queue) {
    Keyed(q.keys, Known(q)) && Accounted(q)
  }

  ghost predicate Balanced(q: Queue) {
    q.accepted == multiset(q.channel) + multiset(q.inflight) + multiset(Messages(q.senders)) + q.finished
  }

  ghost predicate Accounted(q: Queue) {
    && |q.channel| <= CAPACITY && Balanced(q)
    && SendersOk(q.senders, q.now)
    && RequeuesOk(q.requeues, q.now)
  }

  lemma {:induction false} RemoveUnique(a: seq<Message>, m: Message, b: seq<Message>)
    requires OnePerAddress(a + [m] + b)
    ensures OnePerAddress(a + b) && m.ip !in Addresses(a + b)
  {
    var all, rest, n := a + [m] + b, a + b, |a|;
    assert all[n] == m;
    forall i | 0 <= i < |rest|
      ensures rest[i] == all[if i < n then i else i + 1] && rest[i].ip != m.ip
    {
    }
  }

  lemma {:induction false} RemoveAddress(a: seq<Message>, m: Message, b: seq<Message>)
    ensures Addresses(a + [m] + b) == Addresses(a + b) + {m.ip}
  {
    var all, rest, n := a + [m] + b, a + b, |a|;
    assert all[n] == m;
    forall i | 0 <= i < |rest|
      ensures rest[i].ip in Addresses(all)
    {
      assert rest[i] == all[if i < n then i else i + 1];
    }
    forall i | 0 <= i < |all| && i != n
      ensures all[i].ip in Addresses(rest)
    {
      assert all[i] == rest[if i < n then i else i - 1];
    }
  }

  lemma {:induction false} InsertUnique(a: seq<Message>, m: Message, b: seq<Message>)
    requires OnePerAddress(a + b) && m.ip !in Addresses(a + b)
    ensures OnePerAddress(a + [m] + b)
    ensures Addresses(a + [m] + b) == Addresses(a + b) + {m.ip}
  {
    RemoveAddress(a, m, b);
    var all, new', n := a + b, a + [m] + b, |a|;
    assert forall i :: 0 <= i < |all| ==> all[i].ip in Addresses(all);
    forall i | 0 <= i < |new'| && i != n
      ensures new'[i] == all[if i < n then i else i - 1]
    {
    }
  }

  // A message new to the keys comes in, leaves, or changes its place.
  lemma {:induction false} KeyIn(keys: set<string>, ms: seq<Message>, c: seq<Message>, m: Message, d: seq<Message>)
    requires Keyed(keys, ms) && m.ip !in keys && ms == c + d
    ensures Keyed(keys + {m.ip}, c + [m] + d)
  {
    InsertUnique(c, m, d);
  }

  lemma {:induction false} KeyOut(keys: set<string>, ms: seq<Message>, a: seq<Message>, m: Message, b: seq<Message>)
    requires Keyed(keys, ms) && ms == a + [m] + b
    ensures Keyed(keys - {m.ip}, a + b) && m.ip in keys
  {
    RemoveUnique(a, m, b);
    RemoveAddress(a, m, b);
  }

  lemma {:induction false} KeyMove(keys: set<string>, ms: seq<Message>, a: seq<Message>, m: Message, b: seq<Message>,
                                   c: seq<Message>, d: seq<Message>)
    requires Keyed(keys, ms) && ms == a + [m] + b && a + b == c + d
    ensures Keyed(keys, c + [m] + d)
  {
    KeyOut(keys, ms, a, m, b);
    KeyIn(keys - {m.ip}, a + b, c, m, d);
    assert keys - {m.ip} + {m.ip} == keys;
  }

  lemma {:induction false} MessagesSnoc(senders: seq<Sender>, w: Sender)
    ensures Messages(senders + [w]) == Messages(senders) + [w.msg]
  {
  }

  lemma {:induction false} MessagesCut(senders: seq<Sender>, k: nat)
    requires k < |senders|
    ensures Messages(senders) == Messages(senders[..k]) + [senders[k].msg] + Messages(senders[k + 1..])
    ensures Messages(senders[..k] + senders[k + 1..]) == Messages(senders[..k]) + Messages(senders[k + 1..])
  {
  }

  lemma {:induction false} AddKeyed(q: Queue, m: Message, locked: bool)
    requires Keyed(q.keys, Known(q)) && m.ip !in q.keys && !(locked && Locked(q.senders))
    ensures Keyed(Add(q, m, locked).keys, Known(Add(q, m, locked)))
  {
    var waiting := Messages(q.senders);
    var r := Add(q, m, locked);
    if |q.channel| < CAPACITY {
      assert Known(q) == q.channel + (q.inflight + waiting);
      KeyIn(q.keys, Known(q), q.channel, m, q.inflight + waiting);
      assert Known(r) == q.channel + [m] + (q.inflight + waiting);
    } else {
      MessagesSnoc(q.senders, Sender(m, false, locked, q.now));
      assert Known(q) == Known(q) + [];
      KeyIn(q.keys, Known(q), Known(q), m, []);
      assert Known(r) == Known(q) + [m] + [];
    }
  }

  // A goroutine starts to wait; one that holds the lock only when no other does.
  lemma {:induction false} SendersSnoc(senders: seq<Sender>, w: Sender, now: int)
    requires SendersOk(senders, now) && (w.locked ==> !Locked(senders))
    requires w.back ==> w.locked && w.since < w.msg.deadline && w.since <= now
    ensures SendersOk(senders + [w], now)
  {
  }

  lemma {:induction false} AddAccounted(q: Queue, m: Message, locked: bool)
    requires Accounted(q)
    ensures Accounted(Add(q, m, locked))
  {
    if !(locked && Locked(q.senders)) && m.ip !in q.keys && |q.channel| >= CAPACITY {
      MessagesSnoc(q.senders, Sender(m, false, locked, q.now));
      SendersSnoc(q.senders, Sender(m, false, locked, q.now), q.now);
    }
  }

  lemma {:induction false} AddOk(q: Queue, m: Message, locked: bool)
    requires Ok(q)
    ensures Ok(Add(q, m, locked))
  {
    AddAccounted(q, m, locked);
    if !(locked && Locked(q.senders)) && m.ip !in q.keys {
      AddKeyed(q, m, locked);
    }
  }

  lemma {:induction false} ConsumeOk(q: Queue)
    requires Ok(q)
    ensures Ok(Consume(q))
  {
    if q.channel != [] {
      var r, waiting, m, rest := Consume(q), Messages(q.senders), q.channel[0], q.channel[1..];
      assert q.channel == [m] + rest;
      assert Known(q) == [] + [m] + (rest + q.inflight + waiting);
      assert [] + (rest + q.inflight + waiting) == (rest + q.inflight) + waiting;
      KeyMove(q.keys, Known(q), [], m, rest + q.inflight + waiting, rest + q.inflight, waiting);
      assert Known(r) == (rest + q.inflight) + [m] + waiting;
    }
  }

  // Where the k-th message in flight can go.
  lemma {:induction false} TakeOut(q: Queue, k: nat)
    requires Keyed(q.keys, Known(q)) && k < |q.inflight|
    ensures var m, rest, waiting := q.inflight[k], q.inflight[..k] + q.inflight[k + 1..], Messages(q.senders);
            && Keyed(q.keys - {m.ip}, q.channel + rest + waiting)
            && Keyed(q.keys, q.channel + [m] + rest + waiting)
            && Keyed(q.keys, q.channel + rest + (waiting + [m]))
  {
    var m, pre, post, waiting := q.inflight[k], q.inflight[..k], q.inflight[k + 1..], Messages(q.senders);
    var rest := pre + post;
    var a, b := q.channel + pre, post + waiting;
    assert q.inflight == pre + [m] + post;
    assert Known(q) == a + [m] + b;
    KeyOut(q.keys, Known(q), a, m, b);
    assert a + b == q.channel + rest + waiting;
    assert a + b == q.channel + (rest + waiting);
    KeyMove(q.keys, Known(q), a, m, b, q.channel, rest + waiting);
    assert q.channel + [m] + (rest + waiting) == q.channel + [m] + rest + waiting;
    assert a + b == (a + b) + [];
    KeyMove(q.keys, Known(q), a, m, b, a + b, []);
    assert (a + b) + [m] + [] == q.channel + rest + (waiting + [m]);
  }

  lemma {:induction false} FinishKeyed(q: Queue, k: nat, err: bool, requeue: bool)
    requires Keyed(q.keys, Known(q)) && k < |q.inflight| && !Locked(q.senders)
    ensures Keyed(Finish(q, k, err, requeue).keys, Known(Finish(q, k, err, requeue)))
  {
    TakeOut(q, k);
    MessagesSnoc(q.senders, Sender(q.inflight[k], true, true, q.now));
  }

  lemma {:induction false} FinishBalanced(q: Queue, k: nat, err: bool, requeue: bool)
    requires Balanced(q) && k < |q.inflight| && !Locked(q.senders)
    ensures Balanced(Finish(q, k, err, requeue))
  {
    var m, pre, post, waiting := q.inflight[k], q.inflight[..k], q.inflight[k + 1..], Messages(q.senders);
    assert q.inflight == pre + [m] + post;
    if !Retries(q, m, err, requeue) {
      MovedOver([], pre, m, post);
    } else if |q.channel| < CAPACITY {
      MovedOver(q.channel, pre, m, post);
    } else {
      MessagesSnoc(q.senders, Sender(m, true, true, q.now));
      MovedOver(waiting, pre, m, post);
    }
  }

  lemma {:induction false} FinishAccounted(q: Queue, k: nat, err: bool, requeue: bool)
    requires Accounted(q) && k < |q.inflight| && !Locked(q.senders)
    ensures Accounted(Finish(q, k, err, requeue))
  {
    FinishBalanced(q, k, err, requeue);
    var m := q.inflight[k];
    if Retries(q, m, err, requeue) && |q.channel| >= CAPACITY {
      SendersSnoc(q.senders, Sender(m, true, true, q.now), q.now);
    }
  }

  lemma {:induction false} FinishOk(q: Queue, k: nat, err: bool, requeue: bool)
    requires Ok(q)
    ensures Ok(Finish(q, k, err, requeue))
  {
    if k < |q.inflight| && !Locked(q.senders) {
      FinishKeyed(q, k, err, requeue);
      FinishAccounted(q, k, err, requeue);
    }
  }

  lemma {:induction false} SendKeyed(q: Queue, k: nat)
    requires Keyed(q.keys, Known(q)) && k < |q.senders| && |q.channel| < CAPACITY
    ensures Keyed(q.keys, Known(Send(q, k)))
  {
    var m := q.senders[k].msg;
    var pre, post := Messages(q.senders[..k]), Messages(q.senders[k + 1..]);
    MessagesCut(q.senders, k);
    Regroup(q.channel, q.inflight, pre, m, post);
    KeyMove(q.keys, Known(q), q.channel + q.inflight + pre, m, post, q.channel, q.inflight + (pre + post));
  }

  lemma {:induction false} Regroup(channel: seq<Message>, inflight: seq<Message>, pre: seq<Message>, m: Message,
                                   post: seq<Message>)
    ensures channel + inflight + (pre + [m] + post) == channel + inflight + pre + [m] + post
    ensures channel + inflight + pre + post == channel + (inflight + (pre + post))
    ensures channel + [m] + inflight + (pre + post) == channel + [m] + (inflight + (pre + post))
  {
  }

  lemma {:induction false} SendAccounted(q: Queue, k: nat)
    requires Accounted(q) && k < |q.senders| && |q.channel| < CAPACITY
    ensures Accounted(Send(q, k))
  {
    CutSenders(q.senders, k, q.now);
    SendBalanced(q, k);
  }

  lemma {:induction false} SendBalanced(q: Queue, k: nat)
    requires Balanced(q) && k < |q.senders| && |q.channel| < CAPACITY
    ensures Balanced(Send(q, k))
  {
    var m, pre, post := q.senders[k].msg, Messages(q.senders[..k]), Messages(q.senders[k + 1..]);
    MessagesCut(q.senders, k);
    MovedOver(q.channel, pre, m, post);
    Exchange(q.accepted, multiset(q.channel), multiset(Messages(q.senders)), multiset(q.inflight), q.finished,
             multiset(q.channel + [m]), multiset(pre + post));
  }

  // Two of the four places exchange messages.
  lemma {:induction false} Exchange(all: multiset<Message>, a: multiset<Message>, b: multiset<Message>,
                                    c: multiset<Message>, d: multiset<Message>,
                                    newA: multiset<Message>, newB: multiset<Message>)
    requires all == a + c + b + d && newA + newB == a + b
    ensures all == newA + c + newB + d
  {
    assert all == (a + b) + (c + d);
    assert newA + c + newB + d == (newA + newB) + (c + d);
  }

  // A message taken out of one list and appended to another.
  lemma {:induction false} MovedOver(to: seq<Message>, pre: seq<Message>, m: Message, post: seq<Message>)
    ensures multiset(to + [m]) + multiset(pre + post) == multiset(to) + multiset(pre + [m] + post)
  {
    assert multiset(to + [m]) == multiset(to) + multiset{m};
    assert multiset(pre + [m] + post) == multiset(pre + post) + multiset{m};
  }

  lemma {:induction false} SendOk(q: Queue, k: nat)
    requires Ok(q)
    ensures Ok(Send(q, k))
  {
    if k < |q.senders| && |q.channel| < CAPACITY {
      SendKeyed(q, k);
      SendAccounted(q, k);
    }
  }

  lemma {:induction false} CutSenders(senders: seq<Sender>, k: nat, now: int)
    requires SendersOk(senders, now) && k < |senders|
    ensures SendersOk(senders[..k] + senders[k + 1..], now)
  {
    var rest := senders[..k] + senders[k + 1..];
    assert forall i :: 0 <= i < |rest| ==> rest[i] == senders[if i < k then i else i + 1];
  }

  lemma {:induction false} StepOk(q: Queue, e: Event)
    requires Ok(q)
    ensures Ok(Step(q, e))
  {
    match e
    case AddEvent(m, locked) => AddOk(q, m, locked);
    case ConsumeEvent => ConsumeOk(q);
    case FinishEvent(k, err, requeue) => FinishOk(q, k, err, requeue);
    case SendEvent(k) => SendOk(q, k);
    case TickEvent(now) =>
  }

  lemma {:induction false} RunOk(q: Queue, events: seq<Event>)
    requires Ok(q)
    ensures Ok(Run(q, events))
    decreases |events|
  {
    if events != [] {
      StepOk(q, events[0]);
      RunOk(Step(q, events[0]), events[1..]);
    }
  }

  // In every run from an empty queue.
  lemma {:induction false} QueueIsSafe(events: seq<Event>)
    ensures Ok(Run(EMPTY, events))
  {
    assert Known(EMPTY) == [];
    assert Addresses([]) == {};
    RunOk(EMPTY, events);
  }

  // ----- the queue drains -----

  function Work(q: Queue): (n: nat) {
    2 * |q.channel| + |q.inflight| + 3 * |q.senders|
  }

  predicate AllExpired(ms: seq<Message>, now: int) {
    forall i :: 0 <= i < |ms| ==> ms[i].deadline <= now
  }

  // Every deadline has passed.
  ghost predicate Expired(q: Queue) {
    AllExpired(q.channel, q.now) && AllExpired(q.inflight, q.now) && AllExpired(Messages(q.senders), q.now)
  }

  // A step of the consumer, a handler or a waiting goroutine that is not blocked.
  predicate Effective(q: Queue, e: Event) {
    match e
    case ConsumeEvent => q.channel != []
    case FinishEvent(k, _, _) => k < |q.inflight| && !Locked(q.senders)
    case SendEvent(k) => k < |q.senders| && |q.channel| < CAPACITY
    case _ => false
  }

  // Deadlines or not, the queue never gets stuck: while a key is set, the consumer,
  // a waiting goroutine or a handler can take a step.
  lemma {:induction false} NeverStuck(q: Queue)
    requires Ok(q)
    ensures Work(q) > 0 ==>
      Effective(q, ConsumeEvent) || Effective(q, SendEvent(0)) || Effective(q, FinishEvent(0, true, true))
    ensures Work(q) == 0 <==> |q.keys| == 0
  {
    assert |Known(q)| == |q.channel| + |q.inflight| + |q.senders|;
    NoAddress(Known(q));
    assert Locked(q.senders) ==> |q.senders| > 0;
  }

  lemma {:induction false} NoAddress(ms: seq<Message>)
    ensures |ms| == 0 <==> |Addresses(ms)| == 0
  {
    if ms != [] {
      assert ms[0].ip in Addresses(ms);
    } else {
      assert Addresses(ms) == {};
    }
  }

  lemma {:induction false} ExpiredSend(q: Queue, k: nat)
    requires Expired(q) && Effective(q, SendEvent(k))
    ensures Expired(Send(q, k)) && Work(Send(q, k)) == Work(q) - 1
  {
    MessagesCut(q.senders, k);
    assert Messages(q.senders)[k] == q.senders[k].msg;
  }

  lemma {:induction false} ExpiredConsume(q: Queue)
    requires Expired(q) && q.channel != []
    ensures Expired(Consume(q)) && Work(Consume(q)) == Work(q) - 1
  {
  }

  lemma {:induction false} ExpiredFinish(q: Queue, k: nat, err: bool, requeue: bool)
    requires Expired(q) && Effective(q, FinishEvent(k, err, requeue))
    ensures Expired(Finish(q, k, err, requeue)) && Work(Finish(q, k, err, requeue)) == Work(q) - 1
  {
    assert !Retries(q, q.inflight[k], err, requeue);
  }

  lemma {:induction false} ExpiredStep(q: Queue, e: Event)
    requires Expired(q) && !e.AddEvent?
    ensures Expired(Step(q, e))
    ensures Work(Step(q, e)) == Work(q) - if Effective(q, e) then 1 else 0
  {
    if Effective(q, e) {
      match e {
        case ConsumeEvent => ExpiredConsume(q);
        case FinishEvent(k, err, requeue) => ExpiredFinish(q, k, err, requeue);
        case SendEvent(k) => ExpiredSend(q, k);
      }
    }
  }

  // How many steps of a run are effective.
  function EffectiveSteps(q: Queue, events: seq<Event>): (n: nat)
    decreases |events|
  {
    if events == [] then 0
    else (if Effective(q, events[0]) then 1 else 0) + EffectiveSteps(Step(q, events[0]), events[1..])
  }

  predicate NoAdds(events: seq<Event>) {
    forall i :: 0 <= i < |events| ==> !events[i].AddEvent?
  }

  // Once every deadline has passed and nothing is added, each effective step takes
  // one off 2 * |channel| + |inflight| + 3 * |waiting|, whatever the handlers
  // answer and although a waiting handler still puts its message back; as long as
  // that is not zero some step is possible, and it is zero exactly when the key
  // set is empty.
  lemma {:induction false} Drains(q: Queue, events: seq<Event>)
    requires Ok(q) && Expired(q) && NoAdds(events)
    ensures var end := Run(q, events);
            && Work(end) == Work(q) - EffectiveSteps(q, events)
            && (Work(end) > 0 ==>
                  || Effective(end, ConsumeEvent) || Effective(end, SendEvent(0))
                  || Effective(end, FinishEvent(0, true, true)))
            && (Work(end) == 0 <==> |end.keys| == 0)
    decreases |events|
  {
    if events == [] {
      NeverStuck(q);
    } else {
      StepOk(q, events[0]);
      ExpiredStep(q, events[0]);
      Drains(Step(q, events[0]), events[1..]);
    }
  }

  // ----- what one step does to a message -----

  // The message at position k of a list without it.
  ghost predicate Dropped(a: seq<Message>, k: nat, b: seq<Message>) {
    && k < |a| && |b| == |a| - 1 && (forall i :: 0 <= i < k ==> b[i] == a[i])
    && forall i :: k <= i < |b| ==> b[i] == a[i + 1]
  }

  // A handler that succeeds, that gives the message up, or whose deadline has come is
  // done: its address is free again, in the keys and everywhere else, and nothing is
  // put back.
  lemma {:induction false} FinishFrees(q: Queue, k: nat, err: bool, requeue: bool)
    requires Ok(q) && k < |q.inflight| && !Locked(q.senders)
    requires !err || !requeue || q.inflight[k].deadline <= q.now
    ensures var r, m := Finish(q, k, err, requeue), q.inflight[k];
            && r.keys == q.keys - {m.ip} && r.channel == q.channel && r.senders == q.senders
            && Dropped(q.inflight, k, r.inflight) && r.requeues == q.requeues
            && m.ip !in Addresses(Known(r))
  {
    FreedAddress(q, k, err, requeue);
  }

  lemma {:induction false} FreedAddress(q: Queue, k: nat, err: bool, requeue: bool)
    requires Ok(q) && k < |q.inflight| && q.inflight[k].ip !in Finish(q, k, err, requeue).keys
    ensures q.inflight[k].ip !in Addresses(Known(Finish(q, k, err, requeue)))
  {
    FinishOk(q, k, err, requeue);
  }

  // A handler that fails with time left and may retry keeps the address; its message
  // is last in the channel, or waits to be sent when the channel is full.
  lemma {:induction false} FinishPutsBack(q: Queue, k: nat)
    requires Ok(q) && k < |q.inflight| && !Locked(q.senders) && q.now < q.inflight[k].deadline
    ensures var r, m := Finish(q, k, true, true), q.inflight[k];
            && r.keys == q.keys && m.ip in r.keys && Dropped(q.inflight, k, r.inflight) && r.finished == q.finished
            && (|q.channel| < 1000 ==> r.channel == q.channel + [m] && r.senders == q.senders)
            && (|q.channel| >= 1000 ==>
                  && r.channel == q.channel && |r.senders| == |q.senders| + 1
                  && r.senders[|q.senders|].msg == m && r.senders[|q.senders|].back && Locked(r.senders))
  {
    InflightIsKeyed(q, k);
    LastLocks(q.senders, Sender(q.inflight[k], true, true, q.now));
  }

  lemma {:induction false} InflightIsKeyed(q: Queue, k: nat)
    requires Keyed(q.keys, Known(q)) && k < |q.inflight|
    ensures q.inflight[k].ip in q.keys
  {
    var known := Known(q);
    assert known[|q.channel| + k] == q.inflight[k];
  }

  lemma {:induction false} LastLocks(senders: seq<Sender>, w: Sender)
    requires w.locked
    ensures Locked(senders + [w])
  {
    var all := senders + [w];
    assert all[|senders|].locked;
  }

  // A message for an address that is not known is accepted, last in the channel or
  // waiting; one for a known address changes nothing.
  lemma {:induction false} AddAccepts(q: Queue, m: Message, locked: bool)
    requires Ok(q) && !(locked && Locked(q.senders))
    ensures var r := Add(q, m, locked);
            && m.ip in r.keys && r.inflight == q.inflight
            && (m.ip in Addresses(Known(q)) ==> r == q)
            && (m.ip !in Addresses(Known(q)) && |q.channel| < 1000 ==>
                  r.channel == q.channel + [m] && r.senders == q.senders)
            && (m.ip !in Addresses(Known(q)) && |q.channel| >= 1000 ==>
                  && r.channel == q.channel && |r.senders| == |q.senders| + 1
                  && r.senders[|q.senders|].msg == m && r.senders[|q.senders|].locked == locked)
  {
  }

  // The consumer takes messages in the order they were sent; a waiting message is sent
  // behind all others.
  lemma {:induction false} ChannelIsFifo(q: Queue, k: nat)
    ensures q.channel != [] ==>
      Consume(q).channel == q.channel[1..] && Consume(q).inflight == q.inflight + [q.channel[0]]
    ensures k < |q.senders| && |q.channel| < 1000 ==>
      Send(q, k).channel == q.channel + [q.senders[k].msg] && |Send(q, k).senders| == |q.senders| - 1
  {
  }
}
