/** The queues between goroutines: a sender waits while a queue is nearly full, and then
    sends, but others may send in between. */
module Queues {

  const QUEUE_SIZE: nat := 10000

  /** The two queues of records between peers, and the queue of log entries. */
  datatype Kind = Peers | Log

  /** The test that ends the wait. */
  predicate MayPass(kind: Kind, len: nat) {
    match kind
    case Peers => len + QUEUE_SIZE / 10 <= QUEUE_SIZE
    case Log => len + len / 10 <= QUEUE_SIZE
  }

  /** The length at which the last sender passes the test. */
  function Mark(kind: Kind): nat {
    match kind case Peers => 9000 case Log => 9091
  }

  /** The channel's length, and how many senders have passed the test and not yet sent. */
  datatype Channel = Channel(len: nat, past: nat)

  datatype Act = Check | Send | Receive

  /** At most k senders are between the test and the send. */
  predicate Enabled(kind: Kind, k: nat, s: Channel, a: Act) {
    match a
    case Check => MayPass(kind, s.len) && s.past < k
    case Send => s.past > 0 && s.len < QUEUE_SIZE
    case Receive => s.len > 0
  }

  function Next(s: Channel, a: Act): Channel {
    match a
    case Check => s.(past := s.past + 1)
    case Send => if s.past > 0 then Channel(s.len + 1, s.past - 1) else s
    case Receive => if s.len > 0 then s.(len := s.len - 1) else s
  }

  function Run(acts: seq<Act>): Channel {
    if acts == [] then Channel(0, 0) else Next(Run(acts[..|acts| - 1]), acts[|acts| - 1])
  }

  predicate Valid(kind: Kind, k: nat, acts: seq<Act>) {
    acts != [] ==> Valid(kind, k, acts[..|acts| - 1]) && Enabled(kind, k, Run(acts[..|acts| - 1]), acts[|acts| - 1])
  }

  /** A sender that has passed the test finds the channel full. */
  predicate Blocked(s: Channel) { s.len == QUEUE_SIZE && s.past > 0 }

  lemma MarkIsLast(kind: Kind, len: nat)
    ensures MayPass(kind, len) <==> len <= Mark(kind)
  {
  }

  /** However sends and receives interleave, a queue never holds more than its mark and one
      entry for each sender between the test and the send. */
  lemma {:induction false} HighWater(kind: Kind, k: nat, acts: seq<Act>)
    requires Valid(kind, k, acts)
    ensures Run(acts).past <= k && Run(acts).len + Run(acts).past <= Mark(kind) + k
  {
    if acts != [] {
      HighWater(kind, k, acts[..|acts| - 1]);
      MarkIsLast(kind, Run(acts[..|acts| - 1]).len);
    }
  }

  lemma Extend(kind: Kind, k: nat, acts: seq<Act>, a: Act) returns (more: seq<Act>)
    requires Valid(kind, k, acts) && Enabled(kind, k, Run(acts), a)
    ensures Valid(kind, k, more) && Run(more) == Next(Run(acts), a)
  {
    more := acts + [a];
    assert more[..|acts|] == acts;
  }

  lemma {:induction false} Filled(kind: Kind, k: nat, n: nat) returns (acts: seq<Act>)
    requires k > 0 && n <= Mark(kind)
    ensures Valid(kind, k, acts) && Run(acts) == Channel(n, 0)
  {
    hide Run, Valid;
    if n == 0 {
      acts := Idle(kind, k);
    } else {
      acts := Filled(kind, k, n - 1);
      MarkIsLast(kind, n - 1);
      acts := Extend(kind, k, acts, Check);
      acts := Extend(kind, k, acts, Send);
    }
  }

  lemma Idle(kind: Kind, k: nat) returns (acts: seq<Act>)
    ensures Valid(kind, k, acts) && Run(acts) == Channel(0, 0)
  {
    acts := [];
  }

  lemma {:induction false} Crowded(kind: Kind, k: nat, n: nat) returns (acts: seq<Act>)
    requires 0 < k && n <= k
    ensures Valid(kind, k, acts) && Run(acts) == Channel(Mark(kind), n)
  {
    hide Run, Valid;
    if n == 0 {
      acts := Filled(kind, k, Mark(kind));
    } else {
      acts := Crowded(kind, k, n - 1);
      MarkIsLast(kind, Mark(kind));
      acts := Extend(kind, k, acts, Check);
    }
  }

  lemma {:induction false} Flooded(kind: Kind, k: nat, n: nat) returns (acts: seq<Act>)
    requires 0 < k && n <= k && Mark(kind) + n <= QUEUE_SIZE
    ensures Valid(kind, k, acts) && Run(acts) == Channel(Mark(kind) + n, k - n)
  {
    hide Run, Valid;
    if n == 0 {
      acts := Crowded(kind, k, k);
    } else {
      acts := Flooded(kind, k, n - 1);
      acts := Extend(kind, k, acts, Send);
    }
  }

  ghost predicate NeverBlocks(kind: Kind, k: nat) {
    forall acts :: Valid(kind, k, acts) ==> !Blocked(Run(acts))
  }

  /** A sender that has passed the test never blocks exactly when at most 1000 senders, or
      909 for the log queue, can be between the test and the send. */
  lemma NeverBlocksIff(kind: Kind, k: nat)
    ensures NeverBlocks(kind, k) <==> k <= (match kind case Peers => 1000 case Log => 909)
  {
    hide Run, Valid;
    if k <= QUEUE_SIZE - Mark(kind) {
      forall acts | Valid(kind, k, acts) ensures !Blocked(Run(acts)) { HighWater(kind, k, acts); }
    } else {
      var acts := Flooded(kind, k, QUEUE_SIZE - Mark(kind));
      assert Blocked(Run(acts));
    }
  }
}
