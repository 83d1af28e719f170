/**
  Every round of an iteration is decided.
  Only so many steps fit between two decisions of the leader, whichever they are; and some step is always
  enabled.  So the iteration goes on for ever, round after round.
 */
module IterationProgress {
  import opened IterationProtocol
  import opened IterationInvariant
  import opened IterationRefinement
  import Theorems = IterationTheorems

  // Sums -------------------------------------------------------------------------------------------

  ghost function Sum(a: set<Replica>, f: Replica -> int): int {
    if a == {} then 0 else var x :| x in a; f(x) + Sum(a - {x}, f)
  }

  lemma {:induction false} SumGrows(a: set<Replica>, f: Replica -> int, g: Replica -> int)
    requires forall x :: x in a ==> f(x) <= g(x)
    ensures Sum(a, f) <= Sum(a, g)
  {
    if a != {} {
      var x :| x in a && Sum(a, f) == f(x) + Sum(a - {x}, f);
      SumGrows(a - {x}, f, g);
      SumAt(a, g, x);
    }
  }

  lemma {:induction false} SumAt(a: set<Replica>, f: Replica -> int, x: Replica)
    requires x in a
    ensures Sum(a, f) == f(x) + Sum(a - {x}, f)
  {
    var y :| y in a && Sum(a, f) == f(y) + Sum(a - {y}, f);
    if y != x {
      SumAt(a - {y}, f, x);
      SumAt(a - {x}, f, y);
      assert a - {y} - {x} == a - {x} - {y};
    }
  }

  lemma SumRises(a: set<Replica>, f: Replica -> int, g: Replica -> int, x: Replica)
    requires x in a && f(x) < g(x) && forall y :: y in a ==> f(y) <= g(y)
    ensures Sum(a, f) < Sum(a, g)
  {
    SumAt(a, f, x);
    SumAt(a, g, x);
    SumGrows(a - {x}, f, g);
  }

  lemma {:induction false} SumIsPositive(a: set<Replica>, f: Replica -> int)
    requires forall x :: x in a ==> 0 <= f(x)
    ensures 0 <= Sum(a, f)
  {
    if a != {} {
      var x :| x in a && Sum(a, f) == f(x) + Sum(a - {x}, f);
      SumIsPositive(a - {x}, f);
    }
  }

  lemma {:induction false} SumBound(a: set<Replica>, f: Replica -> int, b: int)
    requires forall x :: x in a ==> f(x) <= b
    ensures Sum(a, f) <= |a| * b
  {
    if a != {} {
      var x :| x in a && Sum(a, f) == f(x) + Sum(a - {x}, f);
      SumBound(a - {x}, f, b);
      assert |a| * b == b + (|a| - 1) * b;
    }
  }

  // The work that is done --------------------------------------------------------------------------

  /** How many steps an Iterate replica has taken since it went back to emitting. */
  function Place<S>(p: Phase<S>): nat {
    match p
    case Active => 0
    case Locked => 1
    case Waiting => 2
    case Swapped => 3
    case Updated(_) => 4
    case Ready(_) => 5
    case AtBarrier(_, _) => 6
    case Leaving(_) => 7
  }

  function IterateAt<S>(p: Phase<S>, rounds: nat): int { 8 * Resumed(p, rounds) + Place(p) }

  function BodyAt(rounds: nat, open: bool, more: bool): int {
    3 * rounds + (if open then 1 else 0) + if more then 1 else 0
  }

  ghost function IterateWork<S, D, C>(s: System<S, D, C>): Replica -> int {
    (r: Replica) => if r in s.iter && r in s.log then IterateAt(s.iter[r].phase, |s.log[r]|) else 0
  }

  ghost function BodyWork<S, D, C>(s: System<S, D, C>): Replica -> int {
    (n: Replica) => if n in s.log && n in s.fed then BodyAt(|s.log[n]|, n in s.open, s.fed[n].more) else 0
  }

  /** Every round takes the leader one step for each delta, one to decide and one for each answer. */
  function PerRound<S, D, C>(c: Job<S, D, C>): nat { |c.ends| + 1 + |c.iters| }

  ghost function LeaderWork<S, D, C>(c: Job<S, D, C>, s: System<S, D, C>): int {
    Multiple(PerRound(c), |s.orders|) + |s.taken| - |s.leader.toSend|
  }

  function Multiple(a: nat, k: nat): nat { if k == 0 then 0 else Multiple(a, k - 1) + a }

  lemma {:induction false} MultipleIs(a: nat, k: nat)
    ensures Multiple(a, k) == a * k
  {
    if k > 0 { MultipleIs(a, k - 1); }
  }

  ghost function Work<S, D, C>(c: Job<S, D, C>, s: System<S, D, C>): int {
    Sum(c.iters, IterateWork(s)) + Sum(c.bodies, BodyWork(s)) + LeaderWork(c, s)
  }

  // Every step is work -----------------------------------------------------------------------------

  /** The leader and the Iterate replicas do nothing, and one body replica does something. */
  lemma BodyWorks<S, D, C>(c: Job<S, D, C>, s: System<S, D, C>, s': System<S, D, C>, n: Replica)
    requires n in c.bodies && LeaderWork(c, s) == LeaderWork(c, s')
    requires forall r :: r in c.iters ==> IterateWork(s)(r) == IterateWork(s')(r)
    requires forall m :: m in c.bodies && m != n ==> BodyWork(s)(m) == BodyWork(s')(m)
    requires BodyWork(s)(n) < BodyWork(s')(n)
    ensures Work(c, s) < Work(c, s')
  {
    SumGrows(c.iters, IterateWork(s), IterateWork(s'));
    SumRises(c.bodies, BodyWork(s), BodyWork(s'), n);
  }

  lemma IterateWorks<S, D, C>(c: Job<S, D, C>, s: System<S, D, C>, s': System<S, D, C>, r: Replica)
    requires r in c.iters && LeaderWork(c, s) == LeaderWork(c, s')
    requires forall n :: n in c.bodies ==> BodyWork(s)(n) == BodyWork(s')(n)
    requires forall q :: q in c.iters && q != r ==> IterateWork(s)(q) == IterateWork(s')(q)
    requires IterateWork(s)(r) < IterateWork(s')(r)
    ensures Work(c, s) < Work(c, s')
  {
    SumGrows(c.bodies, BodyWork(s), BodyWork(s'));
    SumRises(c.iters, IterateWork(s), IterateWork(s'), r);
  }

  lemma LeaderWorks<S, D, C>(c: Job<S, D, C>, s: System<S, D, C>, s': System<S, D, C>)
    requires LeaderWork(c, s) < LeaderWork(c, s')
    requires forall n :: n in c.bodies ==> BodyWork(s)(n) == BodyWork(s')(n)
    requires forall r :: r in c.iters ==> IterateWork(s)(r) == IterateWork(s')(r)
    ensures Work(c, s) < Work(c, s')
  {
    SumGrows(c.bodies, BodyWork(s), BodyWork(s'));
    SumGrows(c.iters, IterateWork(s), IterateWork(s'));
  }

  /** A body replica opens a round, sends something ahead, or finishes a round. */
  lemma BodyStepWorks<S, D, C>(c: Job<S, D, C>, s: System<S, D, C>, s': System<S, D, C>, n: Replica, log: seq<C>,
      fed: Channel<C>)
    requires c.iters !! c.bodies && n in c.bodies && n in s.log && n in s.fed
    requires s'.log == s.log[n := log] && s'.fed == s.fed[n := fed] && s'.iter == s.iter
    requires s'.orders == s.orders && s'.taken == s.taken && s'.leader == s.leader
    requires forall m :: m != n ==> (m in s'.open <==> m in s.open)
    requires BodyAt(|s.log[n]|, n in s.open, s.fed[n].more) < BodyAt(|log|, n in s'.open, fed.more)
    ensures Work(c, s) < Work(c, s')
  {
    BodyWorks(c, s, s', n);
  }

  lemma FlushWorks<S, D, C>(c: Job<S, D, C>, s: System<S, D, C>, n: Replica)
    requires ValidJob(c) && Shape(c, s) && CanFlush(c, s, n)
    ensures Work(c, s) < Work(c, DoFlush(c, s, n))
  {
    var s' := DoFlush(c, s, n);
    BodyStepWorks(c, s, s', n, s'.log[n], s'.fed[n]);
  }

  /** One Iterate replica moves on; the queue and the channels do not matter, but for elements sent ahead. */
  lemma PutWorks<S, D, C>(c: Job<S, D, C>, s: System<S, D, C>, s': System<S, D, C>, r: Replica, log: seq<C>,
      i: Iterate<S, C>)
    requires c.iters !! c.bodies && r in c.iters && r in s.log && r in s.iter
    requires s'.log == s.log[r := log] && s'.iter == s.iter[r := i]
    requires s'.open == s.open && s'.orders == s.orders && s'.taken == s.taken && s'.leader == s.leader
    requires forall n {:trigger n in s'.fed} :: n in s.fed <==> n in s'.fed
    requires forall n {:trigger s'.fed[n]} :: n in s.fed && n in s'.fed ==> s'.fed[n].more == s.fed[n].more
    requires IterateAt(s.iter[r].phase, |s.log[r]|) < IterateAt(i.phase, |log|)
    ensures Work(c, s) < Work(c, s')
  {
    IterateWorks(c, s, s', r);
  }

  lemma FetchWorks<S, D, C>(c: Job<S, D, C>, s: System<S, D, C>, r: Replica)
    requires ValidJob(c) && Shape(c, s) && CanFetch(c, s, r)
    ensures Work(c, s) < Work(c, DoFetch(c, s, r))
  {
    var s' := DoFetch(c, s, r);
    PutWorks(c, s, s', r, s'.log[r], s'.iter[r]);
  }

  lemma EndRoundWorks<S, D, C>(c: Job<S, D, C>, s: System<S, D, C>, r: Replica)
    requires ValidJob(c) && Shape(c, s) && CanEndRound(c, s, r)
    ensures Work(c, s) < Work(c, DoEndRound(c, s, r))
  {
    var s' := DoEndRound(c, s, r);
    PutWorks(c, s, s', r, s'.log[r], s'.iter[r]);
  }

  /** The other steps of an Iterate replica. */
  lemma UpdateWorks<S, D, C>(c: Job<S, D, C>, s: System<S, D, C>, a: Step)
    requires ValidJob(c) && Shape(c, s) && Enabled(c, s, a) && (a.Lock? || a.Take? || a.Set?)
    ensures Work(c, s) < Work(c, Apply(c, s, a))
  {
    var s' := Apply(c, s, a);
    PutWorks(c, s, s', a.r, s.log[a.r], s'.iter[a.r]);
  }

  lemma BarrierWorks<S, D, C>(c: Job<S, D, C>, s: System<S, D, C>, a: Step)
    requires ValidJob(c) && Shape(c, s) && Enabled(c, s, a) && (a.Arrive? || a.Leave? || a.Resume?)
    ensures Work(c, s) < Work(c, Apply(c, s, a))
  {
    var s' := Apply(c, s, a);
    PutWorks(c, s, s', a.r, s.log[a.r], s'.iter[a.r]);
  }

  lemma FoldWorks<S, D, C>(c: Job<S, D, C>, s: System<S, D, C>)
    requires CanFold(s)
    ensures Work(c, s) < Work(c, DoFold(c, s))
  {
    LeaderWorks(c, s, DoFold(c, s));
  }

  lemma DecideWorks<S, D, C>(c: Job<S, D, C>, s: System<S, D, C>)
    requires CanDecide(s) && |s.taken| == |c.ends|
    ensures Work(c, s) < Work(c, DoDecide(c, s))
  {
    LeaderWorks(c, s, DoDecide(c, s));
  }

  lemma SendWorks<S, D, C>(c: Job<S, D, C>, s: System<S, D, C>, r: Replica)
    requires Shape(c, s) && CanSend(s, r)
    ensures Work(c, s) < Work(c, DoSend(c, s, r))
  {
    var s' := DoSend(c, s, r);
    assert |s'.leader.toSend| == |s.leader.toSend| - 1;
    LeaderWorks(c, s, s');
  }

  lemma StepWorks<S, D, C>(c: Job<S, D, C>, s: System<S, D, C>, a: Step)
    requires ValidJob(c) && Control(c, s) && Enabled(c, s, a)
    ensures Work(c, s) < Work(c, Apply(c, s, a))
  {
    match a
    case Open(n) => BodyStepWorks(c, s, DoOpen(c, s, n), n, s.log[n], s.fed[n]);
    case Push(n) => BodyStepWorks(c, s, DoPush(c, s, n), n, s.log[n], s.fed[n].(more := true));
    case Flush(n) => FlushWorks(c, s, n);
    case EndRound(r) => EndRoundWorks(c, s, r);
    case Fetch(r) => FetchWorks(c, s, r);
    case Fold => FoldWorks(c, s);
    case Decide => DecideWorks(c, s);
    case Send(r) => SendWorks(c, s, r);
    case Lock(_) => UpdateWorks(c, s, a);
    case Take(_) => UpdateWorks(c, s, a);
    case Set(_) => UpdateWorks(c, s, a);
    case _ => BarrierWorks(c, s, a);
  }

  lemma InitialWork<S, D, C>(c: Job<S, D, C>, s: System<S, D, C>)
    requires ValidJob(c) && Init(c, s)
    ensures Work(c, s) >= 0
  {
    forall r | r in c.iters ensures 0 <= IterateWork(s)(r) { assert r in s.iter && r in s.log; }
    forall n | n in c.bodies ensures 0 <= BodyWork(s)(n) { assert n in s.fed; }
    SumIsPositive(c.iters, IterateWork(s));
    SumIsPositive(c.bodies, BodyWork(s));
  }

  // And only so much of it fits into a round -------------------------------------------------------

  function StepsPerRound<S, D, C>(c: Job<S, D, C>): nat { 15 * |c.iters| + 5 * |c.bodies| + PerRound(c) }

  lemma ReplicaIsBounded<S, D, C>(c: Job<S, D, C>, s: System<S, D, C>, n: Replica)
    requires n in s.log && RoundOk(s, n)
    ensures IterateWork(s)(n) <= 15 * (|s.orders| + 1) && BodyWork(s)(n) <= 5 * (|s.orders| + 1)
  {
  }

  lemma LeaderIsBounded<S, D, C>(c: Job<S, D, C>, s: System<S, D, C>)
    requires |s.taken| <= |c.ends|
    ensures LeaderWork(c, s) <= PerRound(c) * (|s.orders| + 1)
  {
    MultipleIs(PerRound(c), |s.orders|);
    assert PerRound(c) * (|s.orders| + 1) == PerRound(c) * |s.orders| + PerRound(c);
  }

  lemma TakenIsBounded<S, D, C>(c: Job<S, D, C>, s: System<S, D, C>)
    requires ValidJob(c) && Shape(c, s) && QueueOk(c, s)
    ensures |s.taken| <= |c.ends|
  {
    var all := multiset(s.taken) + multiset(Senders(s.queue));
    assert |multiset(s.taken)| == |s.taken| && |all| >= |multiset(s.taken)|;
    assert |multiset(Done(c, s))| == |Done(c, s)|;
    SubsetSize(Done(c, s), c.ends);
  }

  lemma WorkIsBounded<S, D, C>(c: Job<S, D, C>, s: System<S, D, C>)
    requires |s.taken| <= |c.ends|
    requires forall n :: n in c.iters || n in c.bodies ==> n in s.log && RoundOk(s, n)
    ensures Work(c, s) <= StepsPerRound(c) * (|s.orders| + 1)
  {
    IteratesAreBounded(c, s);
    BodiesAreBounded(c, s);
    LeaderIsBounded(c, s);
    Together(|c.iters|, |c.bodies|, PerRound(c), |s.orders| + 1, Sum(c.iters, IterateWork(s)),
      Sum(c.bodies, BodyWork(s)),
      LeaderWork(c, s));
  }

  lemma IteratesAreBounded<S, D, C>(c: Job<S, D, C>, s: System<S, D, C>)
    requires forall n :: n in c.iters || n in c.bodies ==> n in s.log && RoundOk(s, n)
    ensures Sum(c.iters, IterateWork(s)) <= |c.iters| * (15 * (|s.orders| + 1))
  {
    forall n | n in c.iters ensures IterateWork(s)(n) <= 15 * (|s.orders| + 1) { ReplicaIsBounded(c, s, n); }
    SumBound(c.iters, IterateWork(s), 15 * (|s.orders| + 1));
  }

  lemma BodiesAreBounded<S, D, C>(c: Job<S, D, C>, s: System<S, D, C>)
    requires forall n :: n in c.iters || n in c.bodies ==> n in s.log && RoundOk(s, n)
    ensures Sum(c.bodies, BodyWork(s)) <= |c.bodies| * (5 * (|s.orders| + 1))
  {
    forall n | n in c.bodies ensures BodyWork(s)(n) <= 5 * (|s.orders| + 1) { ReplicaIsBounded(c, s, n); }
    SumBound(c.bodies, BodyWork(s), 5 * (|s.orders| + 1));
  }

  lemma Together(i: nat, b: nat, l: nat, k: nat, x: int, y: int, z: int)
    requires x <= i * (15 * k) && y <= b * (5 * k) && z <= l * k
    ensures x + y + z <= (15 * i + 5 * b + l) * k
  {
    assert (15 * i + 5 * b + l) * k == i * (15 * k) + b * (5 * k) + l * k;
  }

  lemma ControlIsBounded<S, D, C>(c: Job<S, D, C>, s: System<S, D, C>)
    requires ValidJob(c) && Control(c, s)
    ensures Work(c, s) <= StepsPerRound(c) * (|s.orders| + 1)
    ensures Shape(c, s) && forall n :: n in c.iters || n in c.bodies ==> |s.orders| <= |s.log[n]|
  {
    TakenIsBounded(c, s);
    forall n | n in c.iters || n in c.bodies ensures n in s.log && RoundOk(s, n) {}
    WorkIsBounded(c, s);
  }

  lemma NextWorks<S, D, C>(c: Job<S, D, C>, s: System<S, D, C>, s': System<S, D, C>)
    requires ValidJob(c) && Control(c, s) && Next(c, s, s')
    ensures Work(c, s) < Work(c, s')
  {
    var a :| Enabled(c, s, a) && s' == Apply(c, s, a);
    StepWorks(c, s, a);
  }

  lemma RunControl<S, D, C>(c: Job<S, D, C>, run: seq<System<S, D, C>>, i: nat)
    requires ValidJob(c) && IsRun(c, run) && i < |run|
    ensures Control(c, run[i])
  {
    var t := RunInv(c, run, i);
  }

  lemma RunStepWorks<S, D, C>(c: Job<S, D, C>, run: seq<System<S, D, C>>, i: nat)
    requires ValidJob(c) && IsRun(c, run) && 0 < i < |run|
    ensures Work(c, run[i - 1]) < Work(c, run[i])
  {
    RunControl(c, run, i - 1);
    assert Next(c, run[i - 1], run[i - 1 + 1]);
    NextWorks(c, run[i - 1], run[i]);
  }

  lemma RunBegins<S, D, C>(c: Job<S, D, C>, run: seq<System<S, D, C>>)
    requires ValidJob(c) && IsRun(c, run)
    ensures 0 <= Work(c, run[0])
  {
    InitialWork(c, run[0]);
  }

  lemma {:induction false} StepsAreWork<S, D, C>(c: Job<S, D, C>, run: seq<System<S, D, C>>, i: nat)
    requires ValidJob(c) && IsRun(c, run) && i < |run|
    ensures i <= Work(c, run[i])
  {
    if i == 0 {
      RunBegins(c, run);
    } else {
      StepsAreWork(c, run, i - 1);
      RunStepWorks(c, run, i);
    }
  }

  /**
    In every interleaving, however unfair: after so many steps for each round, that many rounds have been
    decided, and every replica has emitted them.
   */
  lemma RoundsAreDecided<S, D, C>(c: Job<S, D, C>, run: seq<System<S, D, C>>, i: nat)
    requires ValidJob(c) && IsRun(c, run) && i < |run|
    ensures i <= StepsPerRound(c) * (|run[i].orders| + 1)
    ensures Shape(c, run[i]) && forall n :: n in c.iters || n in c.bodies ==> |run[i].orders| <= |run[i].log[n]|
  {
    RunControl(c, run, i);
    StepsAreWork(c, run, i);
    ControlIsBounded(c, run[i]);
  }

  /** Every interleaving can be continued until as many rounds as one likes are decided. */
  lemma {:induction false} CanGoOn<S, D, C>(c: Job<S, D, C>, run: seq<System<S, D, C>>, rounds: nat)
    returns (more: seq<System<S, D, C>>)
    requires ValidJob(c) && IsRun(c, run)
    ensures IsRun(c, run + more) && rounds <= |(run + more)[|run + more| - 1].orders|
    decreases StepsPerRound(c) * (rounds + 1) - |run|
  {
    if rounds <= |run[|run| - 1].orders| {
      more := [];
      assert run + more == run;
    } else {
      RunIsShort(c, run, rounds);
      var next := OneMoreStep(c, run);
      var rest := CanGoOn(c, run + [next], rounds);
      more := [next] + rest;
      assert run + [next] + rest == run + more;
    }
  }

  /** A run that has not decided so many rounds. */
  lemma RunIsShort<S, D, C>(c: Job<S, D, C>, run: seq<System<S, D, C>>, rounds: nat)
    requires ValidJob(c) && IsRun(c, run) && |run[|run| - 1].orders| < rounds
    ensures |run| <= StepsPerRound(c) * (rounds + 1)
  {
    var i := |run| - 1;
    RoundsAreDecided(c, run, i);
    FewerRounds(StepsPerRound(c), |run[i].orders|, rounds);
  }

  lemma FewerRounds(b: nat, k: nat, rounds: nat)
    requires k < rounds && b >= 1
    ensures b * (k + 1) + 1 <= b * (rounds + 1)
  {
    assert b * (k + 1) <= b * rounds;
  }

  lemma OneMoreStep<S, D, C>(c: Job<S, D, C>, run: seq<System<S, D, C>>) returns (next: System<S, D, C>)
    requires ValidJob(c) && IsRun(c, run)
    ensures IsRun(c, run + [next])
  {
    var n := |run| - 1;
    Theorems.NoDeadlock(c, run, n);
    var a :| Enabled(c, run[n], a) && !a.Push?;
    next := Apply(c, run[n], a);
    var longer := run + [next];
    assert Next(c, run[n], next);
    forall i | 0 <= i < |longer| - 1 ensures Next(c, longer[i], longer[i + 1]) {
      if i < n { assert Next(c, run[i], run[i + 1]); }
    }
  }
}
