/**
 What each step of the log fan-out does, told by the parts of the state alone, and what follows for delivery: a
 queue drops an entry only when it is full, and while the loop runs everything owed can still arrive.
 */
module LogDelivery {
  import opened Common
  import opened LogFanOut

  // ---------- Each step ----------

  lemma AppendDoes(s: State, op: Op)
    requires op.Append? && BufferInv(s)
    requires forall q :: q in s.queues <==> q in op.targets
    requires forall i, j :: 0 <= i < j < |op.targets| ==> op.targets[i] != op.targets[j]
    ensures var e, t := Entry(|s.log|, op.level, op.text), Next(s, op);
            && t == s.(log := s.log + [e], buffer := t.buffer, emits := s.emits + [Appended(e, s.loopKnown, op.targets)])
            && t.buffer == (if |s.buffer| < 1000 then s.buffer else s.buffer[1..]) + [e]
  {
  }

  /** `t` has lost the emit's entry for the queues it was for, and the emit with it. */
  ghost predicate GaveUp(s: State, i: nat, t: State)
    requires i < |s.emits|
  {
    var m := s.emits[i];
    && t == s.(emits := s.emits[..i] + s.emits[i + 1..], subs := t.subs)
    && t.subs.Keys == s.subs.Keys
    && forall q :: q in s.subs ==>
                     t.subs[q] == if q in m.targets then s.subs[q].(lost := s.subs[q].lost + [m.entry]) else s.subs[q]
  }

  /** An emit goes on to post exactly if it saw a loop, the loop runs, and there is a queue to post to. */
  lemma LookAtLoopDoes(s: State, op: Op)
    requires op.LookAtLoop? && op.emit < |s.emits| && s.emits[op.emit].Appended?
    ensures var m, t := s.emits[op.emit], Next(s, op);
            if m.loopSeen && s.running && m.targets != []
            then t == s.(emits := s.emits[op.emit := Posting(m.entry, m.targets)])
            else GaveUp(s, op.emit, t)
  {
  }

  /** It posts to its next queue, or is done when there is none. */
  lemma PostOneDoes(s: State, op: Op)
    requires op.PostOne? && op.emit < |s.emits| && s.emits[op.emit].Posting?
    ensures var m, t := s.emits[op.emit], Next(s, op);
            if m.targets == [] then t == s.(emits := s.emits[..op.emit] + s.emits[op.emit + 1..])
            else t == s.(emits := s.emits[op.emit := Posting(m.entry, m.targets[1..])],
                         posts := s.posts + [Post(m.targets[0], m.entry)])
  {
  }

  lemma PostFailsDoes(s: State, op: Op)
    requires op.PostFails? && op.emit < |s.emits| && s.emits[op.emit].Posting?
    ensures if s.running then Next(s, op) == s else GaveUp(s, op.emit, Next(s, op))
  {
  }

  /** With fewer than 500 entries waiting the queue gains the oldest post's entry, with 500 it drops it. */
  lemma RunCallbackDoes(s: State, op: Op)
    requires op.RunCallback? && s.running && s.posts != []
    ensures var p, t := s.posts[0], Next(s, op);
            if p.queue !in s.subs then t == s.(posts := s.posts[1..])
            else
              var b := s.subs[p.queue];
              t == s.(posts := s.posts[1..],
                      subs := s.subs[p.queue := if |b.contents| < 500 then b.(contents := b.contents + [p.entry])
                                                else b.(dropped := b.dropped + [p.entry])])
  {
  }

  lemma TakeDoes(s: State, op: Op)
    requires op.Take? && op.queue in s.subs && s.subs[op.queue].contents != []
    ensures var b := s.subs[op.queue];
            var after := b.(taken := b.taken + [b.contents[0]], contents := b.contents[1..]);
            Next(s, op) == s.(subs := s.subs[op.queue := after])
  {
  }

  lemma RegistrationDoes(s: State, op: Op)
    requires SubsOk(s) && ((op.Subscribe? && op.queue !in s.subs) || op.Unsubscribe?)
    ensures var t := Next(s, op);
            && t == s.(queues := t.queues, loopKnown := t.loopKnown, subs := t.subs)
            && t.loopKnown == (s.loopKnown || (op.Subscribe? && op.loopFound))
            && t.queues == (if op.Subscribe? then s.queues + {op.queue} else s.queues - {op.queue})
    ensures op.Subscribe? ==> Next(s, op).subs == s.subs[op.queue := Sub(|s.log|, None, [], [], [], [])]
    ensures op.Unsubscribe? && op.queue !in s.queues ==> Next(s, op).subs == s.subs
    ensures op.Unsubscribe? && op.queue in s.queues ==>
              op.queue in s.subs
              && Next(s, op).subs == s.subs[op.queue := s.subs[op.queue].(until := Some(|s.log|))]
  {
  }

  lemma SetRunningDoes(s: State, op: Op)
    requires op.SetRunning?
    ensures Next(s, op) == s.(running := op.on)
  {
  }

  // ---------- Drops ----------

  /** In any step a queue's drops stay as they are, unless it is full and its post is the one the loop runs. */
  lemma DropsOnlyWhenFull(s: State, op: Op, q: Queue)
    requires q in s.subs
    ensures q in Next(s, op).subs
    ensures Next(s, op).subs[q].dropped != s.subs[q].dropped <==>
              && op.RunCallback? && s.running && s.posts != [] && s.posts[0].queue == q && |s.subs[q].contents| >= 500
  {
  }

  /** The queue has room whenever the loop delivers to it. */
  predicate NeverFull(s: State, ops: seq<Op>, q: Queue)
    decreases |ops|
  {
    ops == [] || ((q in s.subs ==> |s.subs[q].contents| < 500) && NeverFull(Next(s, ops[0]), ops[1..], q))
  }

  /** A queue that is never full drops nothing. */
  lemma {:induction false} NeverFullDropsNothing(s: State, ops: seq<Op>, q: Queue)
    requires q in s.subs && NeverFull(s, ops, q)
    ensures q in Run(s, ops).subs && Run(s, ops).subs[q].dropped == s.subs[q].dropped
    decreases |ops|
  {
    if ops != [] {
      DropsOnlyWhenFull(s, ops[0], q);
      NeverFullDropsNothing(Next(s, ops[0]), ops[1..], q);
    }
  }

  // ---------- Everything can arrive ----------

  /** The steps that one emit still needs. */
  function EmitWork(m: Emit): nat {
    if m.Appended? then |m.targets| + 2 else |m.targets| + 1
  }

  function EmitsWork(emits: seq<Emit>): nat {
    if emits == [] then 0 else EmitsWork(emits[..|emits| - 1]) + EmitWork(emits[|emits| - 1])
  }

  /** What is left to do until everything has arrived at a queue. */
  function Work(s: State, q: Queue): nat
    requires q in s.subs
  {
    4 * EmitsWork(s.emits) + 2 * |s.posts| + |s.subs[q].contents|
  }

  /** The next step towards it: take what waits, else run a callback, else let an emit go on. */
  function Onward(s: State, q: Queue): Op
    requires q in s.subs && Work(s, q) > 0
  {
    if s.subs[q].contents != [] then Take(q)
    else if s.posts != [] then RunCallback
    else if s.emits[|s.emits| - 1].Appended? then LookAtLoop(|s.emits| - 1)
    else PostOne(|s.emits| - 1)
  }

  lemma WorkOfLast(emits: seq<Emit>, m: Emit)
    requires emits != []
    ensures EmitsWork(emits[|emits| - 1 := m]) == EmitsWork(emits[..|emits| - 1]) + EmitWork(m)
    ensures RemoveAt(emits, |emits| - 1) == emits[..|emits| - 1]
  {
    assert emits[|emits| - 1 := m][..|emits| - 1] == emits[..|emits| - 1];
  }

  /** `t` is nearer, at no cost to the queue. */
  ghost predicate Nearer(s: State, t: State, q: Queue)
    requires q in s.subs
  {
    && q in t.subs && Work(t, q) < Work(s, q) && t.log == s.log
    && t.subs[q].since == s.subs[q].since && t.subs[q].until == s.subs[q].until
    && t.subs[q].dropped == s.subs[q].dropped && t.subs[q].lost == s.subs[q].lost
  }

  lemma LookHelps(s: State, q: Queue)
    requires q in s.subs && NothingLost(s) && s.subs[q].contents == [] && s.posts == [] && s.emits != []
    requires s.emits[|s.emits| - 1].Appended?
    ensures Nearer(s, Next(s, LookAtLoop(|s.emits| - 1)), q)
  {
    var op := LookAtLoop(|s.emits| - 1);
    var m := s.emits[op.emit];
    assert m in s.emits;
    LookAtLoopDoes(s, op);
    WorkOfLast(s.emits, m);
    WorkOfLast(s.emits, Posting(m.entry, m.targets));
  }

  lemma PostHelps(s: State, q: Queue)
    requires q in s.subs && s.subs[q].contents == [] && s.posts == [] && s.emits != []
    requires s.emits[|s.emits| - 1].Posting?
    ensures Nearer(s, Next(s, PostOne(|s.emits| - 1)), q)
  {
    var op := PostOne(|s.emits| - 1);
    var m := s.emits[op.emit];
    PostOneDoes(s, op);
    WorkOfLast(s.emits, m);
    if m.targets != [] {
      WorkOfLast(s.emits, Posting(m.entry, m.targets[1..]));
    }
  }

  lemma NoEmitsLeft(emits: seq<Emit>)
    ensures EmitsWork(emits) == 0 ==> emits == []
  {
  }

  lemma OnwardHelps(s: State, q: Queue)
    requires q in s.subs && NothingLost(s) && Work(s, q) > 0
    ensures Nearer(s, Next(s, Onward(s, q)), q)
  {
    if s.subs[q].contents != [] {
      TakeDoes(s, Take(q));
    } else if s.posts != [] {
      RunCallbackDoes(s, RunCallback);
    } else if s.emits[|s.emits| - 1].Appended? {
      LookHelps(s, q);
    } else {
      PostHelps(s, q);
    }
  }

  lemma {:induction false} AllArrives(s: State, q: Queue) returns (ops: seq<Op>)
    requires q in s.subs && NothingLost(s)
    ensures LoopKept(ops)
    ensures var t := Run(s, ops);
            && q in t.subs && Work(t, q) == 0 && t.log == s.log
            && t.subs[q].since == s.subs[q].since && t.subs[q].until == s.subs[q].until
            && t.subs[q].dropped == s.subs[q].dropped && t.subs[q].lost == s.subs[q].lost
    decreases Work(s, q)
  {
    if Work(s, q) == 0 {
      ops := [];
    } else {
      var op := Onward(s, q);
      OnwardHelps(s, q);
      NextLosesNothing(s, op);
      var rest := AllArrives(Next(s, op), q);
      ops := [op] + rest;
    }
  }

  /**
   From any state that a run with a running loop reaches, some further steps, none of them an append, bring the
   subscriber everything it is owed but what its full queue has dropped so far.
   */
  lemma EverythingCanArrive(before: seq<Op>, q: Queue) returns (ops: seq<Op>)
    requires LoopKept(before) && q in Run(Start, before).subs
    ensures var s, t := Run(Start, before), Run(Run(Start, before), ops);
            && q in t.subs && t.log == s.log && t.subs[q].dropped == s.subs[q].dropped
            && Owed(t, q) == Owed(s, q)
            && multiset(Owed(s, q)) == multiset(t.subs[q].taken) + multiset(s.subs[q].dropped)
  {
    var s := Run(Start, before);
    StartConserved();
    RunConserved(Start, before);
    RunLosesNothing(Start, before);
    ops := AllArrives(s, q);
    RunConserved(s, ops);
    Arrived(Run(s, ops), q);
  }

  lemma Arrived(s: State, q: Queue)
    requires q in s.subs && Conserved(s) && Work(s, q) == 0 && s.subs[q].lost == []
    ensures multiset(Owed(s, q)) == multiset(s.subs[q].taken) + multiset(s.subs[q].dropped)
  {
    assert Balanced(ViewOf(s, q));
    NoEmitsLeft(s.emits);
  }
}
