/**
 The live-log handler as interleaved steps, first as if emits could overlap, then under the lock that keeps them
 apart. Emitting threads append under a lock, look at the event loop outside it, and post one callback a subscriber
 queue; the loop runs the callbacks in the order they were posted, and subscribers take from their bounded queues.
 */
module LogFanOut {
  import opened Common

  const BUFFER_SIZE := 1000
  const QUEUE_SIZE := 500

  // The identity of a subscriber's queue object.
  datatype Queue = Queue(id: int)

  // `number` is the entry's place in the order of appends; it tells entries with equal text apart.
  datatype Entry = Entry(number: nat, level: int, text: string)

  // An emit between its critical section and its last post: first it has yet to look at the loop, then it posts.
  datatype Emit = Appended(entry: Entry, loopSeen: bool, targets: seq<Queue>) | Posting(entry: Entry, targets: seq<Queue>)

  datatype Post = Post(queue: Queue, entry: Entry)

  // `since` and `until` are log positions; `lost` is what an emit gave up because it saw no running loop.
  datatype Sub = Sub(since: nat, until: Option<nat>, taken: seq<Entry>, contents: seq<Entry>,
                     dropped: seq<Entry>, lost: seq<Entry>)

  // `log` is the whole history of appends; the program itself keeps only `buffer`.
  datatype State = State(log: seq<Entry>, buffer: seq<Entry>, queues: set<Queue>, loopKnown: bool, running: bool,
                         emits: seq<Emit>, posts: seq<Post>, subs: map<Queue, Sub>)

  datatype Op =
    | Append(level: int, text: string, targets: seq<Queue>)
    | LookAtLoop(emit: nat)
    | PostOne(emit: nat)
    | PostFails(emit: nat)
    | RunCallback
    | Take(queue: Queue)
    | Subscribe(queue: Queue, loopFound: bool)
    | Unsubscribe(queue: Queue)
    | SetRunning(on: bool)

  /** A copy of the queue set as a list, in whatever order the set yields. */
  predicate ListsQueues(targets: seq<Queue>, queues: set<Queue>) {
    Distinct(targets) && (forall q :: q in targets ==> q in queues) && (forall q :: q in queues ==> q in targets)
  }

  function RemoveAt<T>(xs: seq<T>, i: nat): seq<T>
    requires i < |xs|
  {
    xs[..i] + xs[i + 1..]
  }

  /** Give up on the targets: record the entry as lost for each of them. */
  function Lose(subs: map<Queue, Sub>, targets: seq<Queue>, e: Entry): map<Queue, Sub> {
    map q | q in subs :: if q in targets then subs[q].(lost := subs[q].lost + [e]) else subs[q]
  }

  predicate Enabled(s: State, op: Op) {
    match op
    case Append(_, _, targets) => ListsQueues(targets, s.queues)
    case LookAtLoop(i) => i < |s.emits| && s.emits[i].Appended?
    case PostOne(i) => i < |s.emits| && s.emits[i].Posting?
    case PostFails(i) => i < |s.emits| && s.emits[i].Posting? && !s.running
    case RunCallback => s.running && s.posts != []
    case Take(q) => q in s.subs && s.subs[q].contents != []
    case Subscribe(q, _) => q !in s.subs
    case Unsubscribe(q) => true
    case SetRunning(_) => true
  }

  function AppendStep(s: State, level: int, text: string, targets: seq<Queue>): State {
    var e := Entry(|s.log|, level, text);
    s.(log := s.log + [e], buffer := LastN(s.buffer + [e], BUFFER_SIZE),
       emits := s.emits + [Appended(e, s.loopKnown, targets)])
  }

  function LookAtLoopStep(s: State, i: nat): State
    requires i < |s.emits| && s.emits[i].Appended?
  {
    var m := s.emits[i];
    if m.loopSeen && s.running && m.targets != [] then s.(emits := s.emits[i := Posting(m.entry, m.targets)])
    else s.(emits := RemoveAt(s.emits, i), subs := Lose(s.subs, m.targets, m.entry))
  }

  function PostOneStep(s: State, i: nat): State
    requires i < |s.emits| && s.emits[i].Posting?
  {
    var m := s.emits[i];
    if m.targets == [] then s.(emits := RemoveAt(s.emits, i))
    else s.(emits := s.emits[i := Posting(m.entry, m.targets[1..])], posts := s.posts + [Post(m.targets[0], m.entry)])
  }

  /** The loop is closed: posting raises, and the emit gives up on the rest of its queues. */
  function PostFailsStep(s: State, i: nat): State
    requires i < |s.emits| && s.emits[i].Posting?
  {
    var m := s.emits[i];
    s.(emits := RemoveAt(s.emits, i), subs := Lose(s.subs, m.targets, m.entry))
  }

  /** The loop runs its oldest callback: the entry goes in the queue, or is dropped when the queue is full. */
  function RunCallbackStep(s: State): State
    requires s.posts != []
  {
    var p := s.posts[0];
    var rest := s.(posts := s.posts[1..]);
    if p.queue !in s.subs then rest else
      var b := s.subs[p.queue];
      rest.(subs := s.subs[p.queue := if |b.contents| < QUEUE_SIZE then b.(contents := b.contents + [p.entry])
                                      else b.(dropped := b.dropped + [p.entry])])
  }

  function TakeStep(s: State, q: Queue): State
    requires q in s.subs && s.subs[q].contents != []
  {
    var b := s.subs[q];
    s.(subs := s.subs[q := b.(taken := b.taken + [b.contents[0]], contents := b.contents[1..])])
  }

  function SubscribeStep(s: State, q: Queue, loopFound: bool): State {
    s.(loopKnown := s.loopKnown || loopFound, queues := s.queues + {q},
       subs := s.subs[q := Sub(|s.log|, None, [], [], [], [])])
  }

  function UnsubscribeStep(s: State, q: Queue): State {
    if q !in s.queues || q !in s.subs then s.(queues := s.queues - {q})
    else s.(queues := s.queues - {q}, subs := s.subs[q := s.subs[q].(until := Some(|s.log|))])
  }

  function Next(s: State, op: Op): State {
    if !Enabled(s, op) then s else
      match op
      case Append(level, text, targets) => AppendStep(s, level, text, targets)
      case LookAtLoop(i) => LookAtLoopStep(s, i)
      case PostOne(i) => PostOneStep(s, i)
      case PostFails(i) => PostFailsStep(s, i)
      case RunCallback => RunCallbackStep(s)
      case Take(q) => TakeStep(s, q)
      case Subscribe(q, found) => SubscribeStep(s, q, found)
      case Unsubscribe(q) => UnsubscribeStep(s, q)
      case SetRunning(on) => s.(running := on)
  }

  function Run(s: State, ops: seq<Op>): State
    decreases |ops|
  {
    if ops == [] then s else Run(Next(s, ops[0]), ops[1..])
  }

  const Start := State([], [], {}, false, true, [], [], map[])

  // ---------- The handler's critical sections ----------

  /** The handler object. Its methods are the lock-protected sections; `s` is the state of the whole system. */
  class LogStreamHandler {
    var buffer: seq<Entry>
    var queues: set<Queue>
    var loopKnown: bool

    ghost predicate Mirrors(s: State)
      reads this
    {
      buffer == s.buffer && queues == s.queues && loopKnown == s.loopKnown
    }

    /** list(self._queues). */
    method ListQueues() returns (targets: seq<Queue>)
      ensures ListsQueues(targets, queues)
    {
      targets := [];
      var todo := queues;
      while todo != {}
        invariant todo <= queues && ListsQueues(targets, queues - todo)
        decreases todo
      {
        var q :| q in todo;
        targets := targets + [q];
        todo := todo - {q};
      }
    }

    method Emit(ghost s: State, e: Entry) returns (loopSeen: bool, targets: seq<Queue>)
      requires Mirrors(s) && e.number == |s.log|
      modifies this
      ensures var t := Next(s, Append(e.level, e.text, targets));
              && Mirrors(t) && ListsQueues(targets, queues)
              && t.log == s.log + [e] && t.emits == s.emits + [Appended(e, loopSeen, targets)]
    {
      buffer := LastN(buffer + [e], BUFFER_SIZE);
      loopSeen := loopKnown;
      targets := ListQueues();
    }

    method Subscribe(ghost s: State, q: Queue, loopFound: bool)
      requires Mirrors(s) && q !in s.subs
      modifies this
      ensures Mirrors(Next(s, Op.Subscribe(q, loopFound)))
    {
      if loopFound {
        loopKnown := true;
      }
      queues := queues + {q};
    }

    method Unsubscribe(ghost s: State, q: Queue)
      requires Mirrors(s)
      modifies this
      ensures Mirrors(Next(s, Op.Unsubscribe(q)))
    {
      queues := queues - {q};
    }

    /** The snapshot is the newest appends, oldest first, whatever the interleaving that led here. */
    method GetBuffer(ghost s: State) returns (snapshot: seq<Entry>)
      requires Mirrors(s) && BufferInv(s)
      ensures snapshot == LastN(s.log, BUFFER_SIZE)
    {
      snapshot := buffer;
    }
  }

  // ---------- The buffer ----------

  ghost predicate Numbered(log: seq<Entry>) {
    forall i :: 0 <= i < |log| ==> log[i].number == i
  }

  ghost predicate BufferInv(s: State) {
    Numbered(s.log) && s.buffer == LastN(s.log, BUFFER_SIZE)
  }

  lemma BoundedAppend(log: seq<Entry>, buffer: seq<Entry>, e: Entry)
    requires Numbered(log) && e.number == |log| && buffer == LastN(log, BUFFER_SIZE)
    ensures Numbered(log + [e]) && LastN(buffer + [e], BUFFER_SIZE) == LastN(log + [e], BUFFER_SIZE)
  {
  }

  lemma NextKeepsBuffer(s: State, op: Op)
    requires BufferInv(s)
    ensures BufferInv(Next(s, op))
  {
    if Enabled(s, op) && op.Append? {
      BoundedAppend(s.log, s.buffer, Entry(|s.log|, op.level, op.text));
    }
  }

  lemma {:induction false} BufferIsLastAppends(s: State, ops: seq<Op>)
    requires BufferInv(s)
    ensures BufferInv(Run(s, ops))
    decreases |ops|
  {
    if ops != [] {
      NextKeepsBuffer(s, ops[0]);
      BufferIsLastAppends(Next(s, ops[0]), ops[1..]);
    }
  }

  // ---------- One queue's entries, and the moves between its places ----------

  /** The appends made while the queue was registered. */
  function Owed(s: State, q: Queue): seq<Entry>
    requires q in s.subs
  {
    var b := s.subs[q];
    var end := if b.until.Some? then b.until.value else |s.log|;
    if b.since <= end <= |s.log| then s.log[b.since..end] else []
  }

  function PostedFor(posts: seq<Post>, q: Queue): seq<Entry> {
    if posts == [] then [] else
      PostedFor(posts[..|posts| - 1], q) + if posts[|posts| - 1].queue == q then [posts[|posts| - 1].entry] else []
  }

  function HeldBy(m: Emit, q: Queue): seq<Entry> {
    if q in m.targets then [m.entry] else []
  }

  function HeldFor(emits: seq<Emit>, q: Queue): seq<Entry> {
    if emits == [] then [] else HeldFor(emits[..|emits| - 1], q) + HeldBy(emits[|emits| - 1], q)
  }

  // What a queue is owed, and the six places where it may be.
  datatype View = View(owed: seq<Entry>, taken: seq<Entry>, contents: seq<Entry>, dropped: seq<Entry>,
                       lost: seq<Entry>, posted: seq<Entry>, held: seq<Entry>)

  function ViewOf(s: State, q: Queue): View
    requires q in s.subs
  {
    var b := s.subs[q];
    View(Owed(s, q), b.taken, b.contents, b.dropped, b.lost, PostedFor(s.posts, q), HeldFor(s.emits, q))
  }

  // How a step may move the entries `x` of a queue; `a` and `b` are what other emits hold before and after them.
  datatype Move =
    | Stay
    | Own(x: seq<Entry>)
    | GiveUp(a: seq<Entry>, x: seq<Entry>, b: seq<Entry>)
    | PostIt(a: seq<Entry>, x: seq<Entry>, b: seq<Entry>)
    | Accept(x: seq<Entry>)
    | Reject(x: seq<Entry>)
    | Deliver(x: seq<Entry>)

  predicate Moves(v: View, m: Move, w: View) {
    match m
    case Stay => w == v
    case Own(x) => w == v.(owed := v.owed + x, held := v.held + x)
    case GiveUp(a, x, b) => v.held == a + x + b && w == v.(held := a + b, lost := v.lost + x)
    case PostIt(a, x, b) => v.held == a + x + b && w == v.(held := a + b, posted := v.posted + x)
    case Accept(x) => v.posted == x + w.posted && w == v.(posted := w.posted, contents := v.contents + x)
    case Reject(x) => v.posted == x + w.posted && w == v.(posted := w.posted, dropped := v.dropped + x)
    case Deliver(x) => v.contents == x + w.contents && w == v.(contents := w.contents, taken := v.taken + x)
  }

  lemma {:induction false} HeldConcat(a: seq<Emit>, b: seq<Emit>, q: Queue)
    ensures HeldFor(a + b, q) == HeldFor(a, q) + HeldFor(b, q)
    decreases |b|
  {
    if b == [] {
      assert a + b == a;
    } else {
      var init, last := b[..|b| - 1], b[|b| - 1];
      HeldConcat(a, init, q);
      assert (a + b)[..|a + b| - 1] == a + init && (a + b)[|a + b| - 1] == last;
      assert HeldFor(a + b, q) == HeldFor(a + init, q) + HeldBy(last, q);
    }
  }

  lemma HeldSplit(emits: seq<Emit>, i: nat, q: Queue)
    requires i < |emits|
    ensures HeldFor(emits, q) == HeldFor(emits[..i], q) + HeldBy(emits[i], q) + HeldFor(emits[i + 1..], q)
  {
    assert emits == emits[..i] + ([emits[i]] + emits[i + 1..]);
    HeldConcat(emits[..i], [emits[i]] + emits[i + 1..], q);
    HeldConcat([emits[i]], emits[i + 1..], q);
    assert [emits[i]][..0] == [];
    assert HeldFor([emits[i]], q) == HeldBy(emits[i], q);
  }

  lemma HeldReplaced(emits: seq<Emit>, i: nat, m: Emit, q: Queue)
    requires i < |emits|
    ensures HeldFor(emits[i := m], q) == HeldFor(emits[..i], q) + HeldBy(m, q) + HeldFor(emits[i + 1..], q)
  {
    HeldSplit(emits[i := m], i, q);
    assert emits[i := m][..i] == emits[..i] && emits[i := m][i + 1..] == emits[i + 1..];
  }

  lemma {:induction false} PostedHead(posts: seq<Post>, q: Queue)
    requires posts != []
    ensures PostedFor(posts, q) == (if posts[0].queue == q then [posts[0].entry] else []) + PostedFor(posts[1..], q)
    decreases |posts|
  {
    var n := |posts| - 1;
    if n == 0 {
      assert posts[..0] == [] && posts[1..] == [];
    } else {
      PostedHead(posts[..n], q);
      assert posts[..n][1..] == posts[1..][..n - 1];
    }
  }

  // ---------- The shape of the state ----------

  ghost predicate SubsOk(s: State) {
    && Numbered(s.log)
    && (forall q :: q in s.queues <==> q in s.subs && s.subs[q].until.None?)
    && (forall q :: q in s.subs ==> s.subs[q].since <= |s.log| && |s.subs[q].contents| <= QUEUE_SIZE)
    && (forall q :: q in s.subs && s.subs[q].until.Some? ==> s.subs[q].since <= s.subs[q].until.value <= |s.log|)
  }

  ghost predicate TargetsOk(targets: seq<Queue>, known: set<Queue>) {
    Distinct(targets) && forall i :: 0 <= i < |targets| ==> targets[i] in known
  }

  ghost predicate EmitsOk(emits: seq<Emit>, known: set<Queue>) {
    forall i :: 0 <= i < |emits| ==> TargetsOk(emits[i].targets, known)
  }

  ghost predicate PostsOk(posts: seq<Post>, known: set<Queue>) {
    forall i :: 0 <= i < |posts| ==> posts[i].queue in known
  }

  ghost predicate WellFormed(s: State) {
    SubsOk(s) && EmitsOk(s.emits, s.subs.Keys) && PostsOk(s.posts, s.subs.Keys)
  }

  predicate EmitterOp(op: Op) {
    op.LookAtLoop? || op.PostOne? || op.PostFails?
  }

  /** Steps that leave the log and every subscriber's registration as they are. */
  lemma SameRegistrations(s: State, t: State)
    requires SubsOk(s) && t.log == s.log && t.queues == s.queues && t.subs.Keys == s.subs.Keys
    requires forall q :: q in s.subs ==> t.subs[q].since == s.subs[q].since && t.subs[q].until == s.subs[q].until
    requires forall q :: q in s.subs ==> |t.subs[q].contents| <= QUEUE_SIZE
    ensures SubsOk(t)
  {
  }

  lemma EmitterSubsOk(s: State, op: Op)
    requires SubsOk(s) && Enabled(s, op) && EmitterOp(op)
    ensures SubsOk(Next(s, op)) && s.subs.Keys == Next(s, op).subs.Keys
  {
    var n := s.emits[op.emit];
    LoseKeeps(s.subs, n.targets, n.entry);
    SameRegistrations(s, Next(s, op));
  }

  lemma LoseKeeps(subs: map<Queue, Sub>, targets: seq<Queue>, e: Entry)
    ensures Lose(subs, targets, e).Keys == subs.Keys
    ensures forall q :: q in subs ==> Lose(subs, targets, e)[q] == subs[q].(lost := Lose(subs, targets, e)[q].lost)
  {
  }

  lemma AppendSubsOk(s: State, level: int, text: string, targets: seq<Queue>)
    requires SubsOk(s)
    ensures SubsOk(AppendStep(s, level, text, targets))
  {
  }

  lemma SubscribeSubsOk(s: State, q: Queue, found: bool)
    requires SubsOk(s) && q !in s.subs
    ensures SubsOk(SubscribeStep(s, q, found))
  {
  }

  lemma UnsubscribeSubsOk(s: State, q: Queue)
    requires SubsOk(s)
    ensures SubsOk(UnsubscribeStep(s, q)) && UnsubscribeStep(s, q).subs.Keys == s.subs.Keys
  {
  }

  lemma DeliverySubsOk(s: State, op: Op)
    requires SubsOk(s) && Enabled(s, op) && (op.RunCallback? || op.Take?)
    ensures SubsOk(Next(s, op)) && s.subs.Keys <= Next(s, op).subs.Keys
  {
    SameRegistrations(s, Next(s, op));
  }

  lemma NextSubsOk(s: State, op: Op)
    requires SubsOk(s)
    ensures SubsOk(Next(s, op)) && s.subs.Keys <= Next(s, op).subs.Keys
  {
    if Enabled(s, op) {
      match op
      case Append(level, text, targets) => AppendSubsOk(s, level, text, targets);
      case Subscribe(q, found) => SubscribeSubsOk(s, q, found);
      case Unsubscribe(q) => UnsubscribeSubsOk(s, q);
      case RunCallback => DeliverySubsOk(s, op);
      case Take(_) => DeliverySubsOk(s, op);
      case SetRunning(_) =>
      case _ => EmitterSubsOk(s, op);
    }
  }

  lemma NextWellFormed(s: State, op: Op)
    requires WellFormed(s)
    ensures WellFormed(Next(s, op))
  {
    NextSubsOk(s, op);
    NextEmitsOk(s, op);
    NextPostsOk(s, op);
  }

  lemma AppendEmitsOk(s: State, level: int, text: string, targets: seq<Queue>)
    requires WellFormed(s) && ListsQueues(targets, s.queues)
    ensures EmitsOk(AppendStep(s, level, text, targets).emits, s.subs.Keys)
  {
    assert forall i :: 0 <= i < |targets| ==> targets[i] in targets;
  }

  lemma ReplacedOk(emits: seq<Emit>, i: nat, m: Emit, known: set<Queue>)
    requires EmitsOk(emits, known) && i < |emits| && TargetsOk(m.targets, known)
    ensures EmitsOk(emits[i := m], known)
  {
  }

  lemma RemovedOk(emits: seq<Emit>, i: nat, known: set<Queue>)
    requires EmitsOk(emits, known) && i < |emits|
    ensures EmitsOk(RemoveAt(emits, i), known)
  {
    var rest := RemoveAt(emits, i);
    forall j | 0 <= j < |rest| ensures rest[j] == emits[if j < i then j else j + 1] {}
  }

  lemma RestOk(targets: seq<Queue>, known: set<Queue>)
    requires TargetsOk(targets, known) && targets != []
    ensures TargetsOk(targets[1..], known)
  {
  }

  lemma EmitterEmitsOk(s: State, op: Op)
    requires WellFormed(s) && Enabled(s, op) && EmitterOp(op)
    ensures EmitsOk(Next(s, op).emits, s.subs.Keys)
  {
    var i, known := op.emit, s.subs.Keys;
    var n := s.emits[i];
    assert TargetsOk(n.targets, known);
    RemovedOk(s.emits, i, known);
    ReplacedOk(s.emits, i, Posting(n.entry, n.targets), known);
    if n.targets != [] {
      RestOk(n.targets, known);
      ReplacedOk(s.emits, i, Posting(n.entry, n.targets[1..]), known);
    }
  }

  lemma NextEmitsOk(s: State, op: Op)
    requires WellFormed(s)
    ensures EmitsOk(Next(s, op).emits, Next(s, op).subs.Keys)
  {
    NextSubsOk(s, op);
    if Enabled(s, op) {
      match op
      case Append(level, text, targets) => AppendEmitsOk(s, level, text, targets);
      case LookAtLoop(_) => EmitterEmitsOk(s, op);
      case PostOne(_) => EmitterEmitsOk(s, op);
      case PostFails(_) => EmitterEmitsOk(s, op);
      case _ =>
    }
  }

  lemma NextPostsOk(s: State, op: Op)
    requires WellFormed(s)
    ensures PostsOk(Next(s, op).posts, Next(s, op).subs.Keys)
  {
    NextSubsOk(s, op);
    if Enabled(s, op) && op.PostOne? {
      assert TargetsOk(s.emits[op.emit].targets, s.subs.Keys);
    }
  }

  // ---------- Every step moves entries ----------

  lemma AppendMoves(s: State, level: int, text: string, targets: seq<Queue>, q: Queue) returns (m: Move)
    requires SubsOk(s) && ListsQueues(targets, s.queues) && q in s.subs
    ensures m.Own? && m.x <= [Entry(|s.log|, level, text)]
    ensures Moves(ViewOf(s, q), m, ViewOf(AppendStep(s, level, text, targets), q))
  {
    var t := AppendStep(s, level, text, targets);
    var n := Appended(Entry(|s.log|, level, text), s.loopKnown, targets);
    m := Own(HeldBy(n, q));
    assert Owed(t, q) == Owed(s, q) + HeldBy(n, q);
    assert t.emits[..|s.emits|] == s.emits;
  }

  lemma LoseMoves(s: State, i: nat, q: Queue) returns (m: Move)
    requires i < |s.emits| && q in s.subs
    ensures m == GiveUp(HeldFor(s.emits[..i], q), HeldBy(s.emits[i], q), HeldFor(s.emits[i + 1..], q))
    ensures var n := s.emits[i];
            Moves(ViewOf(s, q), m, ViewOf(s.(emits := RemoveAt(s.emits, i), subs := Lose(s.subs, n.targets, n.entry)), q))
  {
    var n := s.emits[i];
    m := GiveUp(HeldFor(s.emits[..i], q), HeldBy(n, q), HeldFor(s.emits[i + 1..], q));
    HeldSplit(s.emits, i, q);
    HeldConcat(s.emits[..i], s.emits[i + 1..], q);
    var t := s.(emits := RemoveAt(s.emits, i), subs := Lose(s.subs, n.targets, n.entry));
    assert t.subs[q].lost == s.subs[q].lost + HeldBy(n, q);
  }

  lemma HeldAfterFirst(e: Entry, targets: seq<Queue>, q: Queue)
    requires targets != [] && Distinct(targets)
    ensures HeldBy(Posting(e, targets[1..]), q) == if targets[0] == q then [] else HeldBy(Posting(e, targets), q)
  {
    assert targets == [targets[0]] + targets[1..];
  }

  lemma PostedMore(posts: seq<Post>, p: Post, q: Queue)
    ensures PostedFor(posts + [p], q) == PostedFor(posts, q) + if p.queue == q then [p.entry] else []
  {
    assert (posts + [p])[..|posts|] == posts;
  }

  lemma PostMoves(s: State, i: nat, q: Queue) returns (m: Move)
    requires i < |s.emits| && s.emits[i].Posting? && Distinct(s.emits[i].targets) && q in s.subs
    ensures m.PostIt? || m.GiveUp?
    ensures Moves(ViewOf(s, q), m, ViewOf(PostOneStep(s, i), q))
  {
    var n := s.emits[i];
    if n.targets == [] {
      m := LoseMoves(s, i, q);
      assert PostOneStep(s, i).subs == s.subs == Lose(s.subs, n.targets, n.entry);
    } else {
      m := PostFirstMoves(s, i, q);
    }
  }

  lemma HeldAfterPost(emits: seq<Emit>, i: nat, q: Queue) returns (a: seq<Entry>, x: seq<Entry>, b: seq<Entry>)
    requires i < |emits| && emits[i].targets != [] && Distinct(emits[i].targets)
    ensures x == if emits[i].targets[0] == q then [emits[i].entry] else []
    ensures HeldFor(emits, q) == a + x + b
    ensures HeldFor(emits[i := Posting(emits[i].entry, emits[i].targets[1..])], q) == a + b
  {
    a, b := HeldFor(emits[..i], q), HeldFor(emits[i + 1..], q);
    HeldBeforeAndAfter(emits, i, q);
    if emits[i].targets[0] == q {
      x := [emits[i].entry];
      NothingBetween(a, b);
    } else {
      a, x := a + HeldBy(emits[i], q), [];
      NothingBetween(a, b);
    }
  }

  lemma NothingBetween(a: seq<Entry>, b: seq<Entry>)
    ensures a + [] + b == a + b
  {
  }

  lemma HeldBeforeAndAfter(emits: seq<Emit>, i: nat, q: Queue)
    requires i < |emits| && emits[i].targets != [] && Distinct(emits[i].targets)
    ensures var n, a, b := emits[i], HeldFor(emits[..i], q), HeldFor(emits[i + 1..], q);
            && HeldFor(emits, q) == a + HeldBy(n, q) + b
            && HeldFor(emits[i := Posting(n.entry, n.targets[1..])], q) ==
               a + (if n.targets[0] == q then [] else HeldBy(n, q)) + b
  {
    var n := emits[i];
    HeldSplit(emits, i, q);
    HeldReplaced(emits, i, Posting(n.entry, n.targets[1..]), q);
    HeldAfterFirst(n.entry, n.targets, q);
    assert HeldBy(Posting(n.entry, n.targets), q) == HeldBy(n, q);
  }

  lemma PostFirstMoves(s: State, i: nat, q: Queue) returns (m: Move)
    requires i < |s.emits| && s.emits[i].Posting? && Distinct(s.emits[i].targets) && q in s.subs
    requires s.emits[i].targets != []
    ensures m.PostIt?
    ensures Moves(ViewOf(s, q), m, ViewOf(PostOneStep(s, i), q))
  {
    var a, x, b := HeldAfterPost(s.emits, i, q);
    m := PostIt(a, x, b);
    PostedView(s, i, q);
    PostItShape(ViewOf(s, q), m, ViewOf(PostOneStep(s, i), q));
  }

  lemma PostedView(s: State, i: nat, q: Queue)
    requires i < |s.emits| && s.emits[i].Posting? && s.emits[i].targets != [] && q in s.subs
    ensures var n := s.emits[i];
            ViewOf(PostOneStep(s, i), q) ==
            ViewOf(s, q).(held := HeldFor(s.emits[i := Posting(n.entry, n.targets[1..])], q),
                          posted := PostedFor(s.posts, q) + if n.targets[0] == q then [n.entry] else [])
  {
    PostedMore(s.posts, Post(s.emits[i].targets[0], s.emits[i].entry), q);
  }

  lemma PostItShape(v: View, m: Move, w: View)
    requires m.PostIt? && v.held == m.a + m.x + m.b && w.held == m.a + m.b && w.posted == v.posted + m.x
    requires w == v.(held := w.held, posted := w.posted)
    ensures Moves(v, m, w)
  {
  }

  lemma CallbackMoves(s: State, q: Queue) returns (m: Move)
    requires s.posts != [] && q in s.subs
    ensures m.Accept? || m.Reject? || m == Stay
    ensures q in RunCallbackStep(s).subs && Moves(ViewOf(s, q), m, ViewOf(RunCallbackStep(s), q))
  {
    PostedHead(s.posts, q);
    var p := s.posts[0];
    if p.queue == q {
      m := CallbackArrives(s, q);
    } else {
      m := Stay;
      assert [] + PostedFor(s.posts[1..], q) == PostedFor(s.posts[1..], q);
    }
  }

  lemma CallbackArrives(s: State, q: Queue) returns (m: Move)
    requires s.posts != [] && q in s.subs && s.posts[0].queue == q
    requires PostedFor(s.posts, q) == [s.posts[0].entry] + PostedFor(s.posts[1..], q)
    ensures m.Accept? || m.Reject?
    ensures q in RunCallbackStep(s).subs && Moves(ViewOf(s, q), m, ViewOf(RunCallbackStep(s), q))
  {
    var e := s.posts[0].entry;
    if |s.subs[q].contents| < QUEUE_SIZE {
      m := Accept([e]);
    } else {
      m := Reject([e]);
    }
  }

  lemma TakeMoves(s: State, r: Queue, q: Queue) returns (m: Move)
    requires r in s.subs && s.subs[r].contents != [] && q in s.subs
    ensures m.Deliver? || m == Stay
    ensures Moves(ViewOf(s, q), m, ViewOf(TakeStep(s, r), q))
  {
    m := if r == q then Deliver([s.subs[q].contents[0]]) else Stay;
  }

  lemma EmitterMoves(s: State, op: Op, q: Queue) returns (m: Move)
    requires WellFormed(s) && Enabled(s, op) && EmitterOp(op) && q in s.subs
    ensures !m.Own?
    ensures q in Next(s, op).subs && Moves(ViewOf(s, q), m, ViewOf(Next(s, op), q))
  {
    var i := op.emit;
    var n := s.emits[i];
    if op.PostOne? {
      assert TargetsOk(n.targets, s.subs.Keys);
      m := PostMoves(s, i, q);
    } else if op.LookAtLoop? && n.loopSeen && s.running && n.targets != [] {
      m := Stay;
      HeldSplit(s.emits, i, q);
      HeldReplaced(s.emits, i, Posting(n.entry, n.targets), q);
    } else {
      m := LoseMoves(s, i, q);
    }
  }

  /** Whatever step is taken, a registered queue's entries make one of the moves. */
  lemma NextMoves(s: State, op: Op, q: Queue) returns (m: Move)
    requires WellFormed(s) && Enabled(s, op) && q in s.subs
    ensures m.Own? ==> op.Append? && m.x <= [Entry(|s.log|, op.level, op.text)]
    ensures q in Next(s, op).subs && Moves(ViewOf(s, q), m, ViewOf(Next(s, op), q))
  {
    match op
    case Append(level, text, targets) => m := AppendMoves(s, level, text, targets, q);
    case LookAtLoop(_) => m := EmitterMoves(s, op, q);
    case PostOne(_) => m := EmitterMoves(s, op, q);
    case PostFails(_) => m := EmitterMoves(s, op, q);
    case RunCallback => m := CallbackMoves(s, q);
    case Take(r) => m := TakeMoves(s, r, q);
    case Subscribe(r, found) => m := Stay;
    case Unsubscribe(r) => m := Stay;
    case SetRunning(_) => m := Stay;
  }

  lemma NewQueueIsEmpty(s: State, q: Queue, found: bool)
    requires WellFormed(s) && q !in s.subs
    ensures ViewOf(SubscribeStep(s, q, found), q) == View([], [], [], [], [], [], [])
  {
    NothingPosted(s.posts, s.subs.Keys, q);
    NothingHeld(s.emits, s.subs.Keys, q);
  }

  lemma {:induction false} NothingPosted(posts: seq<Post>, known: set<Queue>, q: Queue)
    requires PostsOk(posts, known) && q !in known
    ensures PostedFor(posts, q) == []
  {
    if posts != [] { NothingPosted(posts[..|posts| - 1], known, q); }
  }

  lemma {:induction false} NothingHeld(emits: seq<Emit>, known: set<Queue>, q: Queue)
    requires EmitsOk(emits, known) && q !in known
    ensures HeldFor(emits, q) == []
  {
    if emits != [] {
      NothingHeld(emits[..|emits| - 1], known, q);
      assert TargetsOk(emits[|emits| - 1].targets, known);
    }
  }

  // ---------- Conservation ----------

  /** Everything the queue is owed is in the places, as often as it is owed. */
  ghost predicate Balanced(v: View) {
    multiset(v.owed) == multiset(v.taken) + multiset(v.contents) + multiset(v.dropped) + multiset(v.lost)
                        + multiset(v.posted) + multiset(v.held)
  }

  lemma MiddleMoves(a: seq<Entry>, x: seq<Entry>, b: seq<Entry>)
    ensures multiset(a + x + b) == multiset(a + b) + multiset(x)
  {
  }

  lemma Joined(a: seq<Entry>, x: seq<Entry>)
    ensures multiset(a + x) == multiset(a) + multiset(x)
  {
  }

  lemma OwnBalances(v: View, x: seq<Entry>)
    requires Balanced(v)
    ensures Balanced(v.(owed := v.owed + x, held := v.held + x))
  {
    Joined(v.owed, x);
    Joined(v.held, x);
  }

  lemma GiveUpBalances(v: View, a: seq<Entry>, x: seq<Entry>, b: seq<Entry>)
    requires Balanced(v) && v.held == a + x + b
    ensures Balanced(v.(held := a + b, lost := v.lost + x))
  {
    MiddleMoves(a, x, b);
    Joined(v.lost, x);
  }

  lemma PostBalances(v: View, a: seq<Entry>, x: seq<Entry>, b: seq<Entry>)
    requires Balanced(v) && v.held == a + x + b
    ensures Balanced(v.(held := a + b, posted := v.posted + x))
  {
    MiddleMoves(a, x, b);
    Joined(v.posted, x);
  }

  lemma AcceptBalances(v: View, x: seq<Entry>, rest: seq<Entry>)
    requires Balanced(v) && v.posted == x + rest
    ensures Balanced(v.(posted := rest, contents := v.contents + x))
  {
    Joined(x, rest);
    Joined(v.contents, x);
  }

  lemma RejectBalances(v: View, x: seq<Entry>, rest: seq<Entry>)
    requires Balanced(v) && v.posted == x + rest
    ensures Balanced(v.(posted := rest, dropped := v.dropped + x))
  {
    Joined(x, rest);
    Joined(v.dropped, x);
  }

  lemma DeliverBalances(v: View, x: seq<Entry>, rest: seq<Entry>)
    requires Balanced(v) && v.contents == x + rest
    ensures Balanced(v.(contents := rest, taken := v.taken + x))
  {
    Joined(x, rest);
    Joined(v.taken, x);
  }

  lemma MoveBalances(v: View, m: Move, w: View)
    requires Moves(v, m, w) && Balanced(v)
    ensures Balanced(w)
  {
    match m
    case Stay =>
    case Own(x) => OwnBalances(v, x);
    case GiveUp(a, x, b) => GiveUpBalances(v, a, x, b);
    case PostIt(a, x, b) => PostBalances(v, a, x, b);
    case Accept(x) => AcceptBalances(v, x, w.posted);
    case Reject(x) => RejectBalances(v, x, w.posted);
    case Deliver(x) => DeliverBalances(v, x, w.contents);
  }

  ghost predicate Conserved(s: State) {
    WellFormed(s) && forall q :: q in s.subs ==> Balanced(ViewOf(s, q))
  }

  lemma NextBalances(s: State, op: Op, q: Queue)
    requires Conserved(s) && Enabled(s, op) && q in Next(s, op).subs
    ensures Balanced(ViewOf(Next(s, op), q))
  {
    if q in s.subs {
      var m := NextMoves(s, op, q);
      MoveBalances(ViewOf(s, q), m, ViewOf(Next(s, op), q));
    } else {
      OnlySubscribersAreNew(s, op, q);
      NewQueueIsEmpty(s, q, op.loopFound);
    }
  }

  lemma OnlySubscribersAreNew(s: State, op: Op, q: Queue)
    requires Enabled(s, op) && q in Next(s, op).subs && q !in s.subs
    ensures op.Subscribe? && op.queue == q && Next(s, op) == SubscribeStep(s, q, op.loopFound)
  {
  }

  lemma NextConserved(s: State, op: Op)
    requires Conserved(s)
    ensures Conserved(Next(s, op))
  {
    NextWellFormed(s, op);
    if Enabled(s, op) {
      var t := Next(s, op);
      forall q | q in t.subs ensures Balanced(ViewOf(t, q)) {
        NextBalances(s, op, q);
      }
    }
  }

  lemma {:induction false} RunConserved(s: State, ops: seq<Op>)
    requires Conserved(s)
    ensures Conserved(Run(s, ops))
    decreases |ops|
  {
    if ops != [] {
      NextConserved(s, ops[0]);
      RunConserved(Next(s, ops[0]), ops[1..]);
    }
  }

  // ---------- Nothing is lost while the loop runs ----------

  /** Every subscriber found its event loop and the loop is never stopped. */
  predicate LoopKept(ops: seq<Op>) {
    forall op :: op in ops ==> (op.Subscribe? ==> op.loopFound) && (op.SetRunning? ==> op.on)
  }

  ghost predicate NothingLost(s: State) {
    && s.running && (s.queues != {} ==> s.loopKnown)
    && (forall q :: q in s.subs ==> s.subs[q].lost == [])
    && (forall m :: m in s.emits && m.Appended? && m.targets != [] ==> m.loopSeen)
  }

  lemma EmitterLosesNothing(s: State, op: Op)
    requires NothingLost(s) && Enabled(s, op) && (op.Append? || EmitterOp(op))
    ensures NothingLost(Next(s, op))
  {
    if op.Append? {
      if op.targets != [] {
        assert op.targets[0] in op.targets && op.targets[0] in s.queues;
      }
    } else {
      assert s.emits[op.emit] in s.emits;
    }
  }

  lemma NextLosesNothing(s: State, op: Op)
    requires NothingLost(s) && LoopKept([op])
    ensures NothingLost(Next(s, op))
  {
    assert op in [op];
    if Enabled(s, op) && (op.Append? || EmitterOp(op)) {
      EmitterLosesNothing(s, op);
    }
  }

  lemma {:induction false} RunLosesNothing(s: State, ops: seq<Op>)
    requires NothingLost(s) && LoopKept(ops)
    ensures NothingLost(Run(s, ops))
    decreases |ops|
  {
    if ops != [] {
      assert ops[0] in ops;
      NextLosesNothing(s, ops[0]);
      RunLosesNothing(Next(s, ops[0]), ops[1..]);
    }
  }

  lemma StartConserved()
    ensures Conserved(Start) && BufferInv(Start) && NothingLost(Start)
  {
  }

  /** Ascending append numbers: such a sequence of entries of the log is a subsequence of it. */
  predicate InAppendOrder(xs: seq<Entry>) {
    forall i, j :: 0 <= i < j < |xs| ==> xs[i].number < xs[j].number
  }

  lemma {:induction false} AscendingIsDistinct(xs: seq<Entry>, e: Entry)
    requires InAppendOrder(xs)
    ensures multiset(xs)[e] <= 1
  {
    if xs != [] {
      var n := |xs| - 1;
      AscendingIsDistinct(xs[..n], e);
      assert xs == xs[..n] + [xs[n]];
      if xs[n] == e { assert e !in xs[..n]; }
    }
  }

  /**
   While the loop runs, under every interleaving of emitters, loop and subscribers: the entries a queue's
   subscriber has taken, those waiting in it, those dropped because it was full, those posted to the loop and
   those still held by an emit are together the appends made while the queue was registered, each once.
   */
  lemma FanOutConserves(ops: seq<Op>, q: Queue)
    requires LoopKept(ops) && q in Run(Start, ops).subs
    ensures var v := ViewOf(Run(Start, ops), q);
            var places := multiset(v.taken) + multiset(v.contents) + multiset(v.dropped)
                          + multiset(v.posted) + multiset(v.held);
            multiset(v.owed) == places && forall e :: places[e] <= 1
  {
    StartConserved();
    RunConserved(Start, ops);
    RunLosesNothing(Start, ops);
    OwedInOrder(Run(Start, ops), q);
    EachOnce(ViewOf(Run(Start, ops), q));
  }

  lemma OwedInOrder(s: State, q: Queue)
    requires q in s.subs && Numbered(s.log)
    ensures InAppendOrder(Owed(s, q))
  {
  }

  lemma EachOnce(v: View)
    requires Balanced(v) && v.lost == [] && InAppendOrder(v.owed)
    ensures var places := multiset(v.taken) + multiset(v.contents) + multiset(v.dropped)
                          + multiset(v.posted) + multiset(v.held);
            multiset(v.owed) == places && forall e :: places[e] <= 1
  {
    forall e ensures multiset(v.owed)[e] <= 1 {
      AscendingIsDistinct(v.owed, e);
    }
  }

  /** Without a found loop the premise matters: a lone subscriber that found none misses an append altogether. */
  lemma NoLoopLoses()
    ensures exists ops, q :: q in Run(Start, ops).subs && Run(Start, ops).subs[q].lost != []
  {
    var ops := [Subscribe(Queue(7), false), Append(20, "x", [Queue(7)]), LookAtLoop(0)];
    var s1 := Next(Start, ops[0]);
    var s2 := Next(s1, ops[1]);
    var s3 := Next(s2, ops[2]);
    assert ops[1..][1..][1..] == [];
    assert Run(Start, ops) == Run(s1, ops[1..]) == Run(s2, ops[1..][1..]) == Run(s3, ops[1..][1..][1..]) == s3;
    assert s3.subs[Queue(7)].lost == [Entry(0, 20, "x")];
  }

  // ---------- Order ----------

  /** The base class of log handlers holds a lock of its own around emit: an emit waits for the one in progress. */
  predicate Waits(s: State, op: Op) {
    op.Append? && s.emits != []
  }

  function LockedNext(s: State, op: Op): State {
    if Waits(s, op) then s else Next(s, op)
  }

  /** A run under that lock. Any number of threads may log; an append tried too early does not happen. */
  function LockedRun(s: State, ops: seq<Op>): State
    decreases |ops|
  {
    if ops == [] then s else LockedRun(LockedNext(s, ops[0]), ops[1..])
  }

  function Admitted(s: State, ops: seq<Op>): seq<Op>
    decreases |ops|
  {
    if ops == [] then [] else
      (if Waits(s, ops[0]) then [] else [ops[0]]) + Admitted(LockedNext(s, ops[0]), ops[1..])
  }

  /** Such a run is one of the interleavings above: what holds of every interleaving holds of it. */
  lemma {:induction false} LockedRunIsRun(s: State, ops: seq<Op>)
    ensures LockedRun(s, ops) == Run(s, Admitted(s, ops))
    decreases |ops|
  {
    if ops != [] {
      var rest := Admitted(LockedNext(s, ops[0]), ops[1..]);
      LockedRunIsRun(LockedNext(s, ops[0]), ops[1..]);
      if Waits(s, ops[0]) {
        assert [] + rest == rest;
      } else {
        assert ([ops[0]] + rest)[0] == ops[0] && ([ops[0]] + rest)[1..] == rest;
      }
    }
  }

  /** What the queue has got so far, then what is on its way. */
  function Stream(v: View): seq<Entry> {
    v.taken + v.contents + v.posted + v.held
  }

  ghost predicate StreamOk(v: View, next: nat) {
    |v.held| <= 1 && InAppendOrder(Stream(v)) && forall i :: 0 <= i < |Stream(v)| ==> Stream(v)[i].number < next
  }

  lemma OrderAfterDrop(a: seq<Entry>, x: seq<Entry>, b: seq<Entry>, next: nat)
    requires InAppendOrder(a + x + b) && forall i :: 0 <= i < |a + x + b| ==> (a + x + b)[i].number < next
    ensures InAppendOrder(a + b) && forall i :: 0 <= i < |a + b| ==> (a + b)[i].number < next
  {
    var xs, ys := a + x + b, a + b;
    forall i | 0 <= i < |ys| ensures ys[i] == xs[if i < |a| then i else i + |x|] {}
    forall i, j | 0 <= i < j < |ys| ensures ys[i].number < ys[j].number {
      var k, l := if i < |a| then i else i + |x|, if j < |a| then j else j + |x|;
      assert xs[k].number < xs[l].number;
    }
  }

  lemma GrownStream(v: View, w: View, x: seq<Entry>, next: nat)
    requires StreamOk(v, next) && v.held == [] && |x| <= 1 && (x != [] ==> x[0].number == next)
    requires w == v.(owed := w.owed, held := x)
    ensures StreamOk(w, next + 1)
  {
    assert Stream(w) == Stream(v) + x;
  }

  lemma ShrunkStream(v: View, w: View, a: seq<Entry>, x: seq<Entry>, b: seq<Entry>, next: nat)
    requires StreamOk(v, next) && Stream(v) == a + x + b && Stream(w) == a + b && |w.held| <= 1
    ensures StreamOk(w, next)
  {
    OrderAfterDrop(a, x, b, next);
  }

  lemma MoveKeepsOrder(v: View, m: Move, w: View, next: nat)
    requires Moves(v, m, w) && StreamOk(v, next)
    requires m.Own? ==> v.held == [] && |m.x| <= 1 && (m.x != [] ==> m.x[0].number == next)
    ensures StreamOk(w, if m.Own? then next + 1 else next)
  {
    match m
    case Stay =>
    case Own(x) => assert v.held + x == x; GrownStream(v, w, x, next);
    case GiveUp(a, x, b) => ShrunkStream(v, w, v.taken + v.contents + v.posted + a, x, b, next);
    case PostIt(a, x, b) => SameStream(v, m, w);
    case Accept(x) => SameStream(v, m, w);
    case Reject(x) => ShrunkStream(v, w, v.taken + v.contents, x, w.posted + v.held, next);
    case Deliver(x) => SameStream(v, m, w);
  }

  /** Posting, accepting and delivering only move the boundaries within the stream. */
  lemma SameStream(v: View, m: Move, w: View)
    requires Moves(v, m, w) && (m.PostIt? || m.Accept? || m.Deliver?) && |v.held| <= 1
    ensures Stream(w) == Stream(v) && |w.held| <= 1
  {
    if m.PostIt? && m.x != [] {
      assert m.a == [] && m.b == [];
    }
  }

  ghost predicate Ordered(s: State) {
    |s.emits| <= 1 && forall q :: q in s.subs ==> StreamOk(ViewOf(s, q), |s.log|)
  }

  lemma NewQueueInOrder(s: State, op: Op, q: Queue)
    requires WellFormed(s) && Enabled(s, op) && q !in s.subs && q in Next(s, op).subs
    ensures StreamOk(ViewOf(Next(s, op), q), |Next(s, op).log|)
  {
    OnlySubscribersAreNew(s, op, q);
    NewQueueIsEmpty(s, q, op.loopFound);
  }

  /** The order of one queue's view over one move; `next` and `later` are the log's lengths before and after. */
  lemma MoveKeepsOrderLater(v: View, m: Move, w: View, next: nat, later: nat)
    requires Moves(v, m, w) && StreamOk(v, next) && next <= later && (m.Own? ==> next < later)
    requires m.Own? ==> v.held == [] && |m.x| <= 1 && (m.x != [] ==> m.x[0].number == next)
    ensures StreamOk(w, later)
  {
    MoveKeepsOrder(v, m, w, next);
    StreamOkLater(w, if m.Own? then next + 1 else next, later);
  }

  lemma KnownQueueInOrder(s: State, op: Op, q: Queue)
    requires WellFormed(s) && Ordered(s) && Enabled(s, op) && !Waits(s, op) && q in s.subs
    ensures q in Next(s, op).subs && StreamOk(ViewOf(Next(s, op), q), |Next(s, op).log|)
  {
    var m := NextMoves(s, op, q);
    LogGrowth(s, op);
    assert StreamOk(ViewOf(s, q), |s.log|);
    assert m.Own? ==> ViewOf(s, q).held == [];
    MoveKeepsOrderLater(ViewOf(s, q), m, ViewOf(Next(s, op), q), |s.log|, |Next(s, op).log|);
  }

  lemma LogGrowth(s: State, op: Op)
    ensures |Next(s, op).log| == |s.log| + if Enabled(s, op) && op.Append? then 1 else 0
  {
  }

  lemma StreamOkLater(v: View, next: nat, later: nat)
    ensures StreamOk(v, next) && next <= later ==> StreamOk(v, later)
  {
  }

  lemma NextOrdered(s: State, op: Op)
    requires WellFormed(s) && Ordered(s)
    ensures WellFormed(LockedNext(s, op)) && Ordered(LockedNext(s, op))
  {
    NextWellFormed(s, op);
    if Enabled(s, op) && !Waits(s, op) {
      forall q | q in Next(s, op).subs ensures StreamOk(ViewOf(Next(s, op), q), |Next(s, op).log|) {
        if q in s.subs { KnownQueueInOrder(s, op, q); } else { NewQueueInOrder(s, op, q); }
      }
      EmitsStayFew(s, op);
    }
  }

  lemma EmitsStayFew(s: State, op: Op)
    requires |s.emits| <= 1 && !Waits(s, op)
    ensures |Next(s, op).emits| <= 1
  {
  }

  lemma {:induction false} RunOrdered(s: State, ops: seq<Op>)
    requires WellFormed(s) && Ordered(s)
    ensures Ordered(LockedRun(s, ops))
    decreases |ops|
  {
    if ops != [] {
      NextOrdered(s, ops[0]);
      RunOrdered(LockedNext(s, ops[0]), ops[1..]);
    }
  }

  lemma PrefixInOrder(v: View, next: nat)
    requires StreamOk(v, next)
    ensures InAppendOrder(v.taken + v.contents)
  {
    var got := v.taken + v.contents;
    forall i | 0 <= i < |got| ensures got[i] == Stream(v)[i] {}
    forall i, j | 0 <= i < j < |got| ensures got[i].number < got[j].number {
      assert Stream(v)[i].number < Stream(v)[j].number;
    }
  }

  lemma DeliveredIsOwed(v: View, e: Entry)
    requires Balanced(v) && e in v.taken + v.contents
    ensures e in v.owed
  {
    assert e in multiset(v.taken) || e in multiset(v.contents);
    assert e in multiset(v.owed);
  }

  /** Whatever threads log, a subscriber sees a subsequence of the appends it is owed, in append order. */
  lemma DeliveredInOrder(ops: seq<Op>, q: Queue)
    requires q in LockedRun(Start, ops).subs
    ensures var v := ViewOf(LockedRun(Start, ops), q);
            InAppendOrder(v.taken + v.contents) && forall e :: e in v.taken + v.contents ==> e in v.owed
  {
    StartConserved();
    LockedRunIsRun(Start, ops);
    RunConserved(Start, Admitted(Start, ops));
    RunOrdered(Start, ops);
    var s := LockedRun(Start, ops);
    PrefixInOrder(ViewOf(s, q), |s.log|);
    forall e | e in ViewOf(s, q).taken + ViewOf(s, q).contents ensures e in ViewOf(s, q).owed {
      DeliveredIsOwed(ViewOf(s, q), e);
    }
  }
}
