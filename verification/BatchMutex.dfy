/** The worker's promise-chain lock as a protocol: callers register batches, the
    event loop runs the steps that are ready in any order it likes. */
module BatchMutex {
  import opened Results

  /** A batch waits for the gate before it, runs, settles one way or the other, and
      then opens its own gate. */
  datatype Batch = Waiting | Running | Settled(rejected: bool) | GateOpen(rejected: bool)

  /** Registered batches in order of registration; the batch whose gate the lock
      field refers to is the last of them. `active` is the batch whose gate the
      drain field refers to. `history` records starts and settlements. */
  datatype Lock = Lock(batches: seq<Batch>, active: Option<nat>, history: seq<Mark>)

  datatype Mark = Started(batch: nat) | Ended(batch: nat)

  datatype Move =
    | Register
    | Start(batch: nat)
    | Settle(batch: nat, rejected: bool)
    | OpenGate(batch: nat)
    | ClearActive(batch: nat)

  const IDLE := Lock([], None, [])

  predicate Done(b: Batch) {
    b.Settled? || b.GateOpen?
  }

  /** A batch may start once the gate before it is open; the very first gate is a
      resolved promise. */
  predicate Ready(lock: Lock, i: nat) {
    i < |lock.batches| && lock.batches[i] == Waiting && (i == 0 || lock.batches[i - 1].GateOpen?)
  }

  predicate Enabled(lock: Lock, move: Move) {
    match move
    case Register => true
    case Start(i) => Ready(lock, i)
    case Settle(i, _) => i < |lock.batches| && lock.batches[i] == Running
    case OpenGate(i) => i < |lock.batches| && lock.batches[i].Settled?
    case ClearActive(i) => i < |lock.batches| && lock.batches[i].GateOpen?
  }

  function Apply(lock: Lock, move: Move): Lock {
    if !Enabled(lock, move) then lock
    else match move
      case Register => lock.(batches := lock.batches + [Waiting], active := Some(|lock.batches|))
      case Start(i) => lock.(batches := lock.batches[i := Running], history := lock.history + [Started(i)])
      case Settle(i, rejected) =>
        lock.(batches := lock.batches[i := Settled(rejected)], history := lock.history + [Ended(i)])
      case OpenGate(i) => lock.(batches := lock.batches[i := GateOpen(lock.batches[i].rejected)])
      case ClearActive(i) => if lock.active == Some(i) then lock.(active := None) else lock
  }

  function Run(lock: Lock, moves: seq<Move>): Lock {
    if moves == [] then lock else Apply(Run(lock, moves[..|moves| - 1]), moves[|moves| - 1])
  }

  // ----- What every interleaving keeps -----

  /** The history of n finished batches, one after the other. */
  function InTurn(n: nat): seq<Mark> {
    if n == 0 then [] else InTurn(n - 1) + [Started(n - 1), Ended(n - 1)]
  }

  ghost predicate Orderly(lock: Lock, settled: nat) {
    && settled <= |lock.batches|
    && (forall i :: 0 <= i < settled ==> Done(lock.batches[i]))
    && (forall i :: 0 <= i < settled - 1 ==> lock.batches[i].GateOpen?)
    && (forall i :: settled < i < |lock.batches| ==> lock.batches[i] == Waiting)
    && (settled < |lock.batches| ==> lock.batches[settled] == Waiting || lock.batches[settled] == Running)
    && (settled < |lock.batches| && lock.batches[settled] == Running ==>
          settled == 0 || lock.batches[settled - 1].GateOpen?)
    && lock.history == InTurn(settled)
         + (if settled < |lock.batches| && lock.batches[settled] == Running then [Started(settled)] else [])
    && (match lock.active
        case Some(a) => a + 1 == |lock.batches|
        case None => settled == |lock.batches| && (settled > 0 ==> lock.batches[settled - 1].GateOpen?))
  }

  /** The next unsettled batch after a move. */
  function NextSettled(lock: Lock, settled: nat, move: Move): nat {
    if Enabled(lock, move) && move.Settle? then settled + 1 else settled
  }

  lemma RegisterKeepsOrderly(lock: Lock, settled: nat)
    requires Orderly(lock, settled)
    ensures Orderly(Apply(lock, Register), settled)
  {
    assert Apply(lock, Register).batches[..|lock.batches|] == lock.batches;
  }

  lemma StartKeepsOrderly(lock: Lock, settled: nat, i: nat)
    requires Orderly(lock, settled) && Ready(lock, i)
    ensures i == settled && Orderly(Apply(lock, Start(i)), settled)
  {
    assert InTurn(settled) + [] == InTurn(settled);
  }

  lemma SettleKeepsOrderly(lock: Lock, settled: nat, i: nat, rejected: bool)
    requires Orderly(lock, settled) && Enabled(lock, Settle(i, rejected))
    ensures i == settled && Orderly(Apply(lock, Settle(i, rejected)), settled + 1)
  {
    assert InTurn(settled) + [Started(settled)] + [Ended(settled)]
        == InTurn(settled) + [Started(settled), Ended(settled)];
    assert InTurn(settled + 1) + [] == InTurn(settled + 1);
  }

  lemma GateKeepsOrderly(lock: Lock, settled: nat, i: nat)
    requires Orderly(lock, settled) && Enabled(lock, OpenGate(i))
    ensures i + 1 == settled && Orderly(Apply(lock, OpenGate(i)), settled)
  {
  }

  lemma ClearKeepsOrderly(lock: Lock, settled: nat, i: nat)
    requires Orderly(lock, settled) && Enabled(lock, ClearActive(i))
    ensures Orderly(Apply(lock, ClearActive(i)), settled)
  {
  }

  lemma ApplyKeepsOrderly(lock: Lock, settled: nat, move: Move)
    requires Orderly(lock, settled)
    ensures Orderly(Apply(lock, move), NextSettled(lock, settled, move))
  {
    if Enabled(lock, move) {
      match move
      case Register => RegisterKeepsOrderly(lock, settled);
      case Start(i) => StartKeepsOrderly(lock, settled, i);
      case Settle(i, rejected) => SettleKeepsOrderly(lock, settled, i, rejected);
      case OpenGate(i) => GateKeepsOrderly(lock, settled, i);
      case ClearActive(i) => ClearKeepsOrderly(lock, settled, i);
    }
  }

  function SettledAfter(lock: Lock, moves: seq<Move>): nat {
    if moves == [] then 0
    else
      var front := moves[..|moves| - 1];
      NextSettled(Run(lock, front), SettledAfter(lock, front), moves[|moves| - 1])
  }

  lemma {:induction false} RunIsOrderly(moves: seq<Move>)
    ensures Orderly(Run(IDLE, moves), SettledAfter(IDLE, moves))
    decreases |moves|
  {
    if moves != [] {
      RunIsOrderly(moves[..|moves| - 1]);
      ApplyKeepsOrderly(Run(IDLE, moves[..|moves| - 1]), SettledAfter(IDLE, moves[..|moves| - 1]), moves[|moves| - 1]);
    }
  }

  /** In every interleaving batches run one at a time in the order they were
      registered, whether the ones before succeeded or were rejected: starts and
      ends alternate, batch by batch, with at most the last batch still running. */
  lemma OneAtATimeInOrder(moves: seq<Move>)
    ensures var lock := Run(IDLE, moves);
            && (forall i, j :: 0 <= i < j < |lock.batches| ==>
                  !(lock.batches[i] == Running && lock.batches[j] == Running))
            && exists n: nat :: n <= |lock.batches|
                 && (lock.history == InTurn(n) || lock.history == InTurn(n) + [Started(n)])
  {
    RunIsOrderly(moves);
    var n := SettledAfter(IDLE, moves);
    assert InTurn(n) + [] == InTurn(n);
  }

  /** What a drain called now waits for: the gate of the active batch, or nothing. */
  predicate DrainResolved(lock: Lock, captured: Option<nat>) {
    captured.Some? ==> captured.value < |lock.batches| && lock.batches[captured.value].GateOpen?
  }

  lemma {:induction false} BatchesNeverUnsettle(lock: Lock, moves: seq<Move>, i: nat)
    requires i < |lock.batches|
    ensures |lock.batches| <= |Run(lock, moves).batches|
    ensures Done(lock.batches[i]) ==> Done(Run(lock, moves).batches[i])
    decreases |moves|
  {
    if moves != [] {
      BatchesNeverUnsettle(lock, moves[..|moves| - 1], i);
    }
  }

  lemma {:induction false} RunConcat(lock: Lock, first: seq<Move>, second: seq<Move>)
    ensures Run(lock, first + second) == Run(Run(lock, first), second)
    decreases |second|
  {
    if second == [] {
      assert first + second == first;
    } else {
      assert (first + second)[..|first + second| - 1] == first + second[..|second| - 1];
      RunConcat(lock, first, second[..|second| - 1]);
    }
  }

  /** A drain resolves only after every batch registered before it was called has
      settled, whatever is registered or run in between. */
  lemma DrainWaitsForAll(before: seq<Move>, after: seq<Move>, i: nat)
    requires i < |Run(IDLE, before).batches|
    requires DrainResolved(Run(IDLE, before + after), Run(IDLE, before).active)
    ensures i < |Run(IDLE, before + after).batches| && Done(Run(IDLE, before + after).batches[i])
  {
    var lock, final := Run(IDLE, before), Run(IDLE, before + after);
    assert final == Run(lock, after) by {
      RunConcat(IDLE, before, after);
    }
    BatchesNeverUnsettle(lock, after, i);
    RunIsOrderly(before);
    RunIsOrderly(before + after);
    if lock.active.Some? {
      DoneUpToOpenGate(final, SettledAfter(IDLE, before + after), lock.active.value, i);
    }
  }

  lemma DoneUpToOpenGate(lock: Lock, settled: nat, open: nat, i: nat)
    requires Orderly(lock, settled) && i <= open < |lock.batches| && lock.batches[open].GateOpen?
    ensures Done(lock.batches[i])
  {
  }

  /** Nothing blocks: as long as some batch has not settled, one that can move is
      there, so a rejected batch never holds up the ones behind it. */
  lemma AlwaysProgress(moves: seq<Move>, i: nat)
    requires i < |Run(IDLE, moves).batches| && !Done(Run(IDLE, moves).batches[i])
    ensures exists move: Move :: !move.Register? && !move.ClearActive? && Enabled(Run(IDLE, moves), move)
  {
    RunIsOrderly(moves);
    var lock, n := Run(IDLE, moves), SettledAfter(IDLE, moves);
    assert n < |lock.batches|;
    if lock.batches[n] == Running {
      assert Enabled(lock, Settle(n, false));
    } else if n > 0 && lock.batches[n - 1].Settled? {
      assert Enabled(lock, OpenGate(n - 1));
    } else {
      assert Enabled(lock, Start(n));
    }
  }

  /** A batch that clears forgets its own gate and no other: registering one since then
      keeps the later gate in the drain field. */
  lemma ClearForgetsOwnGate(moves: seq<Move>, i: nat)
    requires Enabled(Run(IDLE, moves), ClearActive(i))
    ensures var lock := Run(IDLE, moves);
            var after := Apply(lock, ClearActive(i));
            && (lock.batches, lock.history) == (after.batches, after.history)
            && after.active == if i + 1 == |lock.batches| then None else lock.active
  {
    RunIsOrderly(moves);
  }

  // ----- How long it takes -----

  /** How far a batch has come, in moves. */
  function StageOf(b: Batch): nat {
    match b
    case Waiting => 0
    case Running => 1
    case Settled(_) => 2
    case GateOpen(_) => 3
  }

  function Work(batches: seq<Batch>): nat {
    if batches == [] then 0 else Work(batches[..|batches| - 1]) + StageOf(batches[|batches| - 1])
  }

  lemma {:induction false} WorkAfterUpdate(batches: seq<Batch>, i: nat, b: Batch)
    requires i < |batches|
    ensures Work(batches[i := b]) == Work(batches) - StageOf(batches[i]) + StageOf(b)
    decreases |batches|
  {
    var front := batches[..|batches| - 1];
    if i < |front| {
      WorkAfterUpdate(front, i, b);
      assert batches[i := b][..|batches| - 1] == front[i := b];
    } else {
      assert batches[i := b][..|batches| - 1] == front;
    }
  }

  lemma {:induction false} WorkBound(batches: seq<Batch>)
    ensures Work(batches) <= 3 * |batches|
    ensures Work(batches) == 3 * |batches| <==> forall i :: 0 <= i < |batches| ==> batches[i].GateOpen?
    decreases |batches|
  {
    if batches != [] {
      var front := batches[..|batches| - 1];
      WorkBound(front);
      assert forall i :: 0 <= i < |front| ==> front[i] == batches[i];
      assert (forall i :: 0 <= i < |batches| ==> batches[i].GateOpen?)
        <==> (forall i :: 0 <= i < |front| ==> front[i].GateOpen?) && batches[|batches| - 1].GateOpen?;
    }
  }

  /** A start, settlement or gate that takes effect. */
  predicate Effective(lock: Lock, move: Move) {
    Enabled(lock, move) && !move.Register? && !move.ClearActive?
  }

  function EffectiveMoves(moves: seq<Move>): nat {
    if moves == [] then 0
    else
      var front := moves[..|moves| - 1];
      EffectiveMoves(front) + if Effective(Run(IDLE, front), moves[|moves| - 1]) then 1 else 0
  }

  lemma EffectiveMoveIsWork(lock: Lock, move: Move)
    ensures Work(Apply(lock, move).batches) == Work(lock.batches) + if Effective(lock, move) then 1 else 0
  {
    match move
    case Register => assert (lock.batches + [Waiting])[..|lock.batches|] == lock.batches;
    case Start(i) => if Enabled(lock, move) { WorkAfterUpdate(lock.batches, i, Running); }
    case Settle(i, rejected) => if Enabled(lock, move) { WorkAfterUpdate(lock.batches, i, Settled(rejected)); }
    case OpenGate(i) =>
      if Enabled(lock, move) {
        WorkAfterUpdate(lock.batches, i, GateOpen(lock.batches[i].rejected));
      }
    case ClearActive(_) =>
  }

  lemma {:induction false} EffectiveMovesAreWork(moves: seq<Move>)
    ensures EffectiveMoves(moves) == Work(Run(IDLE, moves).batches)
    decreases |moves|
  {
    if moves != [] {
      EffectiveMovesAreWork(moves[..|moves| - 1]);
      EffectiveMoveIsWork(Run(IDLE, moves[..|moves| - 1]), moves[|moves| - 1]);
    }
  }

  /** Three moves a batch and no more: in every interleaving, with n batches registered
      so far, at most 3n starts, settlements and gates have taken effect; with fewer,
      another one can; and with exactly 3n every batch has settled, every gate is open
      and a drain called now resolves at once. */
  lemma SettledInThreeMovesEach(moves: seq<Move>)
    ensures var lock := Run(IDLE, moves);
            var n := |lock.batches|;
            && EffectiveMoves(moves) <= 3 * n
            && (EffectiveMoves(moves) == 3 * n <==> forall i :: 0 <= i < n ==> lock.batches[i].GateOpen?)
            && (EffectiveMoves(moves) < 3 * n ==> exists move: Move :: Effective(lock, move))
            && (EffectiveMoves(moves) == 3 * n ==> DrainResolved(lock, lock.active))
  {
    var lock := Run(IDLE, moves);
    EffectiveMovesAreWork(moves);
    WorkBound(lock.batches);
    if EffectiveMoves(moves) < 3 * |lock.batches| {
      var i :| 0 <= i < |lock.batches| && !lock.batches[i].GateOpen?;
      var move := NextMove(moves, i);
    } else {
      OpenGatesResolve(moves);
    }
  }

  lemma NextMove(moves: seq<Move>, i: nat) returns (move: Move)
    requires i < |Run(IDLE, moves).batches| && !Run(IDLE, moves).batches[i].GateOpen?
    ensures Effective(Run(IDLE, moves), move)
  {
    if Run(IDLE, moves).batches[i].Settled? {
      move := OpenGate(i);
    } else {
      AlwaysProgress(moves, i);
      move :| !move.Register? && !move.ClearActive? && Enabled(Run(IDLE, moves), move);
    }
  }

  lemma OpenGatesResolve(moves: seq<Move>)
    requires forall i :: 0 <= i < |Run(IDLE, moves).batches| ==> Run(IDLE, moves).batches[i].GateOpen?
    ensures DrainResolved(Run(IDLE, moves), Run(IDLE, moves).active)
  {
    RunIsOrderly(moves);
  }
}
