/** Running a fallible step over a list of keys, and when the order of the keys
    makes no difference. */
module Folds {
  import opened Results

  type Step<!S, !K, P> = (S, K) -> Result<(S, Option<P>)>
  type Round<!S, !K, P> = (S, K) -> Option<(S, multiset<P>)>

  /** Steps through the keys in order, stopping at the first error and collecting
      what the steps yield. */
  function Fold<S, K, P>(step: Step<S, K, P>, s: S, keys: seq<K>): Result<(S, seq<(K, P)>)>
    decreases |keys|
  {
    if keys == [] then Ok((s, []))
    else
      var (s1, yielded) :- step(s, keys[0]);
      var (t, rest) :- Fold(step, s1, keys[1..]);
      Ok((t, if yielded.Some? then [(keys[0], yielded.value)] + rest else rest))
  }

  ghost function Sequence<S, K, P>(round: Round<S, K, P>, s: S, keys: seq<K>): Option<(S, multiset<P>)>
    decreases |keys|
  {
    if keys == [] then Some((s, multiset{}))
    else match round(s, keys[0])
      case None => None
      case Some((s1, paid)) =>
        match Sequence(round, s1, keys[1..])
        case None => None
        case Some((t, rest)) => Some((t, paid + rest))
  }

  ghost function Then<S, K, P>(round: Round<S, K, P>, r: Option<(S, multiset<P>)>, key: K): Option<(S, multiset<P>)> {
    match r
    case None => None
    case Some((s, paid)) =>
      match round(s, key)
      case None => None
      case Some((t, more)) => Some((t, paid + more))
  }

  ghost function ThenAll<S, K, P>(round: Round<S, K, P>, r: Option<(S, multiset<P>)>, keys: seq<K>)
    : Option<(S, multiset<P>)>
  {
    match r
    case None => None
    case Some((s, paid)) =>
      match Sequence(round, s, keys)
      case None => None
      case Some((t, more)) => Some((t, paid + more))
  }

  ghost function ProjectFold<S, K, P>(view: S -> S, r: Result<(S, seq<(K, P)>)>): Option<(S, multiset<(K, P)>)> {
    match r
    case Err(_) => None
    case Ok((t, collected)) => Some((view(t), multiset(collected)))
  }

  /** A step with its state projected and its error and order forgotten. */
  ghost function Project<S, K, P>(view: S -> S, key: K, r: Result<(S, Option<P>)>): Option<(S, multiset<(K, P)>)> {
    match r
    case Err(_) => None
    case Ok((t, yielded)) => Some((view(t), if yielded.Some? then multiset{(key, yielded.value)} else multiset{}))
  }

  lemma {:induction false} FoldProjects<S(!new), K(!new), P>(step: Step<S, K, P>, round: Round<S, K, (K, P)>,
                                                             view: S -> S, s: S, keys: seq<K>)
    requires forall u: S, k: K :: round(view(u), k) == Project(view, k, step(u, k))
    ensures Sequence(round, view(s), keys)
         == ProjectFold(view, Fold(step, s, keys))
    decreases |keys|
  {
    if keys != [] {
      assert round(view(s), keys[0]) == Project(view, keys[0], step(s, keys[0]));
      if step(s, keys[0]).Ok? {
        var (s1, yielded) := step(s, keys[0]).value;
        FoldProjects(step, round, view, s1, keys[1..]);
        if Fold(step, s1, keys[1..]).Ok? {
          var rest := Fold(step, s1, keys[1..]).value.1;
          if yielded.Some? {
            assert multiset([(keys[0], yielded.value)] + rest) == multiset{(keys[0], yielded.value)} + multiset(rest);
          } else {
            assert multiset{} + multiset(rest) == multiset(rest);
          }
        }
      }
    }
  }

  ghost predicate Commuting<S(!new), K(!new), P>(round: Round<S, K, P>, inv: S -> bool) {
    && (forall s: S, k: K :: inv(s) && round(s, k).Some? ==> inv(round(s, k).value.0))
    && (forall s: S, j: K, k: K :: inv(s) ==> Then(round, round(s, j), k) == Then(round, round(s, k), j))
  }

  lemma TwoRoundsThenRest<S, K, P>(round: Round<S, K, P>, s: S, x: K, y: K, rest: seq<K>)
    ensures Sequence(round, s, [x] + ([y] + rest))
         == ThenAll(round, Then(round, round(s, x), y), rest)
  {
    assert ([x] + ([y] + rest))[1..] == [y] + rest && ([y] + rest)[1..] == rest;
    if round(s, x).Some? {
      var (s1, paidX) := round(s, x).value;
      if round(s1, y).Some? {
        var (s2, paidY) := round(s1, y).value;
        if Sequence(round, s2, rest).Some? {
          var more := Sequence(round, s2, rest).value.1;
          assert paidX + (paidY + more) == (paidX + paidY) + more;
        }
      }
    }
  }

  lemma {:induction false} MoveToFront<S(!new), K(!new), P>(round: Round<S, K, P>, inv: S -> bool, s: S,
                                                            front: seq<K>, x: K, back: seq<K>)
    requires Commuting(round, inv) && inv(s)
    ensures Sequence(round, s, front + [x] + back) == Sequence(round, s, [x] + front + back)
    decreases |front|
  {
    if front == [] {
      assert front + [x] + back == [x] + front + back;
    } else {
      var y, tail := front[0], front[1..];
      assert front + [x] + back == [y] + (tail + [x] + back);
      assert [x] + tail + back == [x] + (tail + back);
      assert [x] + front + back == [x] + ([y] + (tail + back));
      assert Then(round, round(s, x), y) == Then(round, round(s, y), x);
      TwoRoundsThenRest(round, s, x, y, tail + back);
      TwoRoundsThenRest(round, s, y, x, tail + back);
      if round(s, y).Some? {
        MoveToFront(round, inv, round(s, y).value.0, tail, x, back);
      }
    }
  }

  lemma TakeOut<K>(keys: seq<K>, other: seq<K>) returns (front: seq<K>, back: seq<K>)
    requires keys != [] && multiset(keys) == multiset(other)
    ensures other == front + [keys[0]] + back
    ensures multiset(keys[1..]) == multiset(front + back)
  {
    var x := keys[0];
    assert keys == [x] + keys[1..];
    assert x in multiset(other);
    var i :| 0 <= i < |other| && other[i] == x;
    front, back := other[..i], other[i + 1..];
    assert other == front + [x] + back;
    assert multiset(front + back) == multiset(other) - multiset{x};
    assert multiset(keys[1..]) == multiset(keys) - multiset{x};
  }

  /** If neighbouring rounds commute, every order of the keys ends the same way. */
  lemma {:induction false} SequencePermutes<S(!new), K(!new), P>(round: Round<S, K, P>, inv: S -> bool, s: S,
                                                                 keys: seq<K>, other: seq<K>)
    requires Commuting(round, inv) && inv(s)
    requires multiset(keys) == multiset(other)
    ensures Sequence(round, s, keys) == Sequence(round, s, other)
    decreases |keys|
  {
    if keys == [] {
      assert |multiset(keys)| == 0 && |multiset(other)| == |other|;
    } else {
      var x := keys[0];
      var front, back := TakeOut(keys, other);
      assert keys == [x] + keys[1..];
      MoveToFront(round, inv, s, front, x, back);
      assert ([x] + front + back)[1..] == front + back;
      if round(s, x).Some? {
        SequencePermutes(round, inv, round(s, x).value.0, keys[1..], front + back);
      }
    }
  }

  /** What a step yields for a key is fixed by the state before the fold, and is
      used up once yielded. */
  ghost predicate YieldsOnce<S(!new), K(!new), P(!new)>(step: Step<S, K, P>, inv: S -> bool, due: (S, K) -> Option<P>) {
    forall s: S, k: K :: inv(s) && step(s, k).Ok? ==>
      var (t, yielded) := step(s, k).value;
      && inv(t) && yielded == due(s, k) && due(t, k) == None
      && forall j: K :: j != k ==> due(t, j) == due(s, j)
  }

  ghost predicate CollectedOnce<S, K(!new), P>(due: (S, K) -> Option<P>, s: S, keys: seq<K>, collected: seq<(K, P)>) {
    && (forall i :: 0 <= i < |collected| ==>
          collected[i].0 in keys && due(s, collected[i].0) == Some(collected[i].1))
    && (forall k: K :: k in keys && due(s, k).Some? ==> exists i :: 0 <= i < |collected| && collected[i].0 == k)
    && (forall i, j :: 0 <= i < j < |collected| ==> collected[i].0 != collected[j].0)
  }

  lemma {:induction false} FoldCollectsOnce<S(!new), K(!new), P(!new)>(step: Step<S, K, P>, inv: S -> bool,
                                                                       due: (S, K) -> Option<P>, s: S, keys: seq<K>)
    requires YieldsOnce(step, inv, due) && inv(s) && Fold(step, s, keys).Ok?
    ensures CollectedOnce(due, s, keys, Fold(step, s, keys).value.1)
    decreases |keys|
  {
    if keys != [] {
      var x := keys[0];
      var (s1, yielded) := step(s, x).value;
      FoldCollectsOnce(step, inv, due, s1, keys[1..]);
      var rest, all := Fold(step, s1, keys[1..]).value.1, Fold(step, s, keys).value.1;
      forall k: K | k in keys && due(s, k).Some? ensures exists i :: 0 <= i < |all| && all[i].0 == k {
        if k == x {
          assert all[0].0 == x;
        } else {
          assert k in keys[1..] && due(s1, k).Some?;
          var i :| 0 <= i < |rest| && rest[i].0 == k;
          assert all[i + |all| - |rest|].0 == k;
        }
      }
    }
  }

  /** A step brings the record under its own key to its target and leaves the
      other records, and every target, alone. */
  ghost predicate Settles<S(!new), K(!new), P, R(!new)>(step: Step<S, K, P>, inv: S -> bool, record: (S, K) -> R,
                                                        target: (S, K) -> R) {
    forall s: S, k: K :: inv(s) && step(s, k).Ok? ==>
      var t := step(s, k).value.0;
      && inv(t) && record(t, k) == target(s, k)
      && (forall j: K :: target(t, j) == target(s, j))
      && (forall j: K :: j != k ==> record(t, j) == record(s, j))
  }

  lemma {:induction false} FoldSettles<S(!new), K(!new), P, R(!new)>(step: Step<S, K, P>, inv: S -> bool,
                                                                    record: (S, K) -> R, target: (S, K) -> R,
                                                                    s: S, keys: seq<K>, k: K)
    requires Settles(step, inv, record, target) && inv(s) && Fold(step, s, keys).Ok?
    ensures record(Fold(step, s, keys).value.0, k) == if k in keys then target(s, k) else record(s, k)
    decreases |keys|
  {
    if keys != [] {
      FoldSettles(step, inv, record, target, step(s, keys[0]).value.0, keys[1..], k);
    }
  }
}
