/** The nested loop that both training routines run: for every task, for
    every employee, keep the (employee, task, score) triple when the skill
    match score is positive. The score function is a parameter because the two
    services score differently. */
module PairMatching {

  datatype Pair<E, T> = Pair(employee: E, task: T, score: real)

  /** The kept triples for one task, in employee order. */
  function TaskPairs<E, T>(t: T, es: seq<E>, score: (E, T) -> real): seq<Pair<E, T>>
    decreases |es|
  {
    if |es| == 0 then []
    else
      var e := es[|es| - 1];
      TaskPairs(t, es[..|es| - 1], score) + (if score(e, t) > 0.0 then [Pair(e, t, score(e, t))] else [])
  }

  /** All kept triples, task-major and employee-minor. */
  function AllPairs<E, T>(ts: seq<T>, es: seq<E>, score: (E, T) -> real): seq<Pair<E, T>>
    decreases |ts|
  {
    if |ts| == 0 then []
    else AllPairs(ts[..|ts| - 1], es, score) + TaskPairs(ts[|ts| - 1], es, score)
  }

  /** For one task, exactly the employees with a positive score are kept, each
      once, with that score. */
  lemma {:induction false} TaskPairsMembers<E, T>(t: T, es: seq<E>, score: (E, T) -> real)
    ensures |TaskPairs(t, es, score)| <= |es|
    ensures forall p :: p in TaskPairs(t, es, score) ==>
      p.task == t && p.employee in es && p.score == score(p.employee, t) && p.score > 0.0
    ensures forall j :: 0 <= j < |es| && score(es[j], t) > 0.0 ==> Pair(es[j], t, score(es[j], t)) in TaskPairs(t, es, score)
    decreases |es|
  {
    if |es| > 0 {
      var es' := es[..|es| - 1];
      TaskPairsMembers(t, es', score);
      assert forall x :: x in es' ==> x in es;
      forall j | 0 <= j < |es| && score(es[j], t) > 0.0
        ensures Pair(es[j], t, score(es[j], t)) in TaskPairs(t, es, score)
      {
        if j < |es| - 1 {
          assert es[j] == es'[j];
        }
      }
    }
  }

  /** Exactly the (employee, task) combinations with a positive score are kept. */
  lemma {:induction false} AllPairsMembers<E, T>(ts: seq<T>, es: seq<E>, score: (E, T) -> real)
    ensures forall p :: p in AllPairs(ts, es, score) ==>
      p.task in ts && p.employee in es && p.score == score(p.employee, p.task) && p.score > 0.0
    ensures forall i, j :: 0 <= i < |ts| && 0 <= j < |es| && score(es[j], ts[i]) > 0.0 ==>
      Pair(es[j], ts[i], score(es[j], ts[i])) in AllPairs(ts, es, score)
    decreases |ts|
  {
    if |ts| > 0 {
      var ts' := ts[..|ts| - 1];
      AllPairsMembers(ts', es, score);
      TaskPairsMembers(ts[|ts| - 1], es, score);
      assert forall x :: x in ts' ==> x in ts;
      forall i, j | 0 <= i < |ts| && 0 <= j < |es| && score(es[j], ts[i]) > 0.0
        ensures Pair(es[j], ts[i], score(es[j], ts[i])) in AllPairs(ts, es, score)
      {
        if i < |ts| - 1 {
          assert ts[i] == ts'[i];
        }
      }
    }
  }

  /** No triple is kept exactly when no employee scores above zero on any task. */
  lemma NoPairs<E, T>(ts: seq<T>, es: seq<E>, score: (E, T) -> real)
    ensures AllPairs(ts, es, score) == [] <==>
      forall i, j :: 0 <= i < |ts| && 0 <= j < |es| ==> score(es[j], ts[i]) <= 0.0
  {
    AllPairsMembers(ts, es, score);
    if AllPairs(ts, es, score) != [] {
      var p := AllPairs(ts, es, score)[0];
      assert p in AllPairs(ts, es, score);
      var i :| 0 <= i < |ts| && ts[i] == p.task;
      var j :| 0 <= j < |es| && es[j] == p.employee;
      assert score(es[j], ts[i]) > 0.0;
    }
  }

  /** A kept triple of a task with property `q` comes from an employee who
      scores above zero on a task with `q`. */
  lemma PairWitness<E, T>(ts: seq<T>, es: seq<E>, score: (E, T) -> real, q: T -> bool, k: nat)
    requires k < |AllPairs(ts, es, score)| && q(AllPairs(ts, es, score)[k].task)
    ensures exists i, j :: 0 <= i < |ts| && 0 <= j < |es| && q(ts[i]) && score(es[j], ts[i]) > 0.0
  {
    var p := AllPairs(ts, es, score)[k];
    AllPairsMembers(ts, es, score);
    assert p in AllPairs(ts, es, score);
    var i :| 0 <= i < |ts| && ts[i] == p.task;
    var j :| 0 <= j < |es| && es[j] == p.employee;
    assert q(ts[i]) && score(es[j], ts[i]) > 0.0;
  }

  /** An employee who scores above zero on a task with property `q` gives a
      kept triple of a task with `q`. */
  lemma PairOfWitness<E, T>(ts: seq<T>, es: seq<E>, score: (E, T) -> real, q: T -> bool, i: nat, j: nat)
    requires i < |ts| && j < |es| && q(ts[i]) && score(es[j], ts[i]) > 0.0
    ensures exists k :: 0 <= k < |AllPairs(ts, es, score)| && q(AllPairs(ts, es, score)[k].task)
  {
    var ps := AllPairs(ts, es, score);
    AllPairsMembers(ts, es, score);
    var p := Pair(es[j], ts[i], score(es[j], ts[i]));
    assert p in ps;
    var k :| 0 <= k < |ps| && ps[k] == p;
    assert q(ps[k].task);
  }

  /** Some kept triple is of a task with property `q` exactly when some
      employee scores above zero on some task with `q`. */
  lemma SomePairOf<E, T>(ts: seq<T>, es: seq<E>, score: (E, T) -> real, q: T -> bool)
    ensures (exists k :: 0 <= k < |AllPairs(ts, es, score)| && q(AllPairs(ts, es, score)[k].task)) <==>
      (exists i, j :: 0 <= i < |ts| && 0 <= j < |es| && q(ts[i]) && score(es[j], ts[i]) > 0.0)
  {
    var ps := AllPairs(ts, es, score);
    if exists k :: 0 <= k < |ps| && q(ps[k].task) {
      var k :| 0 <= k < |ps| && q(ps[k].task);
      PairWitness(ts, es, score, q, k);
    }
    if exists i, j :: 0 <= i < |ts| && 0 <= j < |es| && q(ts[i]) && score(es[j], ts[i]) > 0.0 {
      var i, j :| 0 <= i < |ts| && 0 <= j < |es| && q(ts[i]) && score(es[j], ts[i]) > 0.0;
      PairOfWitness(ts, es, score, q, i, j);
    }
  }

  /** The triples of a longer task list extend those of a prefix: all the
      triples of earlier tasks come before those of later tasks. */
  lemma {:induction false} AllPairsAppend<E, T>(ts: seq<T>, us: seq<T>, es: seq<E>, score: (E, T) -> real)
    ensures AllPairs(ts + us, es, score) == AllPairs(ts, es, score) + AllPairs(us, es, score)
    decreases |us|
  {
    if |us| == 0 {
      assert ts + us == ts;
    } else {
      var us', last := us[..|us| - 1], us[|us| - 1];
      assert (ts + us)[..|ts + us| - 1] == ts + us';
      assert (ts + us)[|ts + us| - 1] == last;
      AllPairsAppend(ts, us', es, score);
      calc {
        AllPairs(ts + us, es, score);
        AllPairs(ts + us', es, score) + TaskPairs(last, es, score);
        (AllPairs(ts, es, score) + AllPairs(us', es, score)) + TaskPairs(last, es, score);
        AllPairs(ts, es, score) + (AllPairs(us', es, score) + TaskPairs(last, es, score));
        AllPairs(ts, es, score) + AllPairs(us, es, score);
      }
    }
  }

  /** `prepare_dataset`'s nested loops over the task and employee tables. */
  method MatchAll<E, T>(ts: seq<T>, es: seq<E>, score: (E, T) -> real) returns (matches: seq<Pair<E, T>>)
    ensures matches == AllPairs(ts, es, score)
  {
    matches := [];
    var i := 0;
    while i < |ts|
      invariant 0 <= i <= |ts|
      invariant matches == AllPairs(ts[..i], es, score)
    {
      var t := ts[i];
      var j := 0;
      while j < |es|
        invariant 0 <= j <= |es|
        invariant matches == AllPairs(ts[..i], es, score) + TaskPairs(t, es[..j], score)
      {
        var e := es[j];
        var s := score(e, t);
        if s > 0.0 {
          matches := matches + [Pair(e, t, s)];
        }
        assert es[..j + 1][..j] == es[..j];
        j := j + 1;
      }
      assert es[..j] == es;
      assert ts[..i + 1][..i] == ts[..i];
      i := i + 1;
    }
    assert ts[..i] == ts;
  }
}
