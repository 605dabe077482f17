/** Words of inputs driven through a partial step function.

    Where there is one way forward, exactly one word leads to the goal.
 */
module Words {
  import opened Wrappers

  /** Where a word leads; `None` as soon as a step is refused. */
  function Follow<S, I>(step: (S, I) -> Option<S>, s: S, word: seq<I>): Option<S>
    decreases |word|
  {
    if word == [] then Some(s)
    else
      match step(s, word[0])
      case None => None
      case Some(next) => Follow(step, next, word[1..])
  }

  /** The last step of a word. */
  lemma {:induction false} FollowLast<S, I>(step: (S, I) -> Option<S>, s: S, word: seq<I>)
    requires word != []
    ensures Follow(step, s, word) ==
              match Follow(step, s, word[..|word| - 1])
              case None => None
              case Some(t) => step(t, word[|word| - 1])
    decreases |word|
  {
    if |word| > 1 {
      match step(s, word[0])
      case None =>
      case Some(next) =>
        FollowLast(step, next, word[1..]);
        assert word[1..][..|word| - 2] == word[..|word| - 1][1..];
    }
  }

  /** Every step is the one `forward` names, or leads to a dead end. */
  ghost predicate OneWay<S(!new), I(!new), E>(
      step: (S, I) -> Option<S>, event: I -> E, forward: S -> Option<(E, S)>, goal: S)
  {
    forward(goal).None? && forall s, i :: ForwardOrDead(step, event, forward, goal, s, i)
  }

  ghost predicate ForwardOrDead<S, I, E>(
      step: (S, I) -> Option<S>, event: I -> E, forward: S -> Option<(E, S)>, goal: S, s: S, i: I)
  {
    if forward(s).Some? && forward(s).value.0 == event(i) then step(s, i) == Some(forward(s).value.1)
    else step(s, i).Some? ==> forward(step(s, i).value).None? && step(s, i).value != goal
  }

  /** What a word must be to lead from `s` forward to `goal`. */
  predicate ForwardWord<S(==), I, E(==)>(event: I -> E, forward: S -> Option<(E, S)>, goal: S, s: S, word: seq<I>)
    decreases |word|
  {
    match forward(s)
    case None => s == goal && word == []
    case Some(f) => word != [] && event(word[0]) == f.0 && ForwardWord(event, forward, goal, f.1, word[1..])
  }

  /** A goal at the end of the one way is reached by exactly the words that go forward to it. */
  lemma {:induction false} ReachedForward<S(!new), I(!new), E>(
      step: (S, I) -> Option<S>, event: I -> E, forward: S -> Option<(E, S)>, goal: S, s: S, word: seq<I>)
    requires OneWay(step, event, forward, goal)
    ensures Follow(step, s, word) == Some(goal) <==> ForwardWord(event, forward, goal, s, word)
    decreases |word|
  {
    if word != [] {
      assert ForwardOrDead(step, event, forward, goal, s, word[0]);
      match step(s, word[0])
      case None =>
      case Some(t) => ReachedForward(step, event, forward, goal, t, word[1..]);
    }
  }

  lemma {:induction false} OneStepAt<S, I, E>(
      event: I -> E, forward: S -> Option<(E, S)>, goal: S, s: S, word: seq<I>, i: nat)
    requires forward(s).Some? && i <= |word|
    ensures ForwardWord(event, forward, goal, s, word[i..]) <==>
              && i < |word| && event(word[i]) == forward(s).value.0
              && ForwardWord(event, forward, goal, forward(s).value.1, word[i + 1..])
  {
    if i < |word| {
      assert word[i..][1..] == word[i + 1..];
    }
  }
}
