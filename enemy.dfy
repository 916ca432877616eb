/** The context object of the pattern: an enemy that holds one strategy and
    delegates to it. */
module Enemies {
  import opened Output
  import opened Strategy

  /** A call a client makes on an enemy after constructing it. */
  datatype Call = Perform | SetStrategy(b: Behavior)

  /** What an enemy is after a sequence of calls: its current strategy and the
      lines it has written, oldest first. */
  datatype Run = Run(current: Behavior, lines: seq<string>)

  /** The one line a call writes for an enemy whose strategy is `current`. */
  function Emitted(name: string, current: Behavior, c: Call): string
  {
    match c
    case Perform => Message(current, name)
    case SetStrategy(_) => ChangedLine(name)
  }

  /** The strategy an enemy holds after a call. */
  function Next(current: Behavior, c: Call): Behavior
  {
    match c
    case Perform => current
    case SetStrategy(b) => b
  }

  /** The effect of one call on an enemy's state. */
  function Step(name: string, s: Run, c: Call): Run
  {
    Run(Next(s.current, c), s.lines + [Emitted(name, s.current, c)])
  }

  /** The state of an enemy built with `initial` after `calls`, in order.
      Every call writes exactly one line. */
  function Replay(name: string, initial: Behavior, calls: seq<Call>): (r: Run)
    ensures |r.lines| == |calls|
    decreases |calls|
  {
    if calls == [] then Run(initial, [])
    else Step(name, Replay(name, initial, calls[..|calls| - 1]), calls[|calls| - 1])
  }

  /** Replaying one more call is one more step. */
  lemma ReplaySnoc(name: string, initial: Behavior, calls: seq<Call>, c: Call)
    ensures Replay(name, initial, calls + [c]) == Step(name, Replay(name, initial, calls), c)
  {
    assert (calls + [c])[..|calls|] == calls;
  }

  /** Line `j` is what call `j` writes, given the strategy held just before it. */
  lemma {:induction false} LineAt(name: string, initial: Behavior, calls: seq<Call>, j: nat)
    requires j < |calls|
    ensures Replay(name, initial, calls).lines[j]
         == Emitted(name, Replay(name, initial, calls[..j]).current, calls[j])
  {
    var n := |calls|;
    var front := calls[..n - 1];
    var before := Replay(name, initial, front);
    assert Replay(name, initial, calls) == Step(name, before, calls[n - 1]);
    if j < n - 1 {
      LineAt(name, initial, front, j);
      assert front[..j] == calls[..j];
      assert Replay(name, initial, calls).lines[j] == before.lines[j];
    } else {
      assert front == calls[..j];
    }
  }

  /** After a `SetStrategy(x)` followed only by `Perform` calls, the strategy is `x`. */
  lemma {:induction false} CurrentAfterLastSet(name: string, initial: Behavior, calls: seq<Call>, i: nat, x: Behavior)
    requires i < |calls| && calls[i] == SetStrategy(x)
    requires forall k :: i < k < |calls| ==> calls[k] == Perform
    ensures Replay(name, initial, calls).current == x
  {
    var n := |calls|;
    if i < n - 1 {
      CurrentAfterLastSet(name, initial, calls[..n - 1], i, x);
    }
  }

  /** Without any `SetStrategy` call, the strategy is the one given at construction. */
  lemma {:induction false} CurrentWithoutSet(name: string, initial: Behavior, calls: seq<Call>)
    requires forall k :: 0 <= k < |calls| ==> calls[k] == Perform
    ensures Replay(name, initial, calls).current == initial
  {
    if calls != [] {
      CurrentWithoutSet(name, initial, calls[..|calls| - 1]);
    }
  }

  /** No stale dispatch: a `Perform` writes the line of the most recently set
      strategy, whatever the enemy held before. */
  lemma NoStaleDispatch(name: string, initial: Behavior, calls: seq<Call>, i: nat, j: nat, x: Behavior)
    requires i < j < |calls|
    requires calls[i] == SetStrategy(x) && calls[j] == Perform
    requires forall k :: i < k < j ==> calls[k] == Perform
    ensures Replay(name, initial, calls).lines[j] == Message(x, name)
  {
    LineAt(name, initial, calls, j);
    CurrentAfterLastSet(name, initial, calls[..j], i, x);
  }

  /** Before any `SetStrategy`, a `Perform` writes the initial strategy's line. */
  lemma InitialDispatch(name: string, initial: Behavior, calls: seq<Call>, j: nat)
    requires j < |calls| && calls[j] == Perform
    requires forall k :: 0 <= k < j ==> calls[k] == Perform
    ensures Replay(name, initial, calls).lines[j] == Message(initial, name)
  {
    LineAt(name, initial, calls, j);
    CurrentWithoutSet(name, initial, calls[..j]);
  }

  /** A `Perform` keeps the strategy and adds exactly the current strategy's line. */
  lemma PerformLeavesStrategy(name: string, initial: Behavior, calls: seq<Call>)
    ensures Replay(name, initial, calls + [Perform]).current == Replay(name, initial, calls).current
    ensures Replay(name, initial, calls + [Perform]).lines
         == Replay(name, initial, calls).lines + [Message(Replay(name, initial, calls).current, name)]
  {
    ReplaySnoc(name, initial, calls, Perform);
  }

  /** Setting the same strategy twice leaves the same strategy as setting it
      once; the second call still writes its own "changed behavior" line. */
  lemma SetTwice(name: string, initial: Behavior, calls: seq<Call>, x: Behavior)
    ensures Replay(name, initial, calls + [SetStrategy(x), SetStrategy(x)]).current
         == Replay(name, initial, calls + [SetStrategy(x)]).current == x
    ensures Replay(name, initial, calls + [SetStrategy(x), SetStrategy(x)]).lines
         == Replay(name, initial, calls + [SetStrategy(x)]).lines + [ChangedLine(name)]
  {
    ReplaySnoc(name, initial, calls, SetStrategy(x));
    ReplaySnoc(name, initial, calls + [SetStrategy(x)], SetStrategy(x));
    assert calls + [SetStrategy(x), SetStrategy(x)] == calls + [SetStrategy(x)] + [SetStrategy(x)];
  }

  /** An enemy: an immutable name and the strategy it currently delegates to.
      Each method is one `Step` of the strategy together with the shared
      console's lines: it moves `behavior` to `Next` of the call and appends
      the call's `Emitted` line. */
  class Enemy {
    const name: string
    var behavior: Behavior

    constructor (name: string, initialBehavior: Behavior)
      ensures this.name == name && behavior == initialBehavior
    {
      this.name := name;
      behavior := initialBehavior;
    }

    /** Replaces the strategy unconditionally and announces the change. */
    method SetBehaviorStrategy(newBehavior: Behavior, console: Console)
      modifies this, console
      ensures Run(behavior, console.lines)
           == Step(name, Run(old(behavior), old(console.lines)), SetStrategy(newBehavior))
      ensures behavior == newBehavior
      ensures console.lines == old(console.lines) + [ChangedLine(name)]
    {
      behavior := newBehavior;
      console.WriteLine(ChangedLine(name));
    }

    /** Forwards to the current strategy, which writes its line for this enemy;
        the enemy itself is left as it was. */
    method PerformBehavior(console: Console)
      modifies console
      ensures Run(behavior, console.lines) == Step(name, Run(behavior, old(console.lines)), Perform)
      ensures console.lines == old(console.lines) + [Message(behavior, name)]
    {
      Execute(behavior, name, console);
    }
  }
}
