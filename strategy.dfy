/** The three interchangeable enemy behaviours (the concrete strategies). */
module Strategy {
  import opened Output

  /** The closed set of `IBehaviorStrategy` implementations: each is stateless,
      so a strategy value is nothing more than its variant. */
  datatype Behavior = Aggressive | Defensive | Passive

  /** The constant text each strategy writes after the enemy's name. */
  function Suffix(b: Behavior): string
  {
    match b
    case Aggressive => " charges toward the player attacks ferociously!"
    case Defensive => " takes a firm stance and defends cautiously."
    case Passive => " stays back and avoids conflict."
  }

  /** The one line `ExecuteBehavior(name)` writes for strategy `b`. */
  function Message(b: Behavior, name: string): string
  {
    name + Suffix(b)
  }

  /** The line `SetBehaviorStrategy` writes for an enemy called `name`. */
  function ChangedLine(name: string): string
  {
    name + " changed behavior."
  }

  /** `ExecuteBehavior`: writes exactly one line, the template of `b` filled with `name`. */
  method Execute(b: Behavior, name: string, console: Console)
    modifies console
    ensures console.lines == old(console.lines) + [Message(b, name)]
  {
    console.WriteLine(Message(b, name));
  }

  /** The last two characters of a strategy's line, which tell the variants apart. */
  lemma MessageEnding(b: Behavior, name: string)
    ensures var m, s := Message(b, name), Suffix(b);
      |m| == |name| + |s| && m[|m| - 1] == s[|s| - 1] && m[|m| - 2] == s[|s| - 2]
  {
  }

  /** A line written by a strategy tells which strategy wrote it and for which
      enemy: two lines are equal only when both the variant and the name are. */
  lemma MessageInjective(b1: Behavior, n1: string, b2: Behavior, n2: string)
    ensures Message(b1, n1) == Message(b2, n2) <==> b1 == b2 && n1 == n2
  {
    if Message(b1, n1) == Message(b2, n2) {
      MessageEnding(b1, n1);
      MessageEnding(b2, n2);
      assert b1 == b2;
      var r := Message(b1, n1);
      assert n1 == r[..|n1|] == n2;
    }
  }

  /** In particular, distinct strategies never produce the same line for one enemy. */
  lemma DistinctStrategiesDistinctLines(name: string, b1: Behavior, b2: Behavior)
    requires b1 != b2
    ensures Message(b1, name) != Message(b2, name)
  {
    MessageInjective(b1, name, b2, name);
  }

  /** A "changed behavior" line can never be mistaken for a strategy's line. */
  lemma ChangedLineIsNoMessage(n1: string, b: Behavior, n2: string)
    ensures ChangedLine(n1) != Message(b, n2)
  {
    var c := ChangedLine(n1);
    assert c[|c| - 2] == 'r';
    MessageEnding(b, n2);
  }

  /** The "changed behavior" line determines the enemy's name. */
  lemma ChangedLineInjective(n1: string, n2: string)
    ensures ChangedLine(n1) == ChangedLine(n2) <==> n1 == n2
  {
    if ChangedLine(n1) == ChangedLine(n2) {
      var c := ChangedLine(n1);
      assert |n1| == |n2|;
      assert n1 == c[..|n1|] == n2;
    }
  }
}
