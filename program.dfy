/** The demonstration script: three enemies act, switch strategies, act again. */
module Program {
  import opened Output
  import opened Strategy
  import opened Enemies

  /** Ten lines written one at a time form the ten-line transcript. */
  lemma WrittenInOrder<T>(a: T, b: T, c: T, d: T, e: T, f: T, g: T, h: T, i: T, j: T)
    ensures [] + [a] + [b] + [c] + [d] + [e] + [f] + [g] + [h] + [i] + [j]
         == [a, b, c, d, e, f, g, h, i, j]
  {
  }

  /** The script of `Program.Main`, run on a fresh console; returns every line
      it writes, in order. The strategy lines are the templates of `Message`,
      e.g. `Message(Aggressive, "Goblin")` is
      "Goblin charges toward the player attacks ferociously!". */
  method Demo() returns (transcript: seq<string>)
    ensures transcript == [
      Message(Aggressive, "Goblin"), Message(Defensive, "Golem"), Message(Passive, "Elf"),
      "\n-- Changing Behaviors --\n",
      ChangedLine("Goblin"), ChangedLine("Golem"), ChangedLine("Elf"),
      Message(Defensive, "Goblin"), Message(Passive, "Golem"), Message(Aggressive, "Elf")
    ]
  {
    var console := new Console();
    var goblin := new Enemy("Goblin", Aggressive);
    var golem := new Enemy("Golem", Defensive);
    var elf := new Enemy("Elf", Passive);

    goblin.PerformBehavior(console);
    golem.PerformBehavior(console);
    elf.PerformBehavior(console);

    console.WriteLine("\n-- Changing Behaviors --\n");

    goblin.SetBehaviorStrategy(Defensive, console);
    golem.SetBehaviorStrategy(Passive, console);
    elf.SetBehaviorStrategy(Aggressive, console);

    goblin.PerformBehavior(console);
    golem.PerformBehavior(console);
    elf.PerformBehavior(console);

    transcript := console.lines;
    WrittenInOrder(
      Message(Aggressive, "Goblin"), Message(Defensive, "Golem"), Message(Passive, "Elf"),
      "\n-- Changing Behaviors --\n",
      ChangedLine("Goblin"), ChangedLine("Golem"), ChangedLine("Elf"),
      Message(Defensive, "Goblin"), Message(Passive, "Golem"), Message(Aggressive, "Elf"));
  }
}
