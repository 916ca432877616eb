# Strategy pattern: enemies with swappable behaviours

A model of a small C# demonstration of the Strategy design pattern. An
`Enemy` has a fixed name and holds one behaviour strategy. `PerformBehavior`
forwards to that strategy. The strategy writes one line: the enemy's name
followed by the variant's fixed text. `SetBehaviorStrategy` replaces the
strategy and writes "<name> changed behavior.". The program's `Main` builds
three enemies, makes them act, swaps every strategy and makes them act again.

Modules:

- `Output`: the console as a class whose `lines` grow by one entry per
  `WriteLine`.
- `Strategy`: the closed datatype `Behavior = Aggressive | Defensive | Passive`.
  The `IBehaviorStrategy` interface becomes a `match` on the variant.
  - `Message` gives each variant's template line.
  - `ChangedLine` gives the announcement line.
  - `Execute` is `ExecuteBehavior`: it writes one line to the console.
  - Lemmas show that every strategy line identifies its variant and the
    enemy's name. An announcement identifies the name and is never a
    strategy line. Two enemies with the same name write the same lines.
- `Enemies`: the calls a client can make (`Call`).
  - `Next`, `Emitted` and `Step` give the effect of one call on
    (strategy, lines).
  - `Replay` applies `Step` to a whole sequence of calls.
  - Lemmas prove "no stale dispatch" for every call sequence on one enemy.
  - The class `Enemy` has a `const name` and a mutable `behavior`. Each of its
    methods is proved to be exactly one `Step` of
    `Run(behavior, console.lines)`.
- `Program`: `Demo` is the `Main` script. Its postcondition fixes the ten lines
  it writes.

The C# property `Name { get; }` is assigned only in the constructor. It is
modelled as a `const` field, so Dafny rules out any later change to it. The
separator at Program.cs:22 is one `WriteLine` whose text contains newlines, so
it is kept as one console entry.

## Model

| member | source | states |
|---|---|---|
| `Output.Console.WriteLine` | Program.cs:22 | one console write appends exactly its text as one entry, even when the text contains newlines |
| `Strategy.Execute` | Program.cs:43-62 | executing a strategy writes exactly one line, the variant's template filled with the enemy's name |
| `Strategy.MessageInjective` | Program.cs:41-63 | two template lines are equal if and only if they come from the same variant and the same enemy name |
| `Strategy.DistinctStrategiesDistinctLines` | Program.cs:43-62 | for one enemy, the three strategies produce three different lines |
| `Strategy.ChangedLineIsNoMessage` | Program.cs:43-80 | a "changed behavior" announcement never equals any strategy's line, for any names |
| `Strategy.ChangedLineInjective` | Program.cs:79 | the announcement lines of two enemies are equal if and only if their names are |
| `Enemies.Replay` | Program.cs:76-85 | every call on an enemy writes exactly one line: after n calls there are n lines |
| `Enemies.ReplaySnoc` | Program.cs:76-85 | one more call on an enemy is exactly one more step after the earlier calls |
| `Enemies.LineAt` | Program.cs:76-85 | the j-th line is what the j-th call writes with the strategy held just before it |
| `Enemies.CurrentAfterLastSet` | Program.cs:76-78 | after a strategy is set to x and only performs follow, the current strategy is x whatever it was before |
| `Enemies.CurrentWithoutSet` | Program.cs:70-74 | while no strategy has been set, the current strategy is the one given at construction |
| `Enemies.NoStaleDispatch` | Program.cs:76-85 | a perform after setting x writes x's line for the enemy's name, never the line of an earlier strategy |
| `Enemies.InitialDispatch` | Program.cs:70-85 | a perform before any set writes the initial strategy's line |
| `Enemies.PerformLeavesStrategy` | Program.cs:82-85 | a perform keeps the strategy and adds exactly the current strategy's line |
| `Enemies.SetTwice` | Program.cs:76-80 | setting x twice leaves strategy x, as setting it once does, and the second set still adds its own announcement line |
| `Enemies.Enemy.constructor` | Program.cs:70-74 | a new enemy has the given name and the given initial strategy |
| `Enemies.Enemy.SetBehaviorStrategy` | Program.cs:76-80 | the strategy becomes the new one unconditionally and exactly the line "name changed behavior." is appended; this is one `Step` of a set call |
| `Enemies.Enemy.PerformBehavior` | Program.cs:82-85 | appends exactly the current strategy's line for the enemy's name and changes nothing else; this is one `Step` of a perform call |
| `Program.Demo` | Program.cs:12-31 | the script writes exactly ten lines: the first three enemy lines, the separator, three announcements, then the swapped strategies' lines |

## Left out

- Real console output: it is modelled as a `Console` object whose `lines`
  sequence records every `WriteLine`.
- Open extensibility of `IBehaviorStrategy` (Program.cs:36-39): other
  implementations cannot be specified, so the strategies are a closed
  three-variant datatype.
- Null strategies: C# allows one, and `PerformBehavior` would then throw a
  `NullReferenceException` at Program.cs:84. The code has no check for it,
  so the model rules it out by typing.
- Null names: C# string interpolation prints a null name as empty text, so
  such an enemy writes the same lines as the model's name `""`. In C#,
  therefore, `MessageInjective` and `ChangedLineInjective` do not tell a null
  name apart from `""`.
- The unused `using System.Xml.Serialization` and the explanatory comments:
  they have no behaviour.
- Object identity of strategy instances (`new AggressiveBehavior()` on each
  assignment): strategies are stateless, so only the variant is observable.
- `Enemy` keeps no record of the calls made on it. Each method's contract is
  one `Step`, and `ReplaySnoc` shows that a sequence of such steps is
  `Replay`. So the lemmas about `Replay(...).current` describe an enemy's
  strategy after any sequence of method calls. `Replay(...).lines` holds
  only that one enemy's lines. The per-line lemmas (`LineAt`,
  `NoStaleDispatch`, `InitialDispatch`) therefore describe the console only
  when that enemy alone writes to it. In `Main`, three enemies and the
  separator share one console, so its lines interleave. No lemma refers to
  an `Enemy` object.
- `Program.Demo`: its postcondition writes the strategy lines as
  `Message(variant, name)` and `ChangedLine(name)`, not as string literals.
  Those functions are the literal templates, for example
  `Message(Aggressive, "Goblin")` is "Goblin charges toward the player attacks
  ferociously!". Checking a concatenation against a long literal
  character by character is beyond what the verifier does cheaply.
