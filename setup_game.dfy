/** Character creation and new-game setup: the six session-wide selection
    fields updated by the character-creation key handler, and the stat, gold
    and starting-inventory rolls made when a new game starts. */
module SetupGame {
  import Dice
  import opened Wrappers

  /** The selectable classes, in menu order (keys A to J). */
  const Classes: seq<string> :=
    ["Cleric", "Druid", "Dwarf", "Elf", "Fighter",
     "Halfling", "Magic-User", "Paladin", "Ranger", "Warlock"]

  /** The selectable difficulties, lettered after the classes (keys K to M). */
  const Difficulties: seq<string> :=
    ["Extreme (Easy)", "Standard (Medium)", "Classic (Hard)"]

  /** Key codes of the letter keys; the toolkit uses the code of the
      lower-case ASCII letter. */
  const KeyA: int := 97
  const KeyN: int := 110
  const KeyY: int := 121

  /** The six character-creation fields. */
  datatype Config = Config(
    playerName: string,
    playerClass: string,
    classNumber: int,
    difficulty: string,
    difficultyNumber: int,
    seed: string)

  /** Every field unset. */
  const Defaults: Config := Config("", "", -1, "", -1, "")

  /** What the key handler hands back: nothing, or the in-game handler for a
      freshly started game. */
  datatype Reply = NoHandler | StartGame

  /** Each number field says which list entry its string field holds, with -1
      for "not chosen yet". */
  predicate Consistent(c: Config)
  {
    && (c.classNumber == -1 <==> c.playerClass == "")
    && (c.classNumber != -1 ==>
          0 <= c.classNumber < |Classes| && c.playerClass == Classes[c.classNumber])
    && (c.difficultyNumber == -1 <==> c.difficulty == "")
    && (c.difficultyNumber != -1 ==>
          0 <= c.difficultyNumber < |Difficulties| && c.difficulty == Difficulties[c.difficultyNumber])
  }

  /** Name, class, difficulty and seed have all been given. */
  predicate Complete(c: Config)
  {
    c.playerName != "" && c.playerClass != "" && c.difficulty != "" && c.seed != ""
  }

  predicate IsClassKey(key: int)
  {
    0 <= key - KeyA < |Classes|
  }

  predicate IsDifficultyKey(key: int)
  {
    |Classes| <= key - KeyA < |Classes| + |Difficulties|
  }

  /** The effect of one key press on the character-creation fields. */
  function Step(c: Config, key: int): (r: (Config, Reply))
    ensures Consistent(c) ==> Consistent(r.0)
    ensures r.1 == StartGame <==> key == KeyY && Complete(c)
    ensures r.1 == StartGame ==> r.0 == c
    ensures (r.0.playerName == c.playerName && r.0.seed == c.seed) || r.0 == Defaults
  {
    var index := key - KeyA;
    if 0 <= index < |Classes| && c.playerClass == "" then
      (c.(classNumber := index, playerClass := Classes[index]), NoHandler)
    else if |Classes| <= index < |Classes| + |Difficulties| && c.difficulty == "" then
      var d := index - |Classes|;
      (c.(difficultyNumber := d, difficulty := Difficulties[d]), NoHandler)
    else if key == KeyN && Complete(c) then
      (Defaults, NoHandler)
    else if key == KeyY && Complete(c) then
      (c, StartGame)
    else
      (c, NoHandler)
  }

  /** The module-level settings the character creator writes, as one object. */
  class Settings {
    var playerName: string
    var playerClass: string
    var classNumber: int
    var difficulty: string
    var difficultyNumber: int
    var seed: string

    function Fields(): Config
      reads this
    {
      Config(playerName, playerClass, classNumber, difficulty, difficultyNumber, seed)
    }

    /** The values the settings start with. */
    constructor ()
      ensures Fields() == Defaults
      ensures Consistent(Fields())
    {
      playerName, playerClass, classNumber := "", "", -1;
      difficulty, difficultyNumber, seed := "", -1, "";
    }

    /** The character creator's key handler. */
    method KeyDown(key: int) returns (reply: Reply)
      modifies this
      ensures Fields() == Step(old(Fields()), key).0
      ensures reply == Step(old(Fields()), key).1
    {
      var index := key - KeyA;
      reply := NoHandler;
      if 0 <= index < |Classes| && playerClass == "" {
        classNumber := index;
        playerClass := Classes[classNumber];
      } else if |Classes| <= index < |Classes| + |Difficulties| && difficulty == "" {
        difficultyNumber := index - |Classes|;
        difficulty := Difficulties[difficultyNumber];
      } else if key == KeyN && playerName != "" && playerClass != "" && difficulty != "" && seed != "" {
        playerName := "";
        playerClass := "";
        classNumber := -1;
        difficulty := "";
        difficultyNumber := -1;
        seed := "";
      } else if key == KeyY && playerName != "" && playerClass != "" && difficulty != "" && seed != "" {
        reply := StartGame;
      }
    }
  }

  // ---------------------------------------------------------------------
  // Properties of the key handler

  /** A class key picks that class while no class is chosen. */
  lemma SelectClass(c: Config, key: int)
    requires IsClassKey(key) && c.playerClass == ""
    ensures Step(c, key).0.classNumber == key - KeyA
    ensures Step(c, key).0.playerClass == Classes[key - KeyA]
    ensures Step(c, key).0 == c.(classNumber := key - KeyA, playerClass := Classes[key - KeyA])
  {
  }

  /** A difficulty key picks that difficulty while none is chosen. */
  lemma SelectDifficulty(c: Config, key: int)
    requires IsDifficultyKey(key) && c.difficulty == ""
    ensures Step(c, key).0.difficultyNumber == key - KeyA - |Classes|
    ensures Step(c, key).0 == c.(difficultyNumber := key - KeyA - |Classes|,
                                 difficulty := Difficulties[key - KeyA - |Classes|])
  {
  }

  /** A chosen class or difficulty changes only through a full reset with N. */
  lemma ChoicesAreSticky(c: Config, key: int)
    ensures c.playerClass != "" && Step(c, key).0.playerClass != c.playerClass ==>
              key == KeyN && Complete(c) && Step(c, key).0 == Defaults
    ensures c.difficulty != "" && Step(c, key).0.difficulty != c.difficulty ==>
              key == KeyN && Complete(c) && Step(c, key).0 == Defaults
  {
  }

  /** N after everything is filled in clears all six fields. */
  lemma ResetOnN(c: Config)
    requires Complete(c)
    ensures Step(c, KeyN) == (Defaults, NoHandler)
    ensures Consistent(Step(c, KeyN).0)
  {
  }

  /** A key that selects nothing, or N and Y before everything is filled in,
      changes nothing and hands back no handler. */
  lemma IgnoredKeys(c: Config, key: int)
    requires !(IsClassKey(key) && c.playerClass == "")
    requires !(IsDifficultyKey(key) && c.difficulty == "")
    requires !((key == KeyN || key == KeyY) && Complete(c))
    ensures Step(c, key) == (c, NoHandler)
  {
  }

  // ---------------------------------------------------------------------
  // New game: stats, gold and starting inventory

  /** The six ability scores. */
  datatype Stats = Stats(
    charisma: int,
    constitution: int,
    dexterity: int,
    intelligence: int,
    strength: int,
    wisdom: int)

  predicate StatsIn(s: Stats, lo: int, hi: int)
  {
    && lo <= s.charisma <= hi && lo <= s.constitution <= hi && lo <= s.dexterity <= hi
    && lo <= s.intelligence <= hi && lo <= s.strength <= hi && lo <= s.wisdom <= hi
  }

  /** `number` dice of `size` sides, keeping the highest `keep`. */
  datatype DiceSpec = DiceSpec(number: int, size: int, keep: int)

  /** The dice each difficulty rolls for every stat; an unknown difficulty
      rolls none. */
  function StatDice(difficulty: string): (r: Option<DiceSpec>)
    ensures r.Some? <==> difficulty in Difficulties
    ensures r.Some? ==> r.value.number == 3 && 1 <= r.value.keep <= 3 && 6 <= r.value.size <= 20
  {
    if difficulty == Difficulties[0] then Some(DiceSpec(3, 20, 1))
    else if difficulty == Difficulties[1] then Some(DiceSpec(3, 10, 2))
    else if difficulty == Difficulties[2] then Some(DiceSpec(3, 6, 3))
    else None
  }

  /** Dice used for the six stats together. */
  const StatDraws: nat := 18

  /** The stats the dice in `draws` give, three dice per stat in the order
      charisma, constitution, dexterity, intelligence, strength, wisdom. */
  function StatsFrom(draws: seq<int>, keep: int): Stats
    requires |draws| >= StatDraws
  {
    Stats(StatAt(draws, keep, 0), StatAt(draws, keep, 3), StatAt(draws, keep, 6),
          StatAt(draws, keep, 9), StatAt(draws, keep, 12), StatAt(draws, keep, 15))
  }

  /** The stat the three dice at offset `j` of the stream give. */
  function StatAt(draws: seq<int>, keep: int, j: nat): int
    requires j + 3 <= |draws|
  {
    Dice.RollTotal(draws[j..j + 3], keep)
  }

  /** One stat: the three dice starting at offset `j` of the stream. */
  method RollStat(d: DiceSpec, draws: seq<int>, j: nat) returns (stat: int)
    requires d.number == 3 && 1 <= d.keep <= 3
    requires Dice.ValidDraws(draws, StatDraws, d.size) && j + 3 <= StatDraws
    ensures stat == StatAt(draws, d.keep, j)
    ensures d.keep <= stat <= d.keep * d.size
  {
    Dice.ValidDrawsDrop(draws, StatDraws, d.size, j);
    assert draws[j..][..3] == draws[j..j + 3];
    var after;
    stat, after := Dice.Roll(d.number, d.size, d.keep, draws[j..]);
  }

  /** Six rolls of the same dice, one per stat in source order. */
  method RollSix(d: DiceSpec, draws: seq<int>) returns (stats: Stats, rest: seq<int>)
    requires d.number == 3 && 1 <= d.keep <= 3
    requires Dice.ValidDraws(draws, StatDraws, d.size)
    ensures rest == draws[StatDraws..]
    ensures stats == StatsFrom(draws, d.keep)
    ensures StatsIn(stats, d.keep, d.keep * d.size)
  {
    var cha := RollStat(d, draws, 0);
    var con := RollStat(d, draws, 3);
    var dex := RollStat(d, draws, 6);
    var intel := RollStat(d, draws, 9);
    var str := RollStat(d, draws, 12);
    var wis := RollStat(d, draws, 15);
    stats := Stats(cha, con, dex, intel, str, wis);
    rest := draws[StatDraws..];
  }

  /** Rolls the six stats for a difficulty; an unknown difficulty leaves
      `current` as it is and draws nothing. */
  method RollStats(difficulty: string, current: Stats, draws: seq<int>) returns (stats: Stats, rest: seq<int>)
    requires StatDice(difficulty).Some? ==> Dice.ValidDraws(draws, StatDraws, StatDice(difficulty).value.size)
    ensures StatDice(difficulty).None? ==> stats == current && rest == draws
    ensures StatDice(difficulty).Some? ==>
              rest == draws[StatDraws..] && stats == StatsFrom(draws, StatDice(difficulty).value.keep)
    ensures difficulty == Difficulties[0] ==> StatsIn(stats, 1, 20)
    ensures difficulty == Difficulties[1] ==> StatsIn(stats, 2, 20)
    ensures difficulty == Difficulties[2] ==> StatsIn(stats, 3, 18)
  {
    match StatDice(difficulty)
    case None =>
      stats, rest := current, draws;
    case Some(d) =>
      stats, rest := RollSix(d, draws);
  }

  /** Starting gold: ten times 3d6. */
  method RollGold(draws: seq<int>) returns (gold: int, rest: seq<int>)
    requires Dice.ValidDraws(draws, 3, 6)
    ensures rest == draws[3..]
    ensures gold == 10 * Dice.RollTotal(draws[..3], 3)
    ensures gold % 10 == 0 && 30 <= gold <= 180
  {
    var pieces;
    pieces, rest := Dice.Roll(3, 6, 3, draws);
    gold := pieces * 10;
  }

  /** The items a new character can carry. */
  datatype Item = Gold(stack: int) | Dagger | LeatherArmor | OtherItem(name: string)

  /** The player template new characters are copied from. */
  datatype Template = Template(stats: Stats, items: seq<Item>)

  /** The player entity as new-game setup fills it in. */
  class Player {
    var name: string
    var characterClass: string
    var charisma: int
    var constitution: int
    var dexterity: int
    var intelligence: int
    var strength: int
    var wisdom: int
    var items: seq<Item>

    function StatBlock(): Stats
      reads this
    {
      Stats(charisma, constitution, dexterity, intelligence, strength, wisdom)
    }

    /** A fresh copy of the template under the chosen name and class. */
    constructor Copy(t: Template, name: string, characterClass: string)
      ensures this.name == name && this.characterClass == characterClass
      ensures StatBlock() == t.stats && items == t.items
    {
      this.name := name;
      this.characterClass := characterClass;
      charisma, constitution, dexterity := t.stats.charisma, t.stats.constitution, t.stats.dexterity;
      intelligence, strength, wisdom := t.stats.intelligence, t.stats.strength, t.stats.wisdom;
      items := t.items;
    }

    /** Overwrites the six stat fields. */
    method SetStats(s: Stats)
      modifies this
      ensures StatBlock() == s
      ensures name == old(name) && characterClass == old(characterClass) && items == old(items)
    {
      charisma, constitution, dexterity := s.charisma, s.constitution, s.dexterity;
      intelligence, strength, wisdom := s.intelligence, s.strength, s.wisdom;
    }

    /** `inventory.items.append(item)`. */
    method AddItem(item: Item)
      modifies this
      ensures items == old(items) + [item]
      ensures name == old(name) && characterClass == old(characterClass) && StatBlock() == old(StatBlock())
    {
      items := items + [item];
    }
  }

  /** Dice consumed by the stat rolls of a difficulty. */
  function StatDrawCount(difficulty: string): (k: nat)
    ensures k == 0 || k == StatDraws
  {
    if StatDice(difficulty).Some? then StatDraws else 0
  }

  /** A stream with valid faces for the stat dice of `difficulty` followed by
      three faces of a six-sided die for the gold. */
  predicate NewGameDraws(difficulty: string, draws: seq<int>)
  {
    && (StatDice(difficulty).Some? ==> Dice.ValidDraws(draws, StatDraws, StatDice(difficulty).value.size))
    && StatDrawCount(difficulty) <= |draws|
    && Dice.ValidDraws(draws[StatDrawCount(difficulty)..], 3, 6)
  }

  /** The inventory after new-game setup: what the template carried, then the
      gold, the dagger and the leather armour, in that order. */
  function StartingItems(carried: seq<Item>, gold: int): seq<Item>
  {
    carried + [Gold(gold), Dagger, LeatherArmor]
  }

  /** The gold, the dagger and the leather armour, appended one at a time. */
  method GiveStartingItems(player: Player, gold: int)
    modifies player
    ensures player.items == StartingItems(old(player.items), gold)
    ensures player.name == old(player.name) && player.characterClass == old(player.characterClass)
    ensures player.StatBlock() == old(player.StatBlock())
  {
    player.AddItem(Gold(gold));
    player.AddItem(Dagger);
    player.AddItem(LeatherArmor);
  }

  /** `new_game`, reduced to what it does to the player: copy the template,
      take name and class from the settings, roll the stats the difficulty
      calls for, roll the gold and append the three starting items.
      `generate_floor` runs before the stat rolls and takes its own draws,
      so `draws` is the stream left after the floor has been generated. */
  method NewGame(settings: Settings, template: Template, draws: seq<int>)
    returns (player: Player, rest: seq<int>)
    requires NewGameDraws(settings.difficulty, draws)
    ensures fresh(player)
    ensures player.name == settings.playerName && player.characterClass == settings.playerClass
    ensures StatDice(settings.difficulty).None? ==> player.StatBlock() == template.stats
    ensures StatDice(settings.difficulty).Some? ==>
              player.StatBlock() == StatsFrom(draws, StatDice(settings.difficulty).value.keep)
    ensures var k := StatDrawCount(settings.difficulty);
            && rest == draws[k + 3..]
            && player.items == StartingItems(template.items, 10 * Dice.RollTotal(draws[k..k + 3], 3))
    ensures |player.items| == |template.items| + 3
    ensures var gold := player.items[|template.items|];
            gold.Gold? && gold.stack % 10 == 0 && 30 <= gold.stack <= 180
  {
    player := new Player.Copy(template, settings.playerName, settings.playerClass);
    var stats, afterStats := RollStats(settings.difficulty, player.StatBlock(), draws);
    player.SetStats(stats);
    ghost var k := StatDrawCount(settings.difficulty);
    assert afterStats == draws[k..];
    var gold;
    gold, rest := RollGold(afterStats);
    assert afterStats[..3] == draws[k..k + 3];
    assert gold == 10 * Dice.RollTotal(draws[k..k + 3], 3);
    assert rest == draws[k + 3..];
    GiveStartingItems(player, gold);
  }
}
