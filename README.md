# GOLD roguelike: dice, character creation and name/text helpers in Dafny

This project models three small pieces of the GOLD terminal roguelike:

- **The keep-highest dice roller** (`Dice`, `dice_roller.dfy`). A roll of
  `number` dice with `size` sides drops the smallest `number - keep` dice and
  sums the rest. Every stat roll and the starting gold go through it. The
  random source is an explicit stream of draws. Each draw is a face in
  `[1, size]`, which is what `randint(1, size)` promises. A roll takes the
  first `number` draws and hands back the rest of the stream. Python's
  `list.sort()` is modelled by the function `Sorted`, the ascending
  permutation of its input.
- **Character creation and new-game setup** (`SetupGame`, `setup_game.dfy`).
  The six session-wide selection fields are a `Settings` object: name, class,
  class number, difficulty, difficulty number and seed. The character
  creator's key handler updates them branch by branch. `Step` specifies it as
  a function over the `Config` value of those fields. `NewGame` copies a
  player template and takes the name and class from the settings. It rolls
  the six stats with the difficulty's dice, rolls ten times 3d6 gold, and
  appends the gold, a dagger and leather armour to the inventory, in that
  order.
- **Rendering helpers with logic** (`Render`, `render_functions.dfy`). The
  name lookup for a map cell returns nothing outside the map or on a cell not
  currently visible. Otherwise it joins the names of the entities on the cell
  with `", "` and capitalises the result. The editing rules of the text prompt
  are a step function over input events: append typed text, Backspace, Enter
  and Escape. A loop drives that step function over a finite list of events.

`Wrappers` (`wrappers.dfy`) holds the `Option` type.

Key codes follow the toolkit's letter keys: the code of the lower-case ASCII
letter, so `a` is 97, `n` is 110 and `y` is 121. The class keys are `a` to
`j`, the difficulty keys `k` to `m`. `N` and `Y` therefore never select
anything.

In these edge cases the model follows the code as written:

- A `keep` of zero or less drops every die, so the roll is 0 (`Dice.Roll`,
  `Dice.RollBounds`).
- A non-positive `number` rolls no dice and gives 0.
- `settings.seed` is read and reset by the key handler but has no declaration
  in `settings.py`. The model starts it, like the other strings, at `""`.

## Model

| member | source | states |
|---|---|---|
| `Dice.Roll` | dice_roller.py:5-15 | Consumes exactly `max(number, 0)` draws and returns the rest of the stream. The total is the sum of the dice kept from the sorted draws. With `keep >= number` it lies in `[max(number, 0), max(number, 0)*size]`. With `0 <= keep < number` it lies in `[keep, keep*size]`. With `keep <= 0` it is 0. |
| `Dice.DropCount` | dice_roller.py:13-14 | The number of dice discarded. It is all of them when `keep <= 0`, none when `keep >= count`, and otherwise leaves exactly `keep`. |
| `Dice.Kept` | dice_roller.py:12-14 | The surviving dice number `count - DropCount(count, keep)`. |
| `Dice.RollTotal` | dice_roller.py:12-15 | A roll that keeps no die is 0. A roll that keeps every die is the plain sum of the faces, whatever their order. |
| `Dice.SumSorted` | dice_roller.py:12 | Sorting the dice does not change their sum. |
| `Dice.Sorted` | dice_roller.py:12 | The sorted list has the same length and the same multiset of dice as the input, in ascending order. |
| `Dice.RollBounds` | dice_roller.py:13-15 | For dice in `[1, size]`, the kept dice are the rolled ones minus the dropped ones. The total lies in `[number, number*size]` when all are kept, in `[keep, keep*size]` when `0 <= keep < number`, and is 0 when `keep <= 0`. |
| `Dice.KeepsHighest` | dice_roller.py:12-14 | Discarded and kept dice together are exactly the rolled dice. The right number is kept. Every discarded die is at most every kept die. |
| `Dice.OrderIndependent` | dice_roller.py:12 | Two rolls with the same multiset of faces give the same total, whatever the draw order. |
| `Dice.FewerKeptNoLarger` | dice_roller.py:13-15 | For fixed dice, a smaller `keep` never gives a larger total. |
| `SetupGame.Step` | setup_game.py:164-202 | Keeps the class and difficulty fields consistent with their numbers. It answers StartGame exactly on `Y` with name, class, difficulty and seed all set, and then changes nothing. Name and seed change only by a reset of all six fields. |
| `SetupGame.Settings.constructor` | settings.py:20-41 | All six fields start unset: empty strings and numbers -1. The class and difficulty fields start consistent with their numbers. |
| `SetupGame.Settings.KeyDown` | setup_game.py:164-202 | The fields after a key press are `Step` of the fields before, and the reply is `Step`'s reply. |
| `SetupGame.SelectClass` | setup_game.py:168-171 | While no class is chosen, key `a + i` with `i < 10` sets the class number to `i` and the class to the `i`-th class. Nothing else changes. |
| `SetupGame.SelectDifficulty` | setup_game.py:172-176 | While no difficulty is chosen, key `a + 10 + i` with `i < 3` sets the difficulty number to `i` and the difficulty to the `i`-th difficulty. Nothing else changes. |
| `SetupGame.ChoicesAreSticky` | setup_game.py:168-191 | Once chosen, the class or the difficulty changes only through `N` with everything filled in, which resets all fields. |
| `SetupGame.ResetOnN` | setup_game.py:177-191 | `N` with name, class, difficulty and seed set resets all six fields to `""` and -1 and returns no handler. |
| `SetupGame.IgnoredKeys` | setup_game.py:164-202 | A key that selects nothing, or `N`/`Y` before everything is filled in, changes nothing and returns no handler. |
| `SetupGame.StatDice` | setup_game.py:57-80 | Exactly the three listed difficulties roll stats, each with three dice keeping one to three of them. Any other string rolls none. |
| `SetupGame.RollStat` | setup_game.py:59-80 | One stat is the roll of the three draws at its offset, between `keep` and `keep*size`. |
| `SetupGame.RollSix` | setup_game.py:57-80 | The six stats are rolled from consecutive triples of draws, in the order charisma, constitution, dexterity, intelligence, strength, wisdom. Each lies in `[keep, keep*size]`. |
| `SetupGame.RollStats` | setup_game.py:56-80 | Extreme rolls 3d20 keep 1 (stats 1..20), Standard 3d10 keep 2 (2..20), Classic 3d6 (3..18). Each consumes 18 draws. Any other difficulty leaves the stats as they were and draws nothing. |
| `SetupGame.RollGold` | setup_game.py:84 | Starting gold is ten times a 3d6 roll of the next three draws: a multiple of 10 in `[30, 180]`. |
| `SetupGame.Player.Copy` | setup_game.py:34-36 | The new player is a copy of the template's stats and items, under the chosen name and class. |
| `SetupGame.Player.SetStats` | setup_game.py:59-80 | The six stat fields take the rolled values. Name, class and items are unchanged. |
| `SetupGame.Player.AddItem` | setup_game.py:88 | The item is appended at the end of the inventory. Nothing else changes. |
| `SetupGame.GiveStartingItems` | setup_game.py:82-100 | The gold, dagger and leather armour are appended to the inventory in that order. Name, class and stats are unchanged. |
| `SetupGame.NewGame` | setup_game.py:25-101 | The player is fresh and carries the settings' name and class. The stats are rolled as the difficulty says, or are the template's. The inventory is the template's items followed by gold, dagger and leather armour, in that order. The gold is a multiple of 10 in `[30, 180]` rolled from the three draws after the stat dice. |
| `Render.NamesAt` | render_functions.py:19-21 | At most one name per entity. No names exactly when no entity stands on the cell. |
| `Render.Capitalize` | render_functions.py:23 | Same length. The first character is upper-cased and every later character lower-cased. |
| `Render.NamesAtLocation` | render_functions.py:15-23 | `""` out of bounds, on a cell not visible, or with no entity there. Otherwise the names on the cell joined with `", "` and capitalised. The result is its own capitalisation. |
| `Render.CapitalizeIdempotent` | render_functions.py:23 | Capitalising twice is capitalising once. |
| `Render.NamesAtAppend` | render_functions.py:19-21 | An entity iterated last contributes its name last, and only if it stands on the cell. |
| `Render.Join` | render_functions.py:19-21 | No names join to `""`. Otherwise the text starts with the first name, and its length is the names' total length plus one separator between each pair of neighbours. |
| `Render.JoinAppend` | render_functions.py:19-21 | Joining one more name appends the separator and that name. |
| `Render.JoinEmpty` | render_functions.py:19-21 | With a non-empty separator, the join is empty exactly when there is nothing to join or a single empty name. |
| `Render.OtherCellsIgnored` | render_functions.py:19-21 | An entity on another cell does not change the text shown for this cell. |
| `Render.ArrivalListedLast` | render_functions.py:19-23 | An entity iterated last, on a visible cell where others stand, is listed after them, separated by `", "`. |
| `Render.LoneEntity` | render_functions.py:19-23 | A lone entity on a visible cell is shown by its capitalised name. |
| `Render.EditStep` | render_functions.py:67-79 | Typed text is appended at the end. Backspace removes the last character and leaves an empty buffer empty. Enter answers the buffer unchanged. Escape answers `""`. Other events change nothing. |
| `Render.Read` | render_functions.py:63-79 | The prompt gives no answer exactly when no event in the list is Enter or Escape. |
| `Render.AskForText` | render_functions.py:60-79 | The answer is what the step rules give from an empty buffer. It is never longer than all the text typed. |
| `Render.TypingAppends` | render_functions.py:68-69 | Typing a string character by character appends it to the buffer. |
| `Render.BackspacesErase` | render_functions.py:75-76 | One Backspace per character removes a typed suffix. |
| `Render.TypeThenErase` | render_functions.py:68-76 | Typing a text and then erasing it leaves the prompt as it was. |
| `Render.EscapeDiscards` | render_functions.py:78-79 | Escape answers `""` whatever was typed before it. |
| `Render.TypeThenEnter` | render_functions.py:68-74 | Typing `s` and pressing Enter answers `s`. |

## Left out

- The pseudo-random generator, and seeding it from the seed string. The draws are an input stream. The model does not say which stream a seed gives or that a seed reproduces a session.
- `randint` raising for `size < 1`. Draws must be faces in `[1, size]`, so a roll with `size < 1` and at least one die cannot be called.
- In `new_game`: the engine, the dungeon world and `generate_floor`, the field-of-view update, the welcome message, and equipping the dagger and armour (`toggle_equip`). Their code is not part of this model. The player template stands in for `entity_factories.player`. `generate_floor` (setup_game.py:49) runs before the stat rolls, so the `draws` given to `SetupGame.NewGame` are the stream left after floor generation.
- SetupGame.Settings.KeyDown: answers `StartGame` on a confirmed `Y` where the source builds the new game inside the handler. `SetupGame.NewGame` models that build. The in-game event handler wrapped around it is left out.
- `load_game` (lzma/pickle file I/O) and the main menu, because they are I/O and rendering.
- The character creator's `on_render`: drawing, the blocking name and seed prompts that set `player_name` and `seed`, and `random.seed`. These are console I/O. The prompt's editing rules are modelled in `Render`.
- `render_bar` (a float ratio), `render_dungeon_level` and `render_names_at_mouse_location`, which only print to the console.
- `ask_for_text`'s drawing, presenting and waiting. The events it waits for are a finite list, and `None` means it is still waiting when the list runs out.
- Render.Capitalize: handles case only for ASCII letters. Python's `str.capitalize` also maps other Unicode letters, using title case for the first character.
- `GameMap.in_bounds` is not part of this model. It is taken as `0 <= x < width` and `0 <= y < height`, with the visibility grid indexed `[x][y]`.
- The main loop, the save-on-exit control flow, the tileset and the window setup.
