# Rock-paper-scissors and score ledger of ayn-bot

ayn-bot is a Discord bot. Its one piece of real logic is a rock-paper-scissors
game with a persistent score ledger, all in `bot.js`. This project models
that logic in Dafny and proves properties of the model:

- **Game** (`game.dfy`): `playRPS` draws the bot's move from
  `['rock', 'paper', 'scissors']` and classifies the round, from the
  player's side, as win, loss or tie. The draw
  `Math.floor(Math.random() * 3)` becomes a parameter `draw` of type
  `Draw` (a natural number below 3). `PlayRPS` follows the original's
  chain of string comparisons. `Resolve` states the game's rule
  independently, as "each move defeats one other move", and lemmas
  connect the two over all nine pairs.
- **UserData** (`userdata.dfy`): the `userdata.json` object is a
  `map<string, Record>`. Pure functions (`AfterGetUser`, `AfterUpdate`,
  `Tally`) say what `getUser` and `updateUserStats` do to the whole map.
  Class `Ledger` holds the map as a mutable field. Its methods `GetUser`
  and `UpdateUserStats` change it step by step, as the original does, and
  are proved against those functions. Lemmas cover the consistency
  invariant (points = 50·wins − 10·losses + 10·ties), the idempotence of
  `getUser`, and the history of k updates.
- **Leaderboard** (`leaderboard.dfy`): the leaderboard view sorts the
  map's entries by points, high to low, and keeps the first ten. The
  lemmas hold for every order in which `Object.entries` may list the map.
- **Commands** (`commands.dfy`): the `!rps <move>` text command splits the
  message on single spaces, lower-cases the second word and accepts only
  the three move names. The `/rps` slash command passes its option on
  without any check. Its registration (bot.js:59) makes the option required
  and limits it to the three move names. While the platform enforces that
  list, the "any other string loses" case of `RpsInteraction` cannot
  arise. Two handler methods tie the parse, the game and the
  ledger together. When the argument is rejected, the ledger is
  unchanged.
- **Wrappers** (`wrappers.dfy`): the `Option` type.

Three facts about bot.js shape the model:
- `playRPS` has no error path. A string that names no move is compared
  like any other and loses (`Game.UnknownChoiceLoses`). Only `!rps` checks
  its argument (bot.js:164-168).
- The two ledger functions are synchronous. They read the whole data
  file, and write it back: `updateUserStats` always does, `getUser` only
  when it creates a record (bot.js:30-33). Nothing is awaited between the
  read and the write, so within one bot process each call runs to the end
  before another starts. The sequential model is therefore exact for that
  process.
- The leaderboard sorts by points alone. Players with equal points keep
  whatever order the library sort leaves them in.

## Model

| member | source | states |
|---|---|---|
| `Game.Name` | bot.js:78 | every move's name is one of the three names the bot draws from |
| `Game.MoveNamed` | bot.js:164-165 | a string gives a move exactly when it is one of the three names, and the move carries that name |
| `Game.NameRoundTrip` | bot.js:78 | looking up a move's name gives back the move |
| `Game.BotMove` | bot.js:78-81 | the drawn index selects the move whose name is at that index of the choices list |
| `Game.PlayRPS` | bot.js:77-93 | the bot's choice is the drawn name, and the round is a tie exactly when the user's string equals it |
| `Game.PlayRPSMatchesRule` | bot.js:83-93 | for every pair of moves, the original's comparison chain gives the same result as the rule "rock beats scissors, scissors beats paper, paper beats rock" |
| `Game.UnknownChoiceLoses` | bot.js:83-93 | a user string that names no move always results in a loss |
| `Game.ResolveCases` | bot.js:83-93 | tie iff the moves are equal, win iff the bot's move is the one the user's move defeats, loss iff the reverse |
| `Game.ResolveSwapped` | bot.js:85-89 | swapping the two sides turns a win into a loss and keeps a tie |
| `Game.BotMoveBijective` | bot.js:81 | each move is selected by exactly one index, so a uniform index gives a uniform move |
| `Game.EachOutcomeOnce` | bot.js:81-93 | against any user move, the three draws give one win, one loss and one tie |
| `UserData.Tally` | bot.js:42-52 | one round overwrites the name, raises exactly the outcome's counter by one, and changes the points by +50, −10 or +10 |
| `UserData.TallyKeepsConsistent` | bot.js:43-52 | one round keeps points equal to 50·wins − 10·losses + 10·ties |
| `UserData.AfterGetUser` | bot.js:28-35 | after `getUser`, the id is present, every existing record is unchanged, and a missing id gets the zero record named "Unknown" |
| `UserData.AfterUpdate` | bot.js:37-55 | after `updateUserStats`, the id is present, no other record changes, and the id's record is its old one (or a zero record with the given name) with the round applied |
| `UserData.GetUserKeepsConsistent` | bot.js:30-33 | `getUser` keeps every record consistent |
| `UserData.UpdateKeepsConsistent` | bot.js:39-52 | `updateUserStats` keeps every record consistent |
| `UserData.GetUserIdempotent` | bot.js:28-35 | for a known id, `getUser` leaves the map as it was, and a second call changes nothing after the first |
| `UserData.FirstRound` | bot.js:39-52 | a player absent from the ledger who plays one round gets the name passed in, that round's points, and a count of one for its outcome only; a win gives 50 points, 1 win, 0 losses, 0 ties |
| `UserData.ScoreByCounts` | bot.js:43-52 | every play is counted under exactly one outcome, and the summed point changes equal 50·wins − 10·losses + 10·ties |
| `UserData.ReplayRecord` | bot.js:37-55 | after k updates on one id: the record carries the last name, each counter grew by the number of plays with its outcome, the points grew by their summed changes, and no other id's record changed |
| `UserData.NewPlayerHistory` | bot.js:39-52 | a player created by k rounds has played exactly k rounds, and holds exactly the points those rounds earned |
| `UserData.Ledger.constructor` | bot.js:17-22 | a ledger without a data file starts as the empty map |
| `UserData.Ledger.Load` | bot.js:17-22 | a ledger loaded from a snapshot holds exactly that map |
| `UserData.Ledger.GetUser` | bot.js:28-35 | the new map is `AfterGetUser` of the old one, the result is the stored record, a known id leaves the map unchanged, and consistency is preserved |
| `UserData.Ledger.UpdateUserStats` | bot.js:37-55 | the new map is `AfterUpdate` of the old one, the result is the stored record with the new name, other ids are untouched, exactly the outcome's counter rises by one, the points change by the outcome's amount, and consistency is preserved |
| `Leaderboard.Insert` | bot.js:128 | inserting into a sorted sequence keeps it sorted and adds exactly that entry |
| `Leaderboard.SortByPoints` | bot.js:128 | the sort by `b.points - a.points` gives non-increasing points and a permutation of its input |
| `Leaderboard.SortIdOnSorted` | bot.js:128 | a sequence already sorted by points is left as it is; so any sorted permutation the engine's sort returns, taken as the listing, is its own `SortByPoints`, and the board lemmas cover it |
| `Leaderboard.Take` | bot.js:128 | `slice(0, n)` gives the first min(n, length) entries |
| `Leaderboard.Entries` | bot.js:128 | `Object.entries` lists every pair of the map once and nothing else |
| `Leaderboard.BoardRows` | bot.js:128 | the rows are sorted, and each is the id and record of a player, with no id twice |
| `Leaderboard.SortedCons` | bot.js:128 | an entry with at least the points of a sorted sequence's head can go in front of it |
| `Leaderboard.PrefixOutranks` | bot.js:128 | in a sorted sequence, every row before a position has at least the points at that position |
| `Leaderboard.BoardIsTop` | bot.js:128 | a player is either shown, or has no more points than any row shown |
| `Leaderboard.BoardProperties` | bot.js:128 | for every listing of the ledger: min(10, players) rows, sorted, all from the ledger, no player twice, and the left-out players score no higher than any row |
| `Leaderboard.LedgerBoard` | bot.js:127-132 | on the ledger itself: at most 10 sorted rows from the ledger, and empty exactly when the ledger is empty (the "no data yet" reply) |
| `Commands.Split` | bot.js:162 | `split(' ')` gives at least one piece, no piece contains a space, and joining the pieces with spaces gives back the message |
| `Commands.SplitAfterSeparator` | bot.js:162 | a space-free word followed by a space splits off as the first piece |
| `Commands.SplitFirstPiece` | bot.js:162 | a space-free word followed by nothing or a space is the first piece |
| `Commands.LowerChar` | bot.js:163 | A-Z map to a-z (code point + 32), the Kelvin sign maps to k, every other character is kept, and the result is never an upper-case ASCII letter |
| `Commands.LowerCase` | bot.js:163 | lower-casing keeps the length and lower-cases each character |
| `Commands.LowerCaseIdempotent` | bot.js:163 | lower-casing twice gives the same result as lower-casing once |
| `Commands.RpsArgument` | bot.js:162-168 | the argument is accepted exactly when the message has a second space-separated word whose lower-case form is one of the three names, and then it gives that move |
| `Commands.ArgumentIsSecondWord` | bot.js:162-165 | for "command word rest", acceptance depends on the second word alone |
| `Commands.AnyCaseAccepted` | bot.js:162-165 | for "command word rest", a word spelling a move in any mix of upper and lower case is accepted as that move, whatever text follows it |
| `Commands.KelvinSignSpellsRock` | bot.js:163 | the Kelvin sign lower-cases to k, so "ROC" followed by U+212A lower-cases to "rock" |
| `Commands.MissingArgumentRejected` | bot.js:162-168 | a message that is a single word has no second word and is rejected |
| `Commands.DoubledSpaceRejected` | bot.js:162-168 | two spaces after the command make the second word empty, so the message is rejected whatever follows |
| `Commands.RpsMessage` | bot.js:161-172 | a rejected argument gives the usage reply and leaves the ledger unchanged; an accepted one plays the lower-cased name and records its outcome with `updateUserStats` |
| `Commands.RpsInteraction` | bot.js:113-118 | `/rps` plays its option unchecked (any other string loses) and records the outcome with `updateUserStats` |

## Left out

- Discord client setup, intents, login, slash-command registration and REST calls (bot.js:4-13, 57-75, 239): platform plumbing outside the game.
- Embeds, emoji, reply texts and the formatting of the leaderboard and help messages (bot.js:79-80, 94-104, 117-118, 121-125, 133-139, 141-148, 171-202): presentation only. `Reply` keeps only what the reply is built from.
- The handlers' routing on the message text (`!ping`, `startsWith('!rps')`, `!balance`, `!leaderboard`, `!help`) and on the interaction's command name: `RpsMessage` models the body of the `!rps` branch once it has been entered. `!balance` and `/balance` are `Ledger.GetUser`.
- Reading and writing `userdata.json` (bot.js:17-26): the file goes through library calls the model cannot see. The ledger is the in-memory map, a missing file is the empty map (`Ledger` constructor), and a loaded snapshot is `Ledger.Load`. There is no serialisation round trip.
- `Math.random()` (bot.js:81): replaced by the drawn index `draw: Draw`, with `0 <= draw < 3`.
- Several processes sharing `userdata.json`: bot.js runs as a single process, and its synchronous ledger calls cannot interleave there. Lost updates could only arise between separate processes writing the same file, which the model does not cover.
- The leaderboard's order among equal points depends on the library sort and on the insertion order of `Object.entries`. The lemmas hold for every listing of the map. `SortByPoints` is one sort with the required properties, not the engine's algorithm.
- `Leaderboard.Entries` is a ghost function, because a map has no order the model can compute with. So the leaderboard is stated as lemmas, not as a method of `Ledger`.
- Commands.LowerChar: models JavaScript's `toLowerCase` only for A-Z and the Kelvin sign. Other characters are kept, whereas JavaScript lower-cases them to other non-ASCII characters (U+0130 becomes "i" plus a combining dot). Acceptance of the argument is unaffected, because no other character lower-cases to an ASCII letter alone.
- Commands.LowerCase: keeps the length of the string, which JavaScript's `toLowerCase` does not always do (U+0130 becomes two code units). The result differs only on words that are rejected either way.
- JavaScript strings are UTF-16 and numbers are doubles. The model uses Unicode scalar values and unbounded integers. Points beyond 2^53 and ids that name `Object.prototype` members (`__proto__`, `constructor`), for which `!data[userId]` is false although the id is absent, are not modelled. Discord ids are numeric strings.
- `updateUserStats` has no branch for a result other than win, loss or tie. `Outcome` has exactly those three values, and `playRPS` produces nothing else.
- The welcome-message handler (bot.js:209-237): channel lookup and text.
