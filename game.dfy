/**
  One round of rock-paper-scissors, as `playRPS` in bot.js resolves it.

  The bot's move is the entry of the move list at a drawn index; the
  floating-point draw of the original is replaced by the index itself
  (`Draw`). `PlayRPS` follows the original's chain of string comparisons;
  `Resolve` is the rule of the game stated independently over moves, and
  the lemmas below connect the two over every pair.
*/
module Game {

  import opened Wrappers

  datatype Move = Rock | Paper | Scissors

  /** The result of a round, from the human player's side. */
  datatype Outcome = Win | Loss | Tie

  /** An index into the move list: the value of `Math.floor(Math.random() * 3)`. */
  type Draw = i: nat | i < 3

  /** The move names the bot draws from, in the original's order. */
  const CHOICES: seq<string> := ["rock", "paper", "scissors"]

  function Name(m: Move): (s: string)
    ensures s in CHOICES
  {
    match m
    case Rock => "rock"
    case Paper => "paper"
    case Scissors => "scissors"
  }

  /** The move a name stands for, if it is one of the three names. */
  function MoveNamed(s: string): (r: Option<Move>)
    ensures r.Some? <==> s in CHOICES
    ensures r.Some? ==> Name(r.value) == s
  {
    if s == "rock" then Some(Rock)
    else if s == "paper" then Some(Paper)
    else if s == "scissors" then Some(Scissors)
    else None
  }

  lemma NameRoundTrip(m: Move)
    ensures MoveNamed(Name(m)) == Some(m)
  {
  }

  datatype Round = Round(botChoice: string, result: Outcome)

  /**
    The round as the original computes it: the user's choice is the raw
    string it was handed, compared against the drawn name.
  */
  function PlayRPS(userChoice: string, draw: Draw): (r: Round)
    ensures r.botChoice == CHOICES[draw]
    ensures r.result == Tie <==> userChoice == r.botChoice
  {
    var botChoice := CHOICES[draw];
    var result :=
      if userChoice == botChoice then Tie
      else if (userChoice == "rock" && botChoice == "scissors")
           || (userChoice == "paper" && botChoice == "rock")
           || (userChoice == "scissors" && botChoice == "paper")
      then Win
      else Loss;
    Round(botChoice, result)
  }

  /** The move a drawn index selects. */
  function BotMove(draw: Draw): (m: Move)
    ensures Name(m) == CHOICES[draw]
  {
    [Rock, Paper, Scissors][draw]
  }

  /** Rock beats scissors, scissors beats paper, paper beats rock. */
  function Defeats(m: Move): Move
  {
    match m
    case Rock => Scissors
    case Scissors => Paper
    case Paper => Rock
  }

  /** The rule of the game over moves: the reference the original is checked against. */
  function Resolve(user: Move, bot: Move): Outcome
  {
    if bot == Defeats(user) then Win
    else if user == Defeats(bot) then Loss
    else Tie
  }

  /** Every one of the nine pairs: the original's string chain agrees with the rule. */
  lemma PlayRPSMatchesRule(user: Move, draw: Draw)
    ensures PlayRPS(Name(user), draw) == Round(Name(BotMove(draw)), Resolve(user, BotMove(draw)))
  {
  }

  /** A string that names no move always loses: the original has no separate error path. */
  lemma UnknownChoiceLoses(userChoice: string, draw: Draw)
    requires userChoice !in CHOICES
    ensures PlayRPS(userChoice, draw).result == Loss
  {
  }

  /** Tie exactly on equal moves, win exactly on beat-pairs, loss on the reversed pairs. */
  lemma ResolveCases(user: Move, bot: Move)
    ensures Resolve(user, bot) == Tie <==> user == bot
    ensures Resolve(user, bot) == Win <==> bot == Defeats(user)
    ensures Resolve(user, bot) == Loss <==> user == Defeats(bot)
  {
  }

  /** The game is fair between the two sides: swapping them swaps win and loss. */
  lemma ResolveSwapped(user: Move, bot: Move)
    ensures Resolve(user, bot) == Win <==> Resolve(bot, user) == Loss
    ensures Resolve(user, bot) == Tie <==> Resolve(bot, user) == Tie
  {
  }

  /** Each move is drawn by exactly one index, so a uniform index is a uniform move. */
  lemma BotMoveBijective(m: Move)
    ensures exists draw: Draw :: BotMove(draw) == m
    ensures forall d1: Draw, d2: Draw :: BotMove(d1) == m && BotMove(d2) == m ==> d1 == d2
  {
    var d: Draw := match m case Rock => 0 case Paper => 1 case Scissors => 2;
    assert BotMove(d) == m;
  }

  /** Against any move, the three draws give one win, one loss and one tie. */
  lemma EachOutcomeOnce(user: Move)
    ensures multiset{Resolve(user, BotMove(0)), Resolve(user, BotMove(1)), Resolve(user, BotMove(2))}
            == multiset{Win, Loss, Tie}
  {
  }
}
