/**
  The two ways a player starts a round in bot.js: the `!rps <move>` text
  command, whose argument is parsed and checked before anything else
  happens, and the `/rps` slash command, whose option is passed on as it
  comes. Replies, embeds and the other commands are not modelled.
*/
module Commands {

  import opened Wrappers
  import opened Game
  import opened UserData

  /** Glue the parts back together with the separator between them. */
  function Join(parts: seq<string>, sep: char): string
    requires |parts| >= 1
  {
    if |parts| == 1 then parts[0] else parts[0] + [sep] + Join(parts[1..], sep)
  }

  /** `s.split(sep)` for a one-character separator: the maximal runs between separators. */
  function Split(s: string, sep: char): (parts: seq<string>)
    ensures |parts| >= 1
    ensures forall i :: 0 <= i < |parts| ==> sep !in parts[i]
    ensures Join(parts, sep) == s
  {
    if s == [] then [""]
    else
      var rest := Split(s[1..], sep);
      if s[0] == sep then
        assert ([""] + rest)[1..] == rest;
        [""] + rest
      else
        var parts := [[s[0]] + rest[0]] + rest[1..];
        assert parts[1..] == rest[1..];
        assert forall i :: 1 <= i < |parts| ==> parts[i] == rest[i];
        assert s == [s[0]] + s[1..];
        parts
  }

  /** The pieces of a string that starts with a separator-free piece and a separator. */
  lemma {:induction false} SplitAfterSeparator(a: string, b: string, sep: char)
    requires sep !in a
    ensures Split(a + [sep] + b, sep) == [a] + Split(b, sep)
  {
    var s := a + [sep] + b;
    if a != [] {
      assert s[0] == a[0] && s[1..] == a[1..] + [sep] + b;
      SplitAfterSeparator(a[1..], b, sep);
      var rest := Split(s[1..], sep);
      assert rest[0] == a[1..] && rest[1..] == Split(b, sep);
      assert [a[0]] + a[1..] == a;
    } else {
      assert (a + [sep] + b)[1..] == b;
    }
  }

  /** The first piece of a string that is a separator-free word followed by nothing or a separator. */
  lemma {:induction false} SplitFirstPiece(a: string, b: string, sep: char)
    requires sep !in a && (b == [] || b[0] == sep)
    ensures Split(a + b, sep)[0] == a
  {
    if a != [] {
      SplitFirstPiece(a[1..], b, sep);
      assert (a + b)[1..] == a[1..] + b;
    } else if b != [] {
      assert a + b == b;
    }
  }

  /**
    `toLowerCase` on one character, as far as it matters here: A-Z become
    a-z, and the Kelvin sign (U+212A) becomes k; every other character is
    kept.
  */
  function LowerChar(c: char): (l: char)
    ensures 'A' <= c <= 'Z' ==> l as int == c as int + 32 && 'a' <= l <= 'z'
    ensures c == '\U{212A}' ==> l == 'k'
    ensures !('A' <= c <= 'Z') && c != '\U{212A}' ==> l == c
    ensures !('A' <= l <= 'Z')
  {
    if 'A' <= c <= 'Z' then (c as int + 32) as char
    else if c == '\U{212A}' then 'k'
    else c
  }

  function LowerCase(s: string): (l: string)
    ensures |l| == |s|
    ensures forall i :: 0 <= i < |s| ==> l[i] == LowerChar(s[i])
  {
    if s == [] then [] else [LowerChar(s[0])] + LowerCase(s[1..])
  }

  /** Lower-casing twice is lower-casing once. */
  lemma LowerCaseIdempotent(s: string)
    ensures LowerCase(LowerCase(s)) == LowerCase(s)
  {
  }

  /**
    The argument check of `!rps` (bot.js lines 162-168): the second
    space-separated word, lower-cased, must be one of the three move names.
  */
  function RpsArgument(content: string): (m: Option<Move>)
    ensures m.Some? <==> |Split(content, ' ')| >= 2 && LowerCase(Split(content, ' ')[1]) in CHOICES
    ensures m.Some? ==> Name(m.value) == LowerCase(Split(content, ' ')[1])
  {
    var args := Split(content, ' ');
    if |args| < 2 || args[1] == "" then None
    else MoveNamed(LowerCase(args[1]))
  }

  /**
    For a message made of a command word, one space, a word and then
    nothing or more space-separated text, the check looks at that word alone.
  */
  lemma ArgumentIsSecondWord(command: string, word: string, rest: string)
    requires ' ' !in command && ' ' !in word && (rest == [] || rest[0] == ' ')
    ensures RpsArgument(command + " " + word + rest) == MoveNamed(LowerCase(word))
  {
    assert command + " " + word + rest == command + [' '] + (word + rest);
    SplitAfterSeparator(command, word + rest, ' ');
    SplitFirstPiece(word, rest, ' ');
  }

  /** Any mix of upper and lower case spelling a move is accepted as that move. */
  lemma AnyCaseAccepted(command: string, word: string, rest: string, m: Move)
    requires ' ' !in command && ' ' !in word && (rest == [] || rest[0] == ' ')
    requires LowerCase(word) == Name(m)
    ensures RpsArgument(command + " " + word + rest) == Some(m)
  {
    ArgumentIsSecondWord(command, word, rest);
    NameRoundTrip(m);
  }

  /** The Kelvin sign lower-cases to k, so "ROC" followed by it spells rock. */
  lemma KelvinSignSpellsRock()
    ensures LowerCase("ROC\U{212A}") == Name(Rock)
  {
    assert LowerChar('R') == 'r' && LowerChar('O') == 'o' && LowerChar('C') == 'c' && LowerChar('\U{212A}') == 'k';
  }

  /** A message that is a single word has no argument, and is rejected. */
  lemma MissingArgumentRejected(command: string)
    requires ' ' !in command
    ensures RpsArgument(command) == None
  {
    SplitFirstPiece(command, "", ' ');
    assert command + "" == command;
  }

  /** Two spaces after the command make the second word empty, so whatever follows is not seen. */
  lemma DoubledSpaceRejected(command: string, rest: string)
    requires ' ' !in command
    ensures RpsArgument(command + "  " + rest) == None
  {
    ArgumentIsSecondWord(command, "", " " + rest);
    assert command + " " + "" + (" " + rest) == command + "  " + rest;
  }

  /** What a round started by a command produced. */
  datatype Reply = Usage | Answered(round: Round, stats: Record)

  /**
    The `!rps` branch of the message handler (bot.js lines 161-172): a
    rejected argument gets the usage text and leaves the ledger as it was;
    an accepted one plays the lower-cased name and records the outcome.
  */
  method RpsMessage(ledger: Ledger, content: string, id: string, username: string, draw: Draw)
    returns (reply: Reply)
    modifies ledger
    ensures RpsArgument(content) == None ==> reply == Usage && ledger.users == old(ledger.users)
    ensures RpsArgument(content).Some? ==>
      && reply.Answered?
      && reply.round == PlayRPS(Name(RpsArgument(content).value), draw)
      && ledger.users == AfterUpdate(old(ledger.users), id, username, reply.round.result)
      && reply.stats == ledger.users[id]
  {
    var args := Split(content, ' ');
    var userChoice := if |args| >= 2 then Some(LowerCase(args[1])) else None;
    if userChoice == None || userChoice.value == "" || userChoice.value !in CHOICES {
      return Usage;
    }
    var round := PlayRPS(userChoice.value, draw);
    var stats := ledger.UpdateUserStats(id, username, round.result);
    reply := Answered(round, stats);
  }

  /**
    The `/rps` branch of the interaction handler (bot.js lines 113-118):
    the option goes to the game unchecked, so a value outside the three
    names is played, and lost. The command's registration (bot.js line 59)
    restricts the option to the three names, so while the platform enforces
    that list this case does not arise.
  */
  method RpsInteraction(ledger: Ledger, option: string, id: string, username: string, draw: Draw)
    returns (round: Round, stats: Record)
    modifies ledger
    ensures round == PlayRPS(option, draw)
    ensures option !in CHOICES ==> round.result == Loss
    ensures ledger.users == AfterUpdate(old(ledger.users), id, username, round.result)
    ensures stats == ledger.users[id]
  {
    round := PlayRPS(option, draw);
    if option !in CHOICES {
      UnknownChoiceLoses(option, draw);
    }
    stats := ledger.UpdateUserStats(id, username, round.result);
  }
}
