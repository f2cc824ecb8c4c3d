/** Properties of whole sessions: what the socket is given over any sequence
    of clicks and inbound frames, and worked games. */
module Properties {
  import opened Cards
  import opened Rules
  import opened Client

  /** An event the client reacts to. */
  datatype Event = Click | Inbound(m: Message)

  ghost function Apply(s: SessionState, e: Event): Step
  {
    match e
    case Click => PersonStep(s)
    case Inbound(m) => ReceiveStep(s, m)
  }

  /** The session after handling `events` in order; a panic aborts the client,
      so nothing after it is handled. */
  ghost function Run(s: SessionState, events: seq<Event>): SessionState
    decreases |events|
  {
    if events == [] then s
    else
      var step := Apply(s, events[0]);
      if step.outcome.Panicked? then step.after else Run(step.after, events[1..])
  }

  /** The socket has been given exactly the person's played cards, in hand order. */
  ghost predicate SentIsPlayedPrefix(s: SessionState)
  {
    s.game.player.lastIndexPlayed <= |s.game.player.cards|
    && s.sent == s.game.player.cards[..s.game.player.lastIndexPlayed]
  }

  lemma ApplyKeepsSentPrefix(s: SessionState, e: Event)
    requires SentIsPlayedPrefix(s)
    ensures SentIsPlayedPrefix(Apply(s, e).after)
  {
  }

  /** Over any run, the person's cards leave the client one by one, in hand
      order, each exactly once, and only the person's cards do. */
  lemma {:induction false} RunKeepsSentPrefix(s: SessionState, events: seq<Event>)
    requires SentIsPlayedPrefix(s)
    ensures SentIsPlayedPrefix(Run(s, events))
    decreases |events|
  {
    if events != [] {
      ApplyKeepsSentPrefix(s, events[0]);
      RunKeepsSentPrefix(Apply(s, events[0]).after, events[1..]);
    }
  }

  /** A freshly dealt session whose person cursor starts at 0 satisfies it. */
  lemma DealtSessionSentIsPlayedPrefix(g: Game)
    requires g.player.lastIndexPlayed == 0
    ensures SentIsPlayedPrefix(SessionState(g, false, false, []))
  {
  }

  /** No event reopens a socket that was told to close, and no event changes
      the dealt cards; the connection itself is only made by the start button. */
  lemma {:induction false} RunKeepsDealAndClose(s: SessionState, events: seq<Event>)
    ensures var t := Run(s, events);
      t.game.player.cards == s.game.player.cards && t.game.computer.cards == s.game.computer.cards
      && t.connected == s.connected && (s.closed ==> t.closed)
    decreases |events|
  {
    if events != [] {
      RunKeepsDealAndClose(Apply(s, events[0]).after, events[1..]);
    }
  }

  /** Each handled play moves at most the mover's cursor, by one, and only
      when the play neither busts nor wins. */
  lemma ApplyMovesOneCursor(s: SessionState, e: Event)
    requires s.game.computer.lastIndexPlayed < USIZE_MAX
    ensures var t := Apply(s, e).after;
      var dp := t.game.player.lastIndexPlayed - s.game.player.lastIndexPlayed;
      var dc := t.game.computer.lastIndexPlayed - s.game.computer.lastIndexPlayed;
      (dp == 0 && dc == 0) <==> Apply(s, e).outcome != Continued
    ensures var t := Apply(s, e).after;
      Apply(s, e).outcome == Continued ==>
        if e.Click? then t.game.player.lastIndexPlayed == s.game.player.lastIndexPlayed + 1
                         && t.game.computer == s.game.computer
        else t.game.computer.lastIndexPlayed == s.game.computer.lastIndexPlayed + 1
             && t.game.player == s.game.player
  {
  }

  /** The click handler keeps no record of a finished game: after a bust or a
      win by the person, clicking again gives the same outcome and changes nothing. */
  lemma PersonEndRepeats(s: SessionState)
    requires Terminal(PersonStep(s).outcome)
    ensures PersonStep(PersonStep(s).after) == PersonStep(s)
  {
  }

  function Hand2(a: u8, b: u8): Hand
  {
    Hand([Card(a), Card(b)], 0)
  }

  /** A person's play is judged against the computer's remaining cards only:
      the person's 5 goes out although the person's own unplayed 2 is smaller. */
  lemma PersonIgnoresOwnSmallerCard()
    ensures var s := SessionState(Game(Hand2(5, 2), Hand2(9, 8)), true, false, []);
      s.game.player.cards[1].number < CardAtCursor(s.game.player).number
      && PersonStep(s).outcome == Continued && PersonStep(s).after.sent == [Card(5)]
  {
  }

  /** One card each: the person's 1 goes out, then the computer's 2 ends the game won. */
  lemma OneCardEachIsWon()
    ensures var s0 := SessionState(Game(Hand([Card(1)], 0), Hand([Card(2)], 0)), true, false, []);
      var s1 := Run(s0, [Click]);
      var s2 := Run(s0, [Click, Inbound(BinaryCard(Card(2)))]);
      Apply(s0, Click).outcome == Continued && s1.sent == [Card(1)]
      && Apply(s1, Inbound(BinaryCard(Card(2)))).outcome == Won
      && s2.closed && s2.sent == [Card(1)]
  {
  }

  /** Closing the socket does not stop the click handler: after the computer's
      9 busts against the person's 5, a click still hands the 5 to the closed
      socket and moves the person's cursor. */
  lemma ClickAfterLossStillSends()
    ensures var s0 := SessionState(Game(Hand2(5, 6), Hand([Card(9)], 0)), true, false, []);
      var s1 := ComputerStep(s0, Card(9));
      var s2 := PersonStep(s1.after);
      s1.outcome == Lost && s2.outcome == Continued
      && s2.after.closed && s2.after.sent == [Card(5)] && s2.after.game.player.lastIndexPlayed == 1
  {
  }
}
