/** The play step of the client: the person's click on "play card" and the
    arrival of the computer's card over the socket, first as functions on a
    session value and then as the methods of the session object. */
module Client {
  import opened Cards
  import opened Rules

  /** What a session consists of, as far as the rules see it: the game, whether
      a socket is attached (`ws.is_some()`), whether that socket has been told
      to close, and every card handed to a socket for sending so far. */
  datatype SessionState = SessionState(game: Game, connected: bool, closed: bool, sent: seq<Card>)

  /** What a handler reports upward; `Lost` and `Won` select the end screens. */
  datatype PlayOutcome =
    | Ignored                        // no socket, or an inbound frame that is not binary
    | Panicked(reason: PanicReason)  // the handler aborted the client
    | Lost
    | Won
    | Continued

  /** What the handler hands to the page for display: the played card's slot
      and number, and for the person the slot to highlight next. */
  datatype Reveal =
    | PersonReveal(index: usize, number: u8, next: Option<usize>)
    | ComputerReveal(index: usize, number: u8)

  datatype Step = Step(outcome: PlayOutcome, shown: Option<Reveal>, after: SessionState)

  /** An inbound socket frame: an array buffer holding an encoded card, or anything else. */
  datatype Message = BinaryCard(card: Card) | NotBinary

  predicate Terminal(o: PlayOutcome)
  {
    o == Lost || o == Won
  }

  /** `if let Some(ws) = &game.ws { ws.close() }`: closing without a socket does nothing. */
  function CloseIfConnected(s: SessionState): SessionState
  {
    if s.connected then s.(closed := true) else s
  }

  predicate HasCardToPlay(h: Hand)
  {
    h.lastIndexPlayed < |h.cards|
  }

  function CardAtCursor(h: Hand): Card
    requires HasCardToPlay(h)
  {
    h.cards[h.lastIndexPlayed]
  }

  /** The person's cursor moves past the card just played; it is below the
      hand's length, so the increment cannot wrap, and the cursor never leaves
      the hand. */
  function Advance(h: Hand): (r: Hand)
    requires HasCardToPlay(h)
    ensures r.lastIndexPlayed <= |r.cards|
  {
    h.(lastIndexPlayed := h.lastIndexPlayed + 1)
  }

  /** The click handler, on a session value. */
  ghost function PersonStep(s: SessionState): (r: Step)
    ensures !s.connected ==> r == Step(Ignored, None, s)
    ensures s.connected && !HasCardToPlay(s.game.player) ==> r == Step(Panicked(IndexOutOfBounds), None, s)
    ensures s.connected && HasCardToPlay(s.game.player) ==>
      r.shown == Some(PersonReveal(s.game.player.lastIndexPlayed, CardAtCursor(s.game.player).number,
                                    NextCardIndex(s.game.player)))
    // bust is decided first and wins over a win
    ensures r.outcome == Lost <==>
      s.connected && HasCardToPlay(s.game.player) && Bust(s.game, CardAtCursor(s.game.player), Person) == Ok(true)
    // a win is the person playing the last card of the game
    ensures r.outcome == Won <==>
      s.connected && HasCardToPlay(s.game.player) && Bust(s.game, CardAtCursor(s.game.player), Person) == Ok(false)
      && Exhausted(s.game.computer) && OnLastCard(s.game.player)
    ensures r.outcome.Panicked? <==>
      s.connected && (!HasCardToPlay(s.game.player) || s.game.computer.lastIndexPlayed > |s.game.computer.cards|)
    // every other connected play moves the game on
    ensures r.outcome == Continued <==>
      s.connected && HasCardToPlay(s.game.player) && Bust(s.game, CardAtCursor(s.game.player), Person) == Ok(false)
      && !(Exhausted(s.game.computer) && OnLastCard(s.game.player))
    ensures s.connected ==> r.outcome != Ignored
    ensures r.outcome.Panicked? ==> r.after == s
    ensures Terminal(r.outcome) ==> r.after == s.(closed := true)
    ensures r.outcome == Continued ==>
      HasCardToPlay(s.game.player) &&
      r.after == s.(game := s.game.(player := Advance(s.game.player)), sent := s.sent + [CardAtCursor(s.game.player)])
  {
    if !s.connected then Step(Ignored, None, s)
    else if !HasCardToPlay(s.game.player) then Step(Panicked(IndexOutOfBounds), None, s)
    else
      var h := s.game.player;
      var card := CardAtCursor(h);
      var shown := Some(PersonReveal(h.lastIndexPlayed, card.number, NextCardIndex(h)));
      match Bust(s.game, card, Person)
      case Panic(reason) => Step(Panicked(reason), shown, s)
      case Ok(bust) =>
        if bust then Step(Lost, shown, CloseIfConnected(s))
        else if CheckWin(s.game) then Step(Won, shown, CloseIfConnected(s))
        else Step(Continued, shown, s.(game := s.game.(player := Advance(h)), sent := s.sent + [card]))
  }

  /** The handler for a card the computer played, on a session value. The card
      comes from the peer and is not compared with the computer's own hand. */
  ghost function ComputerStep(s: SessionState, card: Card): (r: Step)
    ensures r.shown == Some(ComputerReveal(s.game.computer.lastIndexPlayed, card.number))
    ensures r.outcome.Panicked? <==> s.game.player.lastIndexPlayed > |s.game.player.cards|
    ensures r.outcome.Panicked? ==> r.after == s
    // bust is decided first and wins over a win
    ensures r.outcome == Lost <==> Bust(s.game, card, Computer) == Ok(true)
    ensures r.outcome == Won <==> Bust(s.game, card, Computer) == Ok(false) && CheckWin(s.game)
    // every other card moves the game on
    ensures r.outcome == Continued <==> Bust(s.game, card, Computer) == Ok(false) && !CheckWin(s.game)
    ensures r.outcome != Ignored
    ensures Terminal(r.outcome) ==> r.after == CloseIfConnected(s)
    ensures r.outcome == Continued ==>
      r.after == s.(game := s.game.(computer := s.game.computer.(
                      lastIndexPlayed := WrappingAdd(s.game.computer.lastIndexPlayed, 1))))
    // while the computer plays from its own hand, a win is it playing the last card of the game
    ensures HasCardToPlay(s.game.computer) && s.game.player.lastIndexPlayed <= |s.game.player.cards|
            && r.outcome != Lost ==>
      (r.outcome == Won <==> OnLastCard(s.game.computer) && Exhausted(s.game.player))
    ensures HasCardToPlay(s.game.computer) && r.outcome == Continued ==>
      r.after.game.computer.lastIndexPlayed == s.game.computer.lastIndexPlayed + 1
  {
    var h := s.game.computer;
    var shown := Some(ComputerReveal(h.lastIndexPlayed, card.number));
    match Bust(s.game, card, Computer)
    case Panic(reason) => Step(Panicked(reason), shown, s)
    case Ok(bust) =>
      if bust then Step(Lost, shown, CloseIfConnected(s))
      else if CheckWin(s.game) then Step(Won, shown, CloseIfConnected(s))
      else Step(Continued, shown, s.(game := s.game.(computer := h.(lastIndexPlayed := WrappingAdd(h.lastIndexPlayed, 1)))))
  }

  /** The handler for an inbound frame: frames that are not binary are only logged. */
  ghost function ReceiveStep(s: SessionState, m: Message): Step
  {
    match m
    case NotBinary => Step(Ignored, None, s)
    case BinaryCard(card) => ComputerStep(s, card)
  }

  /** The client's session object: the game dealt by the server, its
      identifiers and the socket the plays go over. */
  class FrontEndGame {
    const uuid: u128
    const id: u64
    var game: Game
    var connected: bool
    ghost var closed: bool
    ghost var sent: seq<Card>

    ghost function State(): SessionState
      reads this
    {
      SessionState(game, connected, closed, sent)
    }

    /** The session as built from the server's deal, with no socket yet. */
    constructor (uuid: u128, id: u64, game: Game)
      ensures this.uuid == uuid && this.id == id
      ensures State() == SessionState(game, false, false, [])
    {
      this.uuid := uuid;
      this.id := id;
      this.game := game;
      connected := false;
      closed := false;
      sent := [];
    }

    /** The start button attaches a freshly opened socket. */
    method Connect()
      modifies this
      ensures State() == old(State()).(connected := true, closed := false)
    {
      connected := true;
      closed := false;
    }

    method CloseSocket()
      modifies this`closed
      ensures State() == CloseIfConnected(old(State()))
    {
      if connected {
        closed := true;
      }
    }

    /** The click handler of the "play card" button. */
    method PersonPlay() returns (outcome: PlayOutcome, shown: Option<Reveal>)
      modifies this
      ensures Step(outcome, shown, State()) == PersonStep(old(State()))
    {
      if !connected {
        return Ignored, None;
      }
      var next := NextCardIndex(game.player);
      var index := game.player.lastIndexPlayed;
      if index >= |game.player.cards| {
        return Panicked(IndexOutOfBounds), None;
      }
      var cardPlayed := game.player.cards[index];
      shown := Some(PersonReveal(index, cardPlayed.number, next));
      var bust := CheckBust(game, cardPlayed, Person);
      if bust.Panic? {
        outcome := Panicked(bust.reason);
      } else if bust.value {
        CloseSocket();
        outcome := Lost;
      } else if CheckWin(game) {
        CloseSocket();
        outcome := Won;
      } else {
        sent := sent + [cardPlayed];
        game := game.(player := game.player.(lastIndexPlayed := index + 1));
        outcome := Continued;
      }
    }

    /** The socket's message handler. */
    method ReceiveMessage(m: Message) returns (outcome: PlayOutcome, shown: Option<Reveal>)
      modifies this
      ensures Step(outcome, shown, State()) == ReceiveStep(old(State()), m)
    {
      if m.NotBinary? {
        return Ignored, None;
      }
      var card := m.card;
      var index := game.computer.lastIndexPlayed;
      shown := Some(ComputerReveal(index, card.number));
      var bust := CheckBust(game, card, Computer);
      if bust.Panic? {
        outcome := Panicked(bust.reason);
      } else if bust.value {
        CloseSocket();
        outcome := Lost;
      } else if CheckWin(game) {
        CloseSocket();
        outcome := Won;
      } else {
        game := game.(computer := game.computer.(lastIndexPlayed := WrappingAdd(index, 1)));
        outcome := Continued;
      }
    }
  }
}
