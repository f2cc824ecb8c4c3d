/** The game rules of the client: whether a played card busts, whether the
    game is won, and which of the person's cards is highlighted next. */
module Rules {
  import opened Cards

  /** The runtime errors the rules can hit; each one aborts the client. */
  datatype PanicReason =
    | IndexOutOfBounds      // `cards[i]` with `i >= len`
    | SliceStartOutOfRange  // `cards[i..]` with `i > len`

  datatype Checked<T> = Ok(value: T) | Panic(reason: PanicReason)

  /** The hand a play is judged against: the other side's. */
  function OpponentHand(g: Game, who: Who): Hand
  {
    match who
    case Computer => g.player
    case Person => g.computer
  }

  /** Some card of `h` at or after its cursor has a smaller number than `card`. */
  ghost predicate SmallerCardRemains(h: Hand, card: Card)
  {
    exists i :: h.lastIndexPlayed <= i < |h.cards| && h.cards[i].number < card.number
  }

  /** What `check_bust` answers for `card` played by `who`: a bust exactly when
      the opponent still holds a smaller card; a panic when the opponent's
      cursor lies past the end of its hand. */
  ghost function Bust(g: Game, card: Card, who: Who): Checked<bool>
  {
    var h := OpponentHand(g, who);
    if h.lastIndexPlayed <= |h.cards| then Ok(SmallerCardRemains(h, card))
    else Panic(SliceStartOutOfRange)
  }

  /** `check_bust`: scan the opponent's unplayed cards for a smaller one. The
      game is taken by value, so neither hand nor cursor can change. */
  method CheckBust(game: Game, card: Card, who: Who) returns (r: Checked<bool>)
    ensures r == Bust(game, card, who)
  {
    var hand := OpponentHand(game, who);
    if hand.lastIndexPlayed > |hand.cards| {
      return Panic(SliceStartOutOfRange);
    }
    var start := hand.lastIndexPlayed;
    var notPlayed := hand.cards[start..];
    var lost := false;
    for k := 0 to |notPlayed|
      invariant lost <==> exists j :: 0 <= j < k && notPlayed[j].number < card.number
    {
      if card.number > notPlayed[k].number {
        lost := true;
      }
    }
    if lost {
      var j :| 0 <= j < |notPlayed| && notPlayed[j].number < card.number;
      assert hand.cards[start + j] == notPlayed[j];
    }
    if SmallerCardRemains(hand, card) {
      var i :| start <= i < |hand.cards| && hand.cards[i].number < card.number;
      assert notPlayed[i - start] == hand.cards[i];
    }
    r := Ok(lost);
  }

  /** The smallest number among some cards. */
  function MinNumber(s: seq<Card>): u8
    requires s != []
  {
    if |s| == 1 then s[0].number
    else
      var rest := MinNumber(s[1..]);
      if s[0].number <= rest then s[0].number else rest
  }

  lemma {:induction false} MinNumberIsLeast(s: seq<Card>)
    requires s != []
    ensures forall k :: 0 <= k < |s| ==> MinNumber(s) <= s[k].number
    ensures exists k :: 0 <= k < |s| && s[k].number == MinNumber(s)
  {
    if |s| > 1 {
      MinNumberIsLeast(s[1..]);
      var k :| 0 <= k < |s[1..]| && s[1..][k].number == MinNumber(s[1..]);
      assert s[k + 1].number == MinNumber(s[1..]);
      if s[0].number <= MinNumber(s[1..]) {
        assert s[0].number == MinNumber(s);
      } else {
        assert s[k + 1].number == MinNumber(s);
      }
      forall j | 0 <= j < |s| ensures MinNumber(s) <= s[j].number {
        if j > 0 { assert s[j] == s[1..][j - 1]; }
      }
    } else {
      assert s[0].number == MinNumber(s);
    }
  }

  /** A play busts exactly when its number is above the smallest number the
      opponent has left; with nothing left, it never busts. */
  lemma BustIffAboveMinimum(g: Game, card: Card, who: Who)
    ensures var h := OpponentHand(g, who);
      h.lastIndexPlayed <= |h.cards| ==>
        Bust(g, card, who) ==
          Ok(h.lastIndexPlayed < |h.cards| && MinNumber(h.cards[h.lastIndexPlayed..]) < card.number)
  {
    var h := OpponentHand(g, who);
    if h.lastIndexPlayed < |h.cards| {
      var rest := h.cards[h.lastIndexPlayed..];
      MinNumberIsLeast(rest);
      if SmallerCardRemains(h, card) {
        var i :| h.lastIndexPlayed <= i < |h.cards| && h.cards[i].number < card.number;
        assert rest[i - h.lastIndexPlayed] == h.cards[i];
      }
      if MinNumber(rest) < card.number {
        var k :| 0 <= k < |rest| && rest[k].number == MinNumber(rest);
        assert h.cards[h.lastIndexPlayed + k] == rest[k];
      }
    }
  }

  /** A person's play is judged only against the computer's hand: the person's
      own remaining cards never matter. */
  lemma PersonBustIgnoresOwnHand(g: Game, mine: Hand, card: Card)
    ensures Bust(g.(player := mine), card, Person) == Bust(g, card, Person)
  {
  }

  /** A computer's play is judged only against the person's hand. */
  lemma ComputerBustIgnoresOwnHand(g: Game, theirs: Hand, card: Card)
    ensures Bust(g.(computer := theirs), card, Computer) == Bust(g, card, Computer)
  {
  }

  /** `check_win`: one hand has been played out and the other is on its last
      card. It reads the cursors before the mover's cursor is advanced, and
      `len() - 1` wraps when a hand is empty. */
  function CheckWin(g: Game): (r: bool)
    ensures g.player.lastIndexPlayed != USIZE_MAX && g.computer.lastIndexPlayed != USIZE_MAX ==>
      (r <==> (Exhausted(g.computer) && OnLastCard(g.player)) || (OnLastCard(g.computer) && Exhausted(g.player)))
  {
    (g.computer.lastIndexPlayed == |g.computer.cards| && g.player.lastIndexPlayed == WrappingSub(|g.player.cards|, 1))
    || (g.computer.lastIndexPlayed == WrappingSub(|g.computer.cards|, 1) && g.player.lastIndexPlayed == |g.player.cards|)
  }

  /** The index of the person's card to highlight after the current one. */
  function NextCardIndex(h: Hand): (r: Option<usize>)
    ensures r.Some? ==> r.value < |h.cards|
    ensures h.lastIndexPlayed < |h.cards| ==> (r == None <==> OnLastCard(h))
    ensures h.lastIndexPlayed < |h.cards| && r.Some? ==> r.value == h.lastIndexPlayed + 1
  {
    var next := WrappingAdd(h.lastIndexPlayed, 1);
    if next < |h.cards| then Some(next) else None
  }
}
