/** Machine integers and the dealt-game data of the card duel client.

    This model assumes the client is built for wasm32 in the release profile:
    `usize` is 32 bits wide and `+` / `-` on it wrap around. In a debug build
    the same overflows would panic instead. */
module Cards {

  const USIZE_LIMIT: int := 0x1_0000_0000
  const USIZE_MAX: int := USIZE_LIMIT - 1
  /** A `Vec` of one-byte elements never holds more than `isize::MAX` of them. */
  const ISIZE_MAX: int := 0x7FFF_FFFF

  type u8 = x: int | 0 <= x < 0x100
  type u64 = x: int | 0 <= x < 0x1_0000_0000_0000_0000
  type u128 = x: int | 0 <= x < 0x1_0000_0000_0000_0000_0000_0000_0000_0000
  type usize = x: int | 0 <= x < USIZE_LIMIT

  /** `a + b` on `usize` with overflow checks off. */
  function WrappingAdd(a: usize, b: usize): usize
  {
    (a + b) % USIZE_LIMIT
  }

  /** `a - b` on `usize` with overflow checks off. */
  function WrappingSub(a: usize, b: usize): usize
  {
    (a - b) % USIZE_LIMIT
  }

  datatype Option<T> = None | Some(value: T)

  /** A card carries only its number. */
  datatype Card = Card(number: u8)

  /** The contents of a `Vec<Card>`. */
  type CardVec = s: seq<Card> | |s| <= ISIZE_MAX

  /** A dealt hand: the cards in play order and the index of the next one to
      play (every card before it has been played). */
  datatype Hand = Hand(cards: CardVec, lastIndexPlayed: usize)

  /** The two hands of a game (the unused `level` and `guesses` are left out). */
  datatype Game = Game(player: Hand, computer: Hand)

  /** Who made the play being judged. */
  datatype Who = Computer | Person

  /** Every card of the hand has been played. */
  predicate Exhausted(h: Hand)
  {
    h.lastIndexPlayed == |h.cards|
  }

  /** Exactly one card of the hand is still to be played. */
  predicate OnLastCard(h: Hand)
  {
    h.lastIndexPlayed + 1 == |h.cards|
  }
}
