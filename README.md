# Card duel client — rule engine model

A Dafny model of the game rules in the browser client of a two-player card duel.
One side is the person at the page. The other is the "computer", whose cards
arrive over a WebSocket.

Each side holds a dealt hand. A hand has a cursor, `last_index_played`, that
points at the next card the side will play.

- **Bust.** A play busts, and the game is lost, when the opponent still holds an
  unplayed card with a strictly smaller number.
- **Win.** The game is won when one hand has been played out and the other is
  on its last card.
- **Click.** The person plays by clicking. The card at the person's cursor is
  judged first. If it neither busts nor wins, it is sent to the peer and the
  cursor moves on.
- **Inbound card.** A card from the peer is judged the same way. If it neither
  busts nor wins, the computer's cursor moves on.
- **End of game.** A bust or a win closes the socket. The mover's cursor does
  not move.

Files:

- `cards.dfy` (module `Cards`): the data model. It has `Card`, `Hand` and `Game`,
  the machine integer types, and wrapping `usize` arithmetic.
- `rules.dfy` (module `Rules`): `check_bust`, `check_win` and the person's
  next-card highlight. It also has a reference definition of a bust through the
  minimum remaining number.
- `client.dfy` (module `Client`): the two handlers as functions on a session
  value (`PersonStep`, `ComputerStep`). It also has the session object
  `FrontEndGame`, whose methods are proved to behave exactly like those functions.
- `properties.dfy` (module `Properties`): runs of clicks and inbound frames,
  invariants kept over any run, and worked games.

Modelling choices:

- **Release arithmetic (an assumption).** The model assumes a wasm32 build in
  the release profile, the usual target for a wasm-bindgen client. Then `usize`
  is 32 bits wide and overflows wrap. Three places could overflow:
  `len() - 1` in `check_win` when a hand is empty (lib.rs line 510), the
  computer's `last_index_played += 1` (line 408), and `last_index_played + 1`
  for the next highlight (line 189). The model wraps all three. In a debug
  build each of them would panic instead. The person's own increment
  (line 255) and the highlight's sum cannot overflow when the person has a card
  to play: the cursor is below the hand's length, and that length is at most
  `isize::MAX`. The model proves this.
- **Panics.** Indexing the person's hand past its end (lib.rs line 191) aborts
  the client. So does slicing a hand from a cursor beyond its end (lines 473
  and 488). These are the outcome `Panicked(reason)`, with the session
  unchanged. A run stops at a panic.
- **Socket and page.** Two ghost fields on the session object stand for the
  socket. `closed` records that `close()` was called. `sent` records every card
  handed to `send_message`, delivered or not. Whether a socket is attached
  (`ws.is_some()`) is the real field `connected`. The page updates become the
  returned `Reveal` value, which holds what `play_card_actions` and
  `computer_played` receive.
- **Checks on a shared reference.** `check_bust` and `check_win` take `&Game`
  (lib.rs lines 462 and 508). The model passes the game by value instead.
  Either way, neither check can change a hand or a cursor.
- **Per-hand rule.** `check_bust` compares a play only against the opponent's
  unplayed cards. The source's own note at lib.rs line 465 says that this lets a
  player play a card higher than the lowest one in their own hand. This model
  follows the code. `Properties.PersonIgnoresOwnSmallerCard` shows such a
  play: the person's 5 goes out although the person still holds a 2.
- **No end state.** The code keeps no record that the game is over. After a
  close, `ws` is still `Some`, so clicks are still handled.
  `Properties.ClickAfterLossStillSends` shows a card sent after a loss.

## Model

| member | source | states |
|---|---|---|
| `Rules.CheckBust` | code/src/lib.rs:462-505 | returns the verdict of `Rules.Bust`: it judges the played card only against the opponent's cards from the opponent's cursor on. It reports a bust exactly when one of them is strictly smaller. It panics when that cursor lies past the end of the hand. |
| `Rules.BustIffAboveMinimum` | code/src/lib.rs:476-484 | a bust happens exactly when the opponent has cards left and the played number is above the smallest of them. With no cards left there is never a bust. |
| `Rules.PersonBustIgnoresOwnHand` | code/src/lib.rs:486-500 | a person's play is judged the same whatever the person's own hand holds. Only the computer's hand matters. |
| `Rules.ComputerBustIgnoresOwnHand` | code/src/lib.rs:471-485 | a computer's play is judged the same whatever the computer's own hand holds. Only the person's hand matters. |
| `Rules.CheckWin` | code/src/lib.rs:508-516 | when neither cursor is `usize::MAX`: true exactly when the computer is played out and the person is on the last card, or the other way round. An empty hand is never on its last card, even though `len() - 1` wraps. |
| `Rules.NextCardIndex` | code/src/lib.rs:189 | a highlighted index is always a real card of the hand. When the person has a card to play, there is no highlight exactly when that card is the last one. Otherwise the highlight is the following index. |
| `Client.PersonStep` | code/src/lib.rs:184-256 | with no socket, nothing happens; with a socket, the click is never ignored. The handler panics, changing nothing, exactly when the person's cursor is past the person's hand or the computer's cursor is past the computer's hand. Otherwise the card at the cursor is shown with its slot and next highlight. The play is lost exactly when that card busts against the computer's hand, even if it would also win. It is won exactly when it does not bust and is the last card of the game. It continues exactly when it neither panics, busts nor wins. A loss or a win closes the socket and changes nothing else. A continued play sends exactly that card, moves the person's cursor by one, and leaves the computer's hand and cursor as they were. |
| `Client.ComputerStep` | code/src/lib.rs:348-409 | the received card is shown at the computer's cursor. The handler panics and changes nothing exactly when the person's cursor lies past the person's hand. Lost exactly when the card busts against the person's hand; won exactly when it does not bust and `check_win` holds; continued exactly when it does not bust and `check_win` fails. A card frame is never ignored. A loss or a win closes the socket if there is one. Otherwise only the computer's cursor moves, by one with wrapping, and nothing is sent. If the computer plays from its own hand, a win is the computer playing the last card while the person is played out. |
| `Client.FrontEndGame.constructor` | code/src/lib.rs:132 | the session holds the dealt game and its identifiers, with no socket and nothing sent. |
| `Client.FrontEndGame.Connect` | code/src/lib.rs:289-290 | attaches a new open socket and changes nothing else. |
| `Client.FrontEndGame.CloseSocket` | code/src/lib.rs:201-203 | marks the socket closed when one is attached; otherwise does nothing. |
| `Client.FrontEndGame.PersonPlay` | code/src/lib.rs:184-262 | the outcome, the shown card and the new session state are exactly those of `Client.PersonStep` on the old state. |
| `Client.FrontEndGame.ReceiveMessage` | code/src/lib.rs:338-418 | a frame that is not binary changes nothing. A card frame produces exactly the outcome, the shown card and the new state of `Client.ComputerStep`. |
| `Properties.ApplyKeepsSentPrefix` | code/src/lib.rs:250-256 | any click or inbound frame keeps this invariant: the cards handed to the socket are exactly the person's hand up to the person's cursor. |
| `Properties.RunKeepsSentPrefix` | code/src/lib.rs:252-255 | over any sequence of clicks and frames, the cards sent are the person's cards in hand order, each once, and nothing else. |
| `Properties.DealtSessionSentIsPlayedPrefix` | code/src/lib.rs:132 | a freshly dealt session with the person's cursor at 0 satisfies that invariant. |
| `Properties.RunKeepsDealAndClose` | code/src/lib.rs:199-203 | no run changes the dealt cards or the presence of a socket, and once a socket has been closed it stays closed. |
| `Properties.ApplyMovesOneCursor` | code/src/lib.rs:223-256 | while the computer's cursor is below `usize::MAX`, an event moves a cursor exactly when it continues the game. When it does, only the mover's cursor moves, and by exactly one. |
| `Properties.PersonEndRepeats` | code/src/lib.rs:197-230 | after the person busts or wins, another click gives the same outcome and leaves the state as it is. |
| `Properties.PersonIgnoresOwnSmallerCard` | code/src/lib.rs:486-500 | with the person holding [5, 2] and the computer [9, 8], the person's 5 continues the game and is sent, although the person's own unplayed 2 is smaller. |
| `Properties.OneCardEachIsWon` | code/src/lib.rs:508-516 | with hands [1] and [2], the person's click sends 1, and the computer's 2 then wins and closes the socket. |
| `Properties.ClickAfterLossStillSends` | code/src/lib.rs:184-256 | after the computer's 9 busts against the person's [5, 6], a click still sends 5 on the closed socket and moves the person's cursor. |

## Left out

- Page rendering (`setup_screen`, `play_card_actions`, `computer_played`, every style, attribute and inner-HTML update): UI side effects with no rule content. What they receive is returned as `Reveal`.
- The deal fetch in `get_cards`: asynchronous HTTP. The session is built from an already decoded game.
- bincode encoding and decoding of the deal and of cards: a foreign library. An inbound frame reaches the model as a decoded card, or as "not binary". A frame that fails to decode panics in the code through `unwrap`; this is not modelled.
- `connect_ws`, handler registration and the transport inside `send_message`: browser APIs. Connecting is only the `connected` flag. A second click on start replaces the socket without closing the first one; the model does not track the old socket.
- The global `Mutex<Option<FrontEndGame>>` and the `unsafe impl Send/Sync`: runtime plumbing. The session is one object passed explicitly. The "no game yet" branches of both handlers are not modelled.
- `Event`, `Guesses`, `level` and console logging: unused by the rules.
- The panics from `expect` on page lookups and from `ws.close()`: the page is not modelled, and `close()` with no code does not fail.
- Rules.CheckWin: its contract says nothing when a cursor is `usize::MAX`; the body gives the wrapped comparison there.
- Client.ComputerStep: the computer's cursor wraps to 0 after `usize::MAX`. The contract states the increment by one only while the computer has cards left.
- Debug builds: the overflow panics of a debug build are not modelled; the model assumes release wrapping throughout.
- Behaviour after a panic: in the code the client is aborted. A run stops there.
