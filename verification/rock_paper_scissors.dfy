/**
 * The RockPaperScissors escrow contract, as pure transition functions on the
 * whole contract-and-accounts state (a `Ledger`). Each external call is a
 * function from the state before the call to a `Tx`: the call's result and the
 * state after it. A reverted call returns its error and the state unchanged.
 *
 * Amounts are plain wei (`nat`); gas is outside the model. Addresses are
 * naturals and address 0 is Solidity's `address(0)`, the "no winner" sentinel.
 */
module RockPaperScissors {
  import opened Wrappers

  type Addr = nat
  type Wei = nat

  const ZERO_ADDRESS: Addr := 0

  /** A move slot of a game; `NoMove` means not submitted yet. */
  datatype Move = NoMove | Rock | Paper | Scissors

  /** The ABI encoding of a move: Rock = 1, Paper = 2, Scissors = 3 (Scissors is assumed). */
  function Code(m: Move): nat
  {
    match m
    case NoMove => 0
    case Rock => 1
    case Paper => 2
    case Scissors => 3
  }

  /** Decodes the move argument of `makeMove`; anything but 1, 2, 3 is rejected. */
  function DecodeMove(code: int): (m: Option<Move>)
    ensures m.Some? <==> 1 <= code <= 3
    ensures m.Some? ==> m.value != NoMove && Code(m.value) == code
  {
    if code == 1 then Some(Rock)
    else if code == 2 then Some(Paper)
    else if code == 3 then Some(Scissors)
    else None
  }

  /** The rule cycle: Paper beats Rock, Rock beats Scissors, Scissors beats Paper. */
  predicate Beats(a: Move, b: Move)
  {
    || (a == Paper && b == Rock)
    || (a == Rock && b == Scissors)
    || (a == Scissors && b == Paper)
  }

  datatype Verdict = CreatorWins | ParticipantWins | Draw

  /**
   * The outcome of the creator's move `m1` against the participant's move `m2`,
   * computed on the move codes modulo 3; it agrees with the rule cycle.
   */
  function Outcome(m1: Move, m2: Move): (v: Verdict)
    requires m1 != NoMove && m2 != NoMove
    ensures v == Draw <==> m1 == m2
    ensures v == CreatorWins <==> Beats(m1, m2)
    ensures v == ParticipantWins <==> Beats(m2, m1)
  {
    if m1 == m2 then Draw
    else if (Code(m1) - Code(m2)) % 3 == 1 then CreatorWins
    else ParticipantWins
  }

  datatype Status = Open | Active | Resolved

  /**
   * One game. The participant is the invitee once the game is joined;
   * `deposit` is what the participant paid to join, `pot` what is still held
   * in escrow for this game.
   */
  datatype Game = Game(
    creator: Addr,
    invitee: Addr,
    stake: Wei,
    deposit: Wei,
    creatorMove: Move,
    participantMove: Move,
    winner: Addr,
    pot: Wei,
    status: Status)

  /** The `GameComplete` event, emitted when a game is resolved. */
  datatype Event = GameComplete(gameId: nat, winner: Addr)

  datatype Error =
    | InsufficientFunds   // the sender cannot pay the value attached to the call
    | NotFound            // no game has this id
    | InvalidState        // the game is not in the status the call needs
    | Unauthorized        // the sender is not the invitee / not a party to the game
    | InsufficientStake   // "Bet amount must be greater than the original bet"
    | InvalidMove         // the move code is not 1, 2 or 3
    | DuplicateMove       // the sender already moved in this game

  datatype Result<T> = Success(value: T) | Failure(error: Error)

  /**
   * Everything a call can read or change: the contract's `games` mapping and
   * its id counter, the wei balance of every external account, the wei the
   * contract itself holds, and the event log.
   */
  datatype Ledger = Ledger(
    games: map<nat, Game>,
    nextId: nat,
    balances: map<Addr, Wei>,
    held: int,
    log: seq<Event>)

  /** The outcome of one transaction: what the call returned and the state after it. */
  datatype Tx<T> = Tx(result: Result<T>, post: Ledger)

  /** A freshly deployed contract, with the given account balances. */
  function Deployed(accounts: map<Addr, Wei>): Ledger
  {
    Ledger(map[], 0, accounts, 0, [])
  }

  function BalanceOf(balances: map<Addr, Wei>, a: Addr): Wei
  {
    if a in balances then balances[a] else 0
  }

  function Credit(balances: map<Addr, Wei>, a: Addr, amount: Wei): map<Addr, Wei>
  {
    balances[a := BalanceOf(balances, a) + amount]
  }

  function Debit(balances: map<Addr, Wei>, a: Addr, amount: Wei): map<Addr, Wei>
    requires amount <= BalanceOf(balances, a)
  {
    balances[a := BalanceOf(balances, a) - amount]
  }

  /** `createGame(invitee)` sent by `sender` with `value` wei attached. */
  function CreateGame(s: Ledger, sender: Addr, invitee: Addr, value: Wei): (t: Tx<nat>)
    ensures t.result.Failure? ==> t.post == s
    ensures t.result.Success? ==>
      && t.result.value == s.nextId && t.post.nextId == s.nextId + 1
      && t.post.held == s.held + value && t.post.log == s.log
  {
    if BalanceOf(s.balances, sender) < value then Tx(Failure(InsufficientFunds), s)
    else
      var g := Game(sender, invitee, value, 0, NoMove, NoMove, ZERO_ADDRESS, value, Open);
      Tx(Success(s.nextId),
         s.(games := s.games[s.nextId := g],
            nextId := s.nextId + 1,
            balances := Debit(s.balances, sender, value),
            held := s.held + value))
  }

  /** `joinGame(id)` sent by `sender` with `value` wei attached. */
  function JoinGame(s: Ledger, sender: Addr, id: nat, value: Wei): (t: Tx<()>)
    ensures t.result.Failure? ==> t.post == s
    ensures t.post.nextId == s.nextId && t.post.log == s.log && t.post.games.Keys == s.games.Keys
    ensures t.result.Success? ==> id in s.games && t.post.held == s.held + value
  {
    if BalanceOf(s.balances, sender) < value then Tx(Failure(InsufficientFunds), s)
    else if id !in s.games then Tx(Failure(NotFound), s)
    else
      var g := s.games[id];
      if g.status != Open then Tx(Failure(InvalidState), s)
      else if sender != g.invitee then Tx(Failure(Unauthorized), s)
      else if value < g.stake then Tx(Failure(InsufficientStake), s)
      else
        Tx(Success(()),
           s.(games := s.games[id := g.(deposit := value, pot := g.pot + value, status := Active)],
              balances := Debit(s.balances, sender, value),
              held := s.held + value))
  }

  /** The party a verdict names, or address 0 on a draw. */
  function VerdictWinner(v: Verdict, creator: Addr, participant: Addr): Addr
  {
    match v
    case CreatorWins => creator
    case ParticipantWins => participant
    case Draw => ZERO_ADDRESS
  }

  /** The party the outcome of game `g` names: the creator, the participant, or address 0 on a draw. */
  function WinnerOf(g: Game): Addr
    requires g.creatorMove != NoMove && g.participantMove != NoMove
  {
    VerdictWinner(Outcome(g.creatorMove, g.participantMove), g.creator, g.invitee)
  }

  /**
   * Resolution of game `id`, whose moves are both in `g`: the winner is paid
   * the whole pot, a draw refunds each party's own payment; the game is
   * stored as resolved with an empty pot and `GameComplete` is emitted.
   */
  function Settle(s: Ledger, id: nat, g: Game): (r: Ledger)
    requires g.creatorMove != NoMove && g.participantMove != NoMove
    ensures r.nextId == s.nextId && r.games.Keys == s.games.Keys + {id}
    ensures r.games[id].status == Resolved && r.games[id].pot == 0 && r.games[id].winner == WinnerOf(g)
    ensures r.log == s.log + [GameComplete(id, r.games[id].winner)]
  {
    var w := WinnerOf(g);
    var draw := Outcome(g.creatorMove, g.participantMove) == Draw;
    var paid :=
      if draw then Credit(Credit(s.balances, g.creator, g.stake), g.invitee, g.deposit)
      else Credit(s.balances, w, g.pot);
    s.(games := s.games[id := g.(winner := w, pot := 0, status := Resolved)],
       balances := paid,
       held := s.held - (if draw then g.stake + g.deposit else g.pot),
       log := s.log + [GameComplete(id, w)])
  }

  /** `makeMove(id, code)` sent by `sender`; the second move resolves the game. */
  function MakeMove(s: Ledger, sender: Addr, id: nat, code: int): (t: Tx<()>)
    ensures t.result.Failure? ==> t.post == s
    ensures t.post.nextId == s.nextId && t.post.games.Keys == s.games.Keys
    ensures t.result.Success? ==> id in s.games && s.games[id].status == Active && DecodeMove(code).Some?
  {
    if id !in s.games then Tx(Failure(NotFound), s)
    else if DecodeMove(code).None? then Tx(Failure(InvalidMove), s)
    else
      var g := s.games[id];
      var m := DecodeMove(code).value;
      if g.status != Active then Tx(Failure(InvalidState), s)
      else if sender != g.creator && sender != g.invitee then Tx(Failure(Unauthorized), s)
      else if sender == g.creator && g.creatorMove != NoMove then Tx(Failure(DuplicateMove), s)
      else if sender != g.creator && g.participantMove != NoMove then Tx(Failure(DuplicateMove), s)
      else
        var g' := if sender == g.creator then g.(creatorMove := m) else g.(participantMove := m);
        if g'.creatorMove == NoMove || g'.participantMove == NoMove
        then Tx(Success(()), s.(games := s.games[id := g']))
        else Tx(Success(()), Settle(s, id, g'))
  }

  /** The `games(id)` getter. */
  function GetGame(s: Ledger, id: nat): (r: Result<Game>)
    ensures r.Success? <==> id in s.games
    ensures r.Success? ==> r.value == s.games[id]
    ensures r.Failure? ==> r.error == NotFound
  {
    if id in s.games then Success(s.games[id]) else Failure(NotFound)
  }

  /**
   * A whole game as the tests play it, one transaction after the other:
   * create, join, the creator's move, the participant's move. The first call
   * that fails stops the sequence; earlier calls stay committed.
   */
  function PlayGame(s: Ledger, creator: Addr, participant: Addr, stake: Wei, deposit: Wei,
                    creatorCode: int, participantCode: int): (t: Tx<nat>)
    ensures t.result.Success? ==> t.result.value == s.nextId && t.post.nextId == s.nextId + 1
    ensures BalanceOf(s.balances, creator) < stake ==> t == Tx(Failure(InsufficientFunds), s)
  {
    var t1 := CreateGame(s, creator, participant, stake);
    if t1.result.Failure? then t1
    else
      var id := t1.result.value;
      var t2 := JoinGame(t1.post, participant, id, deposit);
      if t2.result.Failure? then Tx(Failure(t2.result.error), t2.post)
      else
        var t3 := MakeMove(t2.post, creator, id, creatorCode);
        if t3.result.Failure? then Tx(Failure(t3.result.error), t3.post)
        else
          var t4 := MakeMove(t3.post, participant, id, participantCode);
          if t4.result.Failure? then Tx(Failure(t4.result.error), t4.post)
          else Tx(Success(id), t4.post)
  }
}
