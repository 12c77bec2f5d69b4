/**
 * The RockPaperScissors contract as an object whose storage the calls update
 * in place: the `games` mapping, the id counter, the wei of the accounts and
 * of the contract, and the event log. Each method does what the transition
 * function of the same name in `RockPaperScissors` says, keeps the invariant
 * `Inv` and conserves wei.
 */
module RockPaperScissorsContract {
  import opened RockPaperScissors
  import opened RockPaperScissorsProofs

  class Contract {
    var games: map<nat, Game>
    var nextId: nat
    var balances: map<Addr, Wei>
    var held: int
    var log: seq<Event>

    /** The whole state, as the transition functions see it. */
    function State(): Ledger
      reads this
    {
      Ledger(games, nextId, balances, held, log)
    }

    ghost predicate Valid()
      reads this
    {
      Inv(State())
    }

    /** Deployment: no games yet, the accounts hold `accounts`. */
    constructor (accounts: map<Addr, Wei>)
      ensures Valid() && State() == Deployed(accounts)
    {
      games := map[];
      nextId := 0;
      balances := accounts;
      held := 0;
      log := [];
      new;
      DeployedInv(accounts);
    }

    /** What `ethers.provider.getBalance(a)` reads. */
    function BalanceOf(a: Addr): Wei
      reads this
    {
      RockPaperScissors.BalanceOf(balances, a)
    }

    /** The `games(id)` getter. */
    function Games(id: nat): (r: Result<Game>)
      reads this
      requires Valid()
      ensures r.Success? <==> id < nextId
      ensures r.Success? ==> r.value == games[id] && WellFormed(r.value)
      ensures r.Failure? ==> r.error == NotFound
    {
      GetGame(State(), id)
    }

    method CreateGame(sender: Addr, invitee: Addr, value: Wei) returns (r: Result<nat>)
      requires Valid() && sender != ZERO_ADDRESS
      modifies this
      ensures Valid() && Funds(State()) == old(Funds(State()))
      ensures var t := RockPaperScissors.CreateGame(old(State()), sender, invitee, value);
        r == t.result && State() == t.post
    {
      CreateGameSafe(State(), sender, invitee, value);
      r := ExecuteCreateGame(sender, invitee, value);
    }

    method JoinGame(sender: Addr, id: nat, value: Wei) returns (r: Result<()>)
      requires Valid() && sender != ZERO_ADDRESS
      modifies this
      ensures Valid() && Funds(State()) == old(Funds(State()))
      ensures var t := RockPaperScissors.JoinGame(old(State()), sender, id, value);
        r == t.result && State() == t.post
    {
      JoinGameSafe(State(), sender, id, value);
      r := ExecuteJoinGame(sender, id, value);
    }

    method MakeMove(sender: Addr, id: nat, code: int) returns (r: Result<()>)
      requires Valid() && sender != ZERO_ADDRESS
      modifies this
      ensures Valid() && Funds(State()) == old(Funds(State()))
      ensures var t := RockPaperScissors.MakeMove(old(State()), sender, id, code);
        r == t.result && State() == t.post
    {
      MakeMoveSafe(State(), sender, id, code);
      r := ExecuteMakeMove(sender, id, code);
    }

    // The bodies of the three calls: checks, reverts and storage updates.

    method ExecuteCreateGame(sender: Addr, invitee: Addr, value: Wei) returns (r: Result<nat>)
      modifies this
      ensures var t := RockPaperScissors.CreateGame(old(State()), sender, invitee, value);
        r == t.result && State() == t.post
    {
      var available := BalanceOf(sender);
      if available < value {
        return Failure(InsufficientFunds);
      }
      balances := balances[sender := available - value];
      held := held + value;
      games := games[nextId := Game(sender, invitee, value, 0, NoMove, NoMove, ZERO_ADDRESS, value, Open)];
      r := Success(nextId);
      nextId := nextId + 1;
    }

    method ExecuteJoinGame(sender: Addr, id: nat, value: Wei) returns (r: Result<()>)
      modifies this
      ensures var t := RockPaperScissors.JoinGame(old(State()), sender, id, value);
        r == t.result && State() == t.post
    {
      var available := BalanceOf(sender);
      if available < value {
        return Failure(InsufficientFunds);
      }
      if id !in games {
        return Failure(NotFound);
      }
      var g := games[id];
      if g.status != Open {
        return Failure(InvalidState);
      }
      if sender != g.invitee {
        return Failure(Unauthorized);
      }
      if value < g.stake {
        return Failure(InsufficientStake);
      }
      balances := balances[sender := available - value];
      held := held + value;
      games := games[id := g.(deposit := value, pot := g.pot + value, status := Active)];
      r := Success(());
    }

    method ExecuteMakeMove(sender: Addr, id: nat, code: int) returns (r: Result<()>)
      modifies this
      ensures var t := RockPaperScissors.MakeMove(old(State()), sender, id, code);
        r == t.result && State() == t.post
    {
      if id !in games {
        return Failure(NotFound);
      }
      var move := DecodeMove(code);
      if move.None? {
        return Failure(InvalidMove);
      }
      var g := games[id];
      if g.status != Active {
        return Failure(InvalidState);
      }
      if sender != g.creator && sender != g.invitee {
        return Failure(Unauthorized);
      }
      if sender == g.creator {
        if g.creatorMove != NoMove {
          return Failure(DuplicateMove);
        }
        g := g.(creatorMove := move.value);
      } else {
        if g.participantMove != NoMove {
          return Failure(DuplicateMove);
        }
        g := g.(participantMove := move.value);
      }
      if g.creatorMove != NoMove && g.participantMove != NoMove {
        Resolve(id, g);
      } else {
        games := games[id := g];
      }
      r := Success(());
    }

    /** Resolves game `id`, whose moves are both in `g`: pays out, stores the winner, emits the event. */
    method Resolve(id: nat, g: Game)
      requires g.creatorMove != NoMove && g.participantMove != NoMove
      modifies this
      ensures State() == Settle(old(State()), id, g)
    {
      var w := WinnerOf(g);
      if Outcome(g.creatorMove, g.participantMove) == Draw {
        Pay(g.creator, g.stake);
        Pay(g.invitee, g.deposit);
      } else {
        Pay(w, g.pot);
      }
      games := games[id := g.(winner := w, pot := 0, status := Resolved)];
      log := log + [GameComplete(id, w)];
    }

    /** Pays `amount` wei out of escrow to account `a`. */
    method Pay(a: Addr, amount: Wei)
      modifies this
      ensures balances == Credit(old(balances), a, amount)
      ensures held == old(held) - amount
      ensures games == old(games) && nextId == old(nextId) && log == old(log)
    {
      balances := balances[a := BalanceOf(a) + amount];
      held := held - amount;
    }
  }

  /** The four transactions of the winner test, sent to a freshly deployed contract. */
  method PlayPaperAgainstRock(rps: Contract, ghost accounts: map<Addr, Wei>, creator: Addr, participant: Addr)
    requires rps.Valid() && rps.State() == Deployed(accounts)
    requires creator != participant && creator != ZERO_ADDRESS && participant != ZERO_ADDRESS
    requires 1000 <= BalanceOf(accounts, creator) && 1000 <= BalanceOf(accounts, participant)
    modifies rps
    ensures rps.Valid() && rps.State() == PlayGame(Deployed(accounts), creator, participant, 1000, 1000, 1, 2).post
  {
    ghost var s0 := Deployed(accounts);
    PlayGameSteps(s0, creator, participant, 1000, 1000, 1, 2);
    var created := rps.CreateGame(creator, participant, 1000);
    var joined := rps.JoinGame(participant, 0, 1000);
    var first := rps.MakeMove(creator, 0, 1);
    var second := rps.MakeMove(participant, 0, 2);
  }

  /**
   * The winner test replayed on the contract object: after Rock (1) against
   * Paper (2) at 1000 wei each, the event and `games(0).winner` name the
   * participant, who is 1000 wei up while the creator is 1000 wei down.
   */
  method PaperCoversRockOnContract(accounts: map<Addr, Wei>, creator: Addr, participant: Addr)
    returns (announced: Addr, stored: Addr, creatorDiff: int, participantDiff: int)
    requires creator != participant && creator != ZERO_ADDRESS && participant != ZERO_ADDRESS
    requires 1000 <= BalanceOf(accounts, creator) && 1000 <= BalanceOf(accounts, participant)
    ensures announced == participant && stored == participant
    ensures participantDiff == 1000 && creatorDiff == -1000
  {
    PaperCoversRock(accounts, creator, participant);
    var rps := new Contract(accounts);
    var creatorStart, participantStart := rps.BalanceOf(creator), rps.BalanceOf(participant);
    PlayPaperAgainstRock(rps, accounts, creator, participant);
    announced := rps.log[|rps.log| - 1].winner;
    var game := rps.Games(0);
    stored := game.value.winner;
    creatorDiff := rps.BalanceOf(creator) - creatorStart;
    participantDiff := rps.BalanceOf(participant) - participantStart;
  }
}
