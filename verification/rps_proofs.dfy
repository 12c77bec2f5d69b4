/**
 * What the RockPaperScissors contract guarantees: the state invariant every
 * call keeps (ids 0 .. nextId-1, well-formed games, the contract holds exactly
 * the unresolved pots, one event per resolved game), conservation of wei,
 * and the payouts of a whole game.
 */
module RockPaperScissorsProofs {
  import opened RockPaperScissors

  // ---------------------------------------------------------------------------
  // Sums of money

  ghost function Pick(m: map<Addr, Wei>): (a: Addr)
    requires m != map[]
    ensures a in m
  {
    var a :| a in m; a
  }

  /** The total wei held by all external accounts. */
  ghost function Total(m: map<Addr, Wei>): int
    decreases |m|
  {
    if m == map[] then 0
    else
      var a := Pick(m);
      assert |m - {a}| < |m| by { assert (m - {a}).Keys == m.Keys - {a}; }
      m[a] + Total(m - {a})
  }

  /** Removing any one account takes exactly its balance off the total. */
  lemma {:induction false} TotalRemove(m: map<Addr, Wei>, a: Addr)
    requires a in m
    ensures Total(m) == m[a] + Total(m - {a})
    decreases |m|
  {
    var b := Pick(m);
    if b != a {
      assert (m - {b}).Keys == m.Keys - {b};
      TotalRemove(m - {b}, a);
      assert (m - {a}).Keys == m.Keys - {a};
      TotalRemove(m - {a}, b);
      assert m - {b} - {a} == m - {a} - {b};
    }
  }

  /** Setting one account's balance changes the total by the difference. */
  lemma TotalUpdate(m: map<Addr, Wei>, a: Addr, v: Wei)
    ensures Total(m[a := v]) == Total(m) - BalanceOf(m, a) + v
  {
    TotalRemove(m[a := v], a);
    if a in m {
      TotalRemove(m, a);
      assert m[a := v] - {a} == m - {a};
    } else {
      assert m[a := v] - {a} == m;
    }
  }

  lemma TotalCredit(m: map<Addr, Wei>, a: Addr, amount: Wei)
    ensures Total(Credit(m, a, amount)) == Total(m) + amount
  {
    TotalUpdate(m, a, BalanceOf(m, a) + amount);
  }

  lemma TotalDebit(m: map<Addr, Wei>, a: Addr, amount: Wei)
    requires amount <= BalanceOf(m, a)
    ensures Total(Debit(m, a, amount)) == Total(m) - amount
  {
    TotalUpdate(m, a, BalanceOf(m, a) - amount);
  }

  /** All the wei in the system: the accounts' and the contract's. */
  ghost function Funds(s: Ledger): int
  {
    Total(s.balances) + s.held
  }

  function PotOf(games: map<nat, Game>, id: nat): Wei
  {
    if id in games then games[id].pot else 0
  }

  /** The sum of the pots of games 0 .. n-1. */
  function PotSum(games: map<nat, Game>, n: nat): int
  {
    if n == 0 then 0 else PotSum(games, n - 1) + PotOf(games, n - 1)
  }

  /** Storing a game under id `k` changes the pot sum below `n` by the change of that pot. */
  lemma {:induction false} PotSumStore(games: map<nat, Game>, n: nat, k: nat, g: Game)
    ensures PotSum(games[k := g], n)
         == PotSum(games, n) + (if k < n then g.pot - PotOf(games, k) else 0)
  {
    if n > 0 {
      PotSumStore(games, n - 1, k, g);
    }
  }

  // ---------------------------------------------------------------------------
  // The state invariant

  /** A game's fields agree with its status. */
  predicate WellFormed(g: Game)
  {
    && g.creator != ZERO_ADDRESS
    && match g.status
       case Open =>
         && g.deposit == 0 && g.pot == g.stake
         && g.creatorMove == NoMove && g.participantMove == NoMove
         && g.winner == ZERO_ADDRESS
       case Active =>
         && g.invitee != ZERO_ADDRESS
         && g.stake <= g.deposit && g.pot == g.stake + g.deposit
         && (g.creatorMove == NoMove || g.participantMove == NoMove)
         && (g.participantMove != NoMove ==> g.creator != g.invitee)
         && g.winner == ZERO_ADDRESS
       case Resolved =>
         && g.invitee != ZERO_ADDRESS && g.creator != g.invitee
         && g.stake <= g.deposit && g.pot == 0
         && g.creatorMove != NoMove && g.participantMove != NoMove
         && g.winner == WinnerOf(g)
  }

  /** The games have exactly the ids 0 .. nextId-1: ids are handed out in order and never reused. */
  ghost predicate IdsDense(games: map<nat, Game>, nextId: nat)
  {
    forall id: nat :: id in games <==> id < nextId
  }

  predicate AllWellFormed(games: map<nat, Game>)
  {
    forall id :: id in games ==> WellFormed(games[id])
  }

  /** Every event names a resolved game and its stored winner; no game is announced twice. */
  predicate LogFaithful(games: map<nat, Game>, log: seq<Event>)
  {
    && (forall i :: 0 <= i < |log| ==>
          && log[i].gameId in games
          && games[log[i].gameId].status == Resolved
          && log[i].winner == games[log[i].gameId].winner)
    && (forall i, j :: 0 <= i < j < |log| ==> log[i].gameId != log[j].gameId)
  }

  /** Every resolved game has been announced. */
  predicate Announced(games: map<nat, Game>, log: seq<Event>)
  {
    forall id :: id in games && games[id].status == Resolved ==>
      exists i :: 0 <= i < |log| && log[i].gameId == id
  }

  /** The invariant of every reachable state; in particular the contract holds exactly the unresolved pots. */
  ghost predicate Inv(s: Ledger)
  {
    && IdsDense(s.games, s.nextId)
    && AllWellFormed(s.games)
    && s.held == PotSum(s.games, s.nextId)
    && LogFaithful(s.games, s.log)
    && Announced(s.games, s.log)
  }

  lemma DeployedInv(accounts: map<Addr, Wei>)
    ensures Inv(Deployed(accounts))
    ensures Funds(Deployed(accounts)) == Total(accounts)
  {
  }

  /** On a resolved game the stored winner is address 0 exactly on a draw. */
  lemma WinnerSentinel(g: Game)
    requires WellFormed(g) && g.status == Resolved
    ensures g.creator != g.invitee
    ensures g.winner == ZERO_ADDRESS <==> g.creatorMove == g.participantMove
    ensures g.winner == g.creator || g.winner == g.invitee || g.winner == ZERO_ADDRESS
  {
  }

  /** Storing a game that is not resolved, in place of one that was not, leaves the log in step. */
  lemma StoreUnresolved(games: map<nat, Game>, log: seq<Event>, id: nat, g: Game)
    requires LogFaithful(games, log) && Announced(games, log)
    requires id in games ==> games[id].status != Resolved
    requires g.status != Resolved
    ensures LogFaithful(games[id := g], log) && Announced(games[id := g], log)
  {
    forall i | 0 <= i < |log|
      ensures log[i].gameId != id
    {
      assert games[log[i].gameId].status == Resolved;
    }
  }

  /** Resolving a game and announcing it once leaves the log in step. */
  lemma StoreResolved(games: map<nat, Game>, log: seq<Event>, id: nat, g: Game)
    requires LogFaithful(games, log) && Announced(games, log)
    requires id in games && games[id].status != Resolved
    requires g.status == Resolved
    ensures var log' := log + [GameComplete(id, g.winner)];
      LogFaithful(games[id := g], log') && Announced(games[id := g], log')
  {
    var games', log' := games[id := g], log + [GameComplete(id, g.winner)];
    forall i | 0 <= i < |log|
      ensures log[i].gameId != id
    {
      assert games[log[i].gameId].status == Resolved;
    }
    assert log'[|log|].gameId == id;
    forall k | k in games' && games'[k].status == Resolved
      ensures exists i :: 0 <= i < |log'| && log'[i].gameId == k
    {
      if k != id {
        var i :| 0 <= i < |log| && log[i].gameId == k;
        assert log'[i].gameId == k;
      }
    }
  }

  // ---------------------------------------------------------------------------
  // How games may change from one call to the next

  function StatusRank(st: Status): nat
  {
    match st
    case Open => 0
    case Active => 1
    case Resolved => 2
  }

  /**
   * How one game may change: its parties and stake are fixed, a move once set
   * is never replaced, the status only moves forward (Open, Active, Resolved),
   * the deposit is fixed once joined and a resolved game never changes.
   */
  predicate GameEvolves(g: Game, g': Game)
  {
    && g'.creator == g.creator && g'.invitee == g.invitee && g'.stake == g.stake
    && (g.creatorMove != NoMove ==> g'.creatorMove == g.creatorMove)
    && (g.participantMove != NoMove ==> g'.participantMove == g.participantMove)
    && StatusRank(g.status) <= StatusRank(g'.status)
    && (g.status != Open ==> g'.deposit == g.deposit)
    && (g.status == Resolved ==> g' == g)
  }

  /** How the whole state may change: no game is removed, each game evolves, the log only grows. */
  predicate Evolves(s: Ledger, s': Ledger)
  {
    && s.nextId <= s'.nextId
    && (forall id :: id in s.games ==> id in s'.games && GameEvolves(s.games[id], s'.games[id]))
    && s.log <= s'.log
  }

  /** The rules hold across any number of calls. */
  lemma EvolvesTransitive(s1: Ledger, s2: Ledger, s3: Ledger)
    requires Evolves(s1, s2) && Evolves(s2, s3)
    ensures Evolves(s1, s3)
  {
  }

  // ---------------------------------------------------------------------------
  // Each call keeps the invariant and conserves wei

  /**
   * `createGame` hands out id `nextId` (0 on a fresh contract), which no game
   * had before, and moves exactly the attached value from the sender into escrow.
   */
  lemma CreateGameSafe(s: Ledger, sender: Addr, invitee: Addr, value: Wei)
    requires Inv(s) && sender != ZERO_ADDRESS
    ensures var t := CreateGame(s, sender, invitee, value);
      && Inv(t.post)
      && Funds(t.post) == Funds(s)
      && Evolves(s, t.post)
      && (t.result.Failure? ==> t.post == s)
      && (t.result.Success? <==> value <= BalanceOf(s.balances, sender))
      && (t.result.Success? ==>
            && t.result.value == s.nextId && t.result.value !in s.games
            && t.post.games == s.games[s.nextId := Game(sender, invitee, value, 0, NoMove, NoMove, ZERO_ADDRESS, value, Open)]
            && t.post.held == s.held + value
            && t.post.balances == Debit(s.balances, sender, value))
  {
    var t := CreateGame(s, sender, invitee, value);
    if t.result.Success? {
      var g := t.post.games[s.nextId];
      assert s.nextId !in s.games;
      PotSumStore(s.games, s.nextId + 1, s.nextId, g);
      TotalDebit(s.balances, sender, value);
      StoreUnresolved(s.games, s.log, s.nextId, g);
    }
  }

  /**
   * `joinGame` succeeds exactly when the game is open, the sender is the
   * invitee and the deposit is at least the stake; it then adds the deposit
   * to the pot. A deposit below the stake reverts and changes nothing.
   */
  lemma JoinGameSafe(s: Ledger, sender: Addr, id: nat, value: Wei)
    requires Inv(s) && sender != ZERO_ADDRESS
    ensures var t := JoinGame(s, sender, id, value);
      && Inv(t.post)
      && Funds(t.post) == Funds(s)
      && Evolves(s, t.post)
      && (t.result.Failure? ==> t.post == s)
      && (t.result.Success? <==>
            && value <= BalanceOf(s.balances, sender)
            && id in s.games && s.games[id].status == Open
            && sender == s.games[id].invitee
            && s.games[id].stake <= value)
      && (t.result.Success? ==>
            && t.post.games == s.games[id := s.games[id].(deposit := value, pot := s.games[id].pot + value, status := Active)]
            && t.post.games[id].status == Active
            && t.post.games[id].deposit == value
            && t.post.games[id].pot == s.games[id].pot + value
            && t.post.held == s.held + value
            && t.post.balances == Debit(s.balances, sender, value))
  {
    var t := JoinGame(s, sender, id, value);
    if t.result.Success? {
      var g := t.post.games[id];
      PotSumStore(s.games, s.nextId, id, g);
      TotalDebit(s.balances, sender, value);
      StoreUnresolved(s.games, s.log, id, g);
    }
  }

  /** Resolution pays out exactly what leaves escrow. */
  lemma SettleConserves(s: Ledger, id: nat, g: Game)
    requires g.creatorMove != NoMove && g.participantMove != NoMove
    ensures Funds(Settle(s, id, g)) == Funds(s)
  {
    if Outcome(g.creatorMove, g.participantMove) == Draw {
      TotalCredit(s.balances, g.creator, g.stake);
      TotalCredit(Credit(s.balances, g.creator, g.stake), g.invitee, g.deposit);
    } else {
      TotalCredit(s.balances, WinnerOf(g), g.pot);
    }
  }

  /**
   * What account `a` receives when game `g` is resolved: the winner gets both
   * payments; on a draw the creator gets the stake back and the participant
   * the deposit.
   */
  function Payout(g: Game, a: Addr): Wei
    requires g.creatorMove != NoMove && g.participantMove != NoMove
  {
    match Outcome(g.creatorMove, g.participantMove)
    case CreatorWins => if a == g.creator then g.stake + g.deposit else 0
    case ParticipantWins => if a == g.invitee then g.stake + g.deposit else 0
    case Draw => (if a == g.creator then g.stake else 0) + (if a == g.invitee then g.deposit else 0)
  }

  /** Resolving a game whose pot is both payments pays every account exactly its `Payout`. */
  lemma SettlePayout(s: Ledger, id: nat, g: Game)
    requires g.creatorMove != NoMove && g.participantMove != NoMove
    requires g.pot == g.stake + g.deposit
    ensures forall a :: BalanceOf(Settle(s, id, g).balances, a) == BalanceOf(s.balances, a) + Payout(g, a)
    ensures forall a :: Payout(Settle(s, id, g).games[id], a) == Payout(g, a)
    ensures Settle(s, id, g).held == s.held - g.pot
  {
  }

  /**
   * Resolving an active game keeps the invariant: its whole pot leaves escrow,
   * every account receives its `Payout`, and one event is appended.
   */
  lemma SettleSafe(s: Ledger, id: nat, g: Game)
    requires Inv(s) && id in s.games && s.games[id].status == Active
    requires g == s.games[id].(creatorMove := g.creatorMove, participantMove := g.participantMove)
    requires g.creatorMove != NoMove && g.participantMove != NoMove
    requires g.creator != g.invitee
    ensures Inv(Settle(s, id, g))
    ensures Funds(Settle(s, id, g)) == Funds(s)
    ensures Settle(s, id, g).held == s.held - s.games[id].pot
    ensures Settle(s, id, g).log == s.log + [GameComplete(id, WinnerOf(g))]
    ensures forall a :: BalanceOf(Settle(s, id, g).balances, a) == BalanceOf(s.balances, a) + Payout(g, a)
  {
    SettlePayout(s, id, g);
    assert WellFormed(s.games[id]);
    var g' := Settle(s, id, g).games[id];
    PotSumStore(s.games, s.nextId, id, g');
    StoreResolved(s.games, s.log, id, g');
    SettleConserves(s, id, g);
  }

  /**
   * `makeMove` succeeds only on an active game; the call that resolves the
   * game emits exactly one `GameComplete` with the stored winner, any other
   * call emits nothing. Wei is conserved and the invariant kept.
   */
  lemma MakeMoveSafe(s: Ledger, sender: Addr, id: nat, code: int)
    requires Inv(s) && sender != ZERO_ADDRESS
    ensures var t := MakeMove(s, sender, id, code);
      && Inv(t.post)
      && Funds(t.post) == Funds(s)
      && (t.result.Failure? ==> t.post == s)
      && (t.result.Success? ==>
            && id in s.games && s.games[id].status == Active
            && (t.post.games[id].status == Resolved <==>
                  t.post.log == s.log + [GameComplete(id, t.post.games[id].winner)])
            && (t.post.games[id].status != Resolved ==> t.post.log == s.log))
  {
    var t := MakeMove(s, sender, id, code);
    if t.result.Success? {
      var g := s.games[id];
      assert WellFormed(g);
      var m := DecodeMove(code).value;
      var g' := if sender == g.creator then g.(creatorMove := m) else g.(participantMove := m);
      if g'.creatorMove == NoMove || g'.participantMove == NoMove {
        PotSumStore(s.games, s.nextId, id, g');
        StoreUnresolved(s.games, s.log, id, g');
      } else {
        SettleSafe(s, id, g');
      }
    }
  }

  /**
   * When `makeMove` succeeds: exactly for a valid move by a party into its own
   * empty slot of an active game. What it then does to the game: the sender's
   * decoded move fills that slot, and the call resolves the game
   * exactly when the other party has already moved. No other game changes
   * and the rules of `Evolves` hold.
   */
  lemma MakeMoveEffect(s: Ledger, sender: Addr, id: nat, code: int)
    requires id in s.games ==> WellFormed(s.games[id])
    ensures var t := MakeMove(s, sender, id, code);
      && Evolves(s, t.post)
      && (t.result.Success? <==>
            && id in s.games && s.games[id].status == Active && 1 <= code <= 3
            && (sender == s.games[id].creator || sender == s.games[id].invitee)
            && (if sender == s.games[id].creator then s.games[id].creatorMove
                else s.games[id].participantMove) == NoMove)
      && (t.result.Success? ==>
            var g, m, g' := s.games[id], DecodeMove(code).value, t.post.games[id];
            && t.post.games == s.games[id := g']
            && (sender == g.creator ==>
                  g.creatorMove == NoMove && g'.creatorMove == m && g'.participantMove == g.participantMove)
            && (sender != g.creator ==>
                  && sender == g.invitee && g.participantMove == NoMove
                  && g'.participantMove == m && g'.creatorMove == g.creatorMove)
            && (g'.status == Resolved <==>
                  (if sender == g.creator then g.participantMove else g.creatorMove) != NoMove))
  {
  }

  /**
   * Who is paid when `makeMove` resolves a game: every account receives its
   * `Payout`, whichever party moved last. A move that does not resolve the
   * game moves no wei.
   */
  lemma MakeMovePayout(s: Ledger, sender: Addr, id: nat, code: int)
    requires id in s.games ==> WellFormed(s.games[id])
    ensures var t := MakeMove(s, sender, id, code);
      t.result.Success? ==>
        var g' := t.post.games[id];
        && (g'.status == Resolved ==>
              forall a :: BalanceOf(t.post.balances, a) == BalanceOf(s.balances, a) + Payout(g', a))
        && (g'.status != Resolved ==> t.post.balances == s.balances && t.post.held == s.held)
  {
    var t := MakeMove(s, sender, id, code);
    if t.result.Success? {
      var g := s.games[id];
      var m := DecodeMove(code).value;
      var g1 := if sender == g.creator then g.(creatorMove := m) else g.(participantMove := m);
      if g1.creatorMove != NoMove && g1.participantMove != NoMove {
        assert t.post == Settle(s, id, g1);
        SettlePayout(s, id, g1);
      }
    }
  }

  // ---------------------------------------------------------------------------
  // A whole game

  /**
   * A game between two distinct accounts who can pay, call by call: every
   * call succeeds, the game gets id `nextId`, and `PlayGame` ends in the state
   * the four calls reach.
   */
  lemma PlayGameSteps(s: Ledger, creator: Addr, participant: Addr, stake: Wei, deposit: Wei,
                      creatorCode: int, participantCode: int)
    requires creator != participant
    requires stake <= BalanceOf(s.balances, creator)
    requires stake <= deposit <= BalanceOf(s.balances, participant)
    requires 1 <= creatorCode <= 3 && 1 <= participantCode <= 3
    ensures
      var t1 := CreateGame(s, creator, participant, stake);
      var t2 := JoinGame(t1.post, participant, s.nextId, deposit);
      var t3 := MakeMove(t2.post, creator, s.nextId, creatorCode);
      var t4 := MakeMove(t3.post, participant, s.nextId, participantCode);
      && t1.result == Success(s.nextId) && t2.result.Success? && t3.result.Success? && t4.result.Success?
      && PlayGame(s, creator, participant, stake, deposit, creatorCode, participantCode) == Tx(Success(s.nextId), t4.post)
  {
    var t1 := CreateGame(s, creator, participant, stake);
    var t2 := JoinGame(t1.post, participant, s.nextId, deposit);
    assert t2.result.Success?;
  }

  /**
   * A game played to the end between two distinct accounts who can pay:
   * the new game gets id `nextId` and is resolved by the participant's move,
   * which emits one `GameComplete` naming the winner. The winner's net gain
   * is the loser's payment, the loser's net loss is their own payment, a draw
   * leaves both where they started, no other account changes and the
   * contract ends holding what it held before.
   */
  lemma PlayGamePayout(s: Ledger, creator: Addr, participant: Addr, stake: Wei, deposit: Wei,
                       creatorCode: int, participantCode: int)
    requires creator != participant
    requires stake <= BalanceOf(s.balances, creator)
    requires stake <= deposit <= BalanceOf(s.balances, participant)
    requires 1 <= creatorCode <= 3 && 1 <= participantCode <= 3
    ensures
      var t := PlayGame(s, creator, participant, stake, deposit, creatorCode, participantCode);
      var v := Outcome(DecodeMove(creatorCode).value, DecodeMove(participantCode).value);
      var w := VerdictWinner(v, creator, participant);
      var creatorGain := BalanceOf(t.post.balances, creator) - BalanceOf(s.balances, creator);
      var participantGain := BalanceOf(t.post.balances, participant) - BalanceOf(s.balances, participant);
      && t.result == Success(s.nextId)
      && t.post.games[s.nextId].status == Resolved
      && t.post.games[s.nextId].winner == w
      && t.post.log == s.log + [GameComplete(s.nextId, w)]
      && t.post.held == s.held
      && creatorGain == (match v case CreatorWins => deposit as int case ParticipantWins => -(stake as int) case Draw => 0)
      && participantGain == (match v case CreatorWins => -(deposit as int) case ParticipantWins => stake as int case Draw => 0)
      && creatorGain + participantGain == 0
      && (forall a :: a != creator && a != participant ==>
            BalanceOf(t.post.balances, a) == BalanceOf(s.balances, a))
  {
    var id := s.nextId;
    PlayGameSteps(s, creator, participant, stake, deposit, creatorCode, participantCode);
    var t1 := CreateGame(s, creator, participant, stake);
    var t2 := JoinGame(t1.post, participant, id, deposit);
    var t3 := MakeMove(t2.post, creator, id, creatorCode);
    var g := t3.post.games[id].(participantMove := DecodeMove(participantCode).value);
    assert MakeMove(t3.post, participant, id, participantCode) == Tx(Success(()), Settle(t3.post, id, g));
    assert t3.post.balances == Debit(Debit(s.balances, creator, stake), participant, deposit);
    assert t3.post.held == s.held + stake + deposit;
  }

  // ---------------------------------------------------------------------------
  // The test suite's scenarios, on a freshly deployed contract

  const ONE_ETHER: Wei := 1_000_000_000_000_000_000

  /**
   * The invitee of game 0 (1 ether at stake) tries to join with 0.5 ether:
   * the call reverts with "Bet amount must be greater than the original bet"
   * and nothing changes. Joining with exactly the stake succeeds.
   */
  lemma LowJoinReverts(accounts: map<Addr, Wei>, creator: Addr, invitee: Addr)
    requires creator != invitee
    requires ONE_ETHER <= BalanceOf(accounts, creator) && ONE_ETHER <= BalanceOf(accounts, invitee)
    ensures var t1 := CreateGame(Deployed(accounts), creator, invitee, ONE_ETHER);
      && t1.result == Success(0)
      && JoinGame(t1.post, invitee, 0, ONE_ETHER / 2) == Tx(Failure(InsufficientStake), t1.post)
      && JoinGame(t1.post, invitee, 0, ONE_ETHER).result.Success?
  {
  }

  /**
   * 1000 wei each, Rock (1) against Paper (2): the participant's move emits
   * `GameComplete(0, participant)`, `games(0).winner` is the participant, the
   * participant is 1000 wei up and the creator 1000 wei down.
   */
  lemma PaperCoversRock(accounts: map<Addr, Wei>, creator: Addr, participant: Addr)
    requires creator != participant
    requires 1000 <= BalanceOf(accounts, creator) && 1000 <= BalanceOf(accounts, participant)
    ensures var t := PlayGame(Deployed(accounts), creator, participant, 1000, 1000, 1, 2);
      && t.result == Success(0)
      && t.post.log == [GameComplete(0, participant)]
      && GetGame(t.post, 0).value.winner == participant
      && BalanceOf(t.post.balances, participant) == BalanceOf(accounts, participant) + 1000
      && BalanceOf(t.post.balances, creator) == BalanceOf(accounts, creator) - 1000
      && t.post.held == 0
  {
    PlayGamePayout(Deployed(accounts), creator, participant, 1000, 1000, 1, 2);
  }

  /**
   * 1000 wei each, Rock (1) against Rock (1): both get their own 1000 wei
   * back and `games(0).winner` is address 0.
   */
  lemma RockTiesRock(accounts: map<Addr, Wei>, creator: Addr, participant: Addr)
    requires creator != participant
    requires 1000 <= BalanceOf(accounts, creator) && 1000 <= BalanceOf(accounts, participant)
    ensures var t := PlayGame(Deployed(accounts), creator, participant, 1000, 1000, 1, 1);
      && t.result == Success(0)
      && t.post.log == [GameComplete(0, ZERO_ADDRESS)]
      && GetGame(t.post, 0).value.winner == ZERO_ADDRESS
      && BalanceOf(t.post.balances, participant) == BalanceOf(accounts, participant)
      && BalanceOf(t.post.balances, creator) == BalanceOf(accounts, creator)
      && t.post.held == 0
  {
    PlayGamePayout(Deployed(accounts), creator, participant, 1000, 1000, 1, 1);
  }
}
