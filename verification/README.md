# codewars_solidity contracts in Dafny

This project models three Solidity contracts of the repository as their
Hardhat test suites drive them. The contracts' own source is not part of
this model. Their behaviour is fixed by what the tests call and assert, and
the model follows those assertions.

- **RockPaperScissors** is an escrow game. `createGame(invitee)` opens game
  `0, 1, …` and escrows the creator's stake, which is the value attached to
  the call. `joinGame(id)` escrows the invitee's deposit, which must be at
  least the stake. `makeMove(id, m)` records a move (1 = Rock, 2 = Paper,
  3 = Scissors). The second move resolves the game in the same call. The
  winner takes the whole pot. A draw refunds each party's own payment and
  stores winner `address(0)`. Resolution emits `GameComplete(winner)`.
  - `rock_paper_scissors.dfy` gives each call as a pure transition function.
    The function maps the state before the call (the `games` mapping, the id
    counter, every account's wei, the contract's wei and the event log) to
    the call's result and the state after it. A reverted call leaves the
    state unchanged.
  - `rps_contract.dfy` is the contract as a class that updates that storage
    in place. Each method is proved to do what its transition function says.
    Each method also keeps the invariant and conserves wei.
  - `rps_proofs.dfy` holds the invariant, the conservation proofs, the
    payouts of a whole game and the scenarios of the test suite. The
    invariant says that ids are `0 … nextId-1`, that every game's fields
    agree with its status, that the contract holds exactly the sum of the
    unresolved pots, and that each resolved game is announced exactly once
    with its stored winner. Conservation says that the accounts' wei plus the
    contract's wei never changes. `Evolves` gives the rules each game follows
    from call to call: its parties and stake are fixed, a move is set once,
    the status only moves forward and a resolved game never changes. `Payout`
    says what each account receives when a game is resolved.
- **CountByX**: `countBy(x, n)` returns `[x, 2x, …, nx]` and reverts for a
  negative `n` (`count_by_x.dfy`).
- **DummyToken**: `multiply(a, b)` is the signed product (`dummy_token.dfy`).

Where the tests' wording and their assertions disagree, the model follows
the assertions:
- `joinGame` with a deposit equal to the stake succeeds (rockpaperscissors.test.js:37, 76, 141). The revert message says "greater than", but the guard is `deposit >= stake`.
- `countBy(5, -2)` reverts (countbyx.test.js:40-43). The test title says it returns an empty array, but the assertion is a revert.

Amounts are plain wei. Addresses are naturals, and address 0 is
`address(0)`. A transaction's sender is never address 0, and the methods
require it.

## Model

| member | source | states |
|---|---|---|
| `RockPaperScissors.DecodeMove` | test/rockpaperscissors.test.js:39-43 | the move argument decodes exactly for codes 1..3, and the decoded move encodes back to the same code (1 = Rock, 2 = Paper) |
| `RockPaperScissors.Outcome` | test/rockpaperscissors.test.js:39-58 | the outcome computed from move codes modulo 3 is a draw iff the moves are equal, and the creator (participant) wins iff their move beats the other's in the Paper > Rock > Scissors > Paper cycle |
| `RockPaperScissors.CreateGame` | test/rockpaperscissors.test.js:20 | createGame reverts without any effect, or returns id nextId, advances the counter, escrows the attached value and emits nothing |
| `RockPaperScissors.JoinGame` | test/rockpaperscissors.test.js:26-28 | joinGame reverts without any effect, or escrows the attached value on an existing game; it never adds or removes a game, changes the counter or emits |
| `RockPaperScissors.MakeMove` | test/rockpaperscissors.test.js:40-43 | makeMove reverts without any effect unless the game exists, is active and the move code is valid; it never adds or removes a game or changes the counter |
| `RockPaperScissors.Settle` | test/rockpaperscissors.test.js:43-58 | resolution stores the game as resolved with an empty pot and the winner the outcome names, and appends one GameComplete naming that winner |
| `RockPaperScissors.GetGame` | test/rockpaperscissors.test.js:123-124 | the games(id) lookup finds exactly the stored ids and returns the stored game, and fails with NotFound otherwise |
| `RockPaperScissors.PlayGame` | test/rockpaperscissors.test.js:74-80 | the four calls of a game in sequence: a successful game has id nextId and advances the counter by one; a creator who cannot pay the stake stops it at once with nothing changed |
| `RockPaperScissorsProofs.DeployedInv` | test/rockpaperscissors.test.js:10-15 | a freshly deployed contract satisfies the invariant and all wei is in the accounts |
| `RockPaperScissorsProofs.WinnerSentinel` | test/rockpaperscissors.test.js:121-124 | a resolved game has two distinct parties, and its stored winner is exactly one of the creator, the participant or address 0; it is address 0 exactly when the two moves are equal |
| `RockPaperScissorsProofs.CreateGameSafe` | test/rockpaperscissors.test.js:17-20 | createGame succeeds exactly when the sender can pay the attached value. It then returns id nextId, which no earlier game had (0 on a fresh contract). It stores under that id an open game with the sender as creator, the given invitee, the attached value as stake and pot, deposit 0 and no moves, and changes no other game. It moves exactly the attached value from the sender into escrow and leaves every other account unchanged, keeps the invariant, the rules of `Evolves` and conserves wei. A revert changes nothing |
| `RockPaperScissorsProofs.JoinGameSafe` | test/rockpaperscissors.test.js:22-37 | joinGame succeeds iff the game is open, the sender is the invitee and can pay, and the deposit is at least the stake. On success only that game changes, and in it only three fields: it becomes active, records the deposit, and its pot grows by the deposit (its parties, stake and empty move slots stay as they were), which leaves the sender's account while every other account is unchanged. A revert (for example a deposit below the stake) changes nothing. The invariant and the rules of `Evolves` are kept and wei is conserved |
| `RockPaperScissorsProofs.SettleSafe` | test/rockpaperscissors.test.js:43-58 | resolving an active game keeps the invariant and conserves wei: its whole pot leaves escrow, every account receives its `Payout`, and exactly one GameComplete naming the outcome's winner is appended |
| `RockPaperScissorsProofs.SettlePayout` | test/rockpaperscissors.test.js:113-119 | resolving a game whose pot is both payments pays every account exactly its `Payout`: the winner both payments, on a draw the creator the stake and the participant the deposit, everyone else nothing |
| `RockPaperScissorsProofs.SettleConserves` | test/rockpaperscissors.test.js:113-119 | resolution credits the accounts with exactly the wei that leaves the contract, whatever the outcome |
| `RockPaperScissorsProofs.MakeMoveSafe` | test/rockpaperscissors.test.js:39-58 | makeMove succeeds only on an active game. It emits GameComplete with the stored winner exactly on the call that resolves the game, and emits nothing otherwise. A revert changes nothing. The invariant is kept and wei is conserved |
| `RockPaperScissorsProofs.MakeMoveEffect` | test/rockpaperscissors.test.js:40-43 | makeMove succeeds exactly when the game is active, the code is 1..3 and the sender is a party whose own slot is still empty. It then puts the sender's decoded move into the sender's own, still empty, slot and leaves the other slot alone; it resolves the game exactly when the other party had already moved; no other game changes and the rules of `Evolves` hold |
| `RockPaperScissorsProofs.MakeMovePayout` | test/rockpaperscissors.test.js:107-119 | whichever party moves last, the resolving makeMove pays every account its `Payout`; a move that does not resolve the game moves no wei |
| `RockPaperScissorsProofs.EvolvesTransitive` | test/rockpaperscissors.test.js:74-80 | the per-game rules (fixed parties and stake, moves set once, status only forward, resolved games frozen) hold across any sequence of calls |
| `RockPaperScissorsProofs.PlayGameSteps` | test/rockpaperscissors.test.js:74-80 | in a game between two distinct accounts who can pay, each of the four calls succeeds and the game gets id nextId |
| `RockPaperScissorsProofs.PlayGamePayout` | test/rockpaperscissors.test.js:62-168 | in a game played to the end, the new game is resolved by the second move with the winner the rule cycle names. The winner gains the loser's payment and the loser loses their own. On a draw both end where they started. The gains sum to 0, other accounts are unchanged and the escrow returns to its prior amount |
| `RockPaperScissorsProofs.LowJoinReverts` | test/rockpaperscissors.test.js:17-28 | on a fresh contract the first game has id 0. Joining it with 0.5 ether against a 1 ether stake reverts with the low-bet error and changes nothing, while joining with exactly 1 ether succeeds |
| `RockPaperScissorsProofs.PaperCoversRock` | test/rockpaperscissors.test.js:62-125 | Rock against Paper at 1000 wei each emits GameComplete(0, participant) and stores the participant as winner. The participant ends 1000 up, the creator 1000 down, and the escrow ends empty |
| `RockPaperScissorsProofs.RockTiesRock` | test/rockpaperscissors.test.js:128-174 | Rock against Rock at 1000 wei each refunds both exactly, stores and announces winner address 0, and the escrow ends empty |
| `RockPaperScissorsContract.Contract.constructor` | test/rockpaperscissors.test.js:10-15 | deployment yields no games, id counter 0, an empty log and the invariant |
| `RockPaperScissorsContract.Contract.Games` | test/rockpaperscissors.test.js:123-124 | the games(id) getter finds exactly the ids below nextId and returns a well-formed game |
| `RockPaperScissorsContract.Contract.CreateGame` | test/rockpaperscissors.test.js:20 | the in-place createGame returns and stores what the transition function does, keeps the invariant and conserves wei |
| `RockPaperScissorsContract.Contract.JoinGame` | test/rockpaperscissors.test.js:26-37 | the in-place joinGame returns and stores what the transition function does, keeps the invariant and conserves wei |
| `RockPaperScissorsContract.Contract.MakeMove` | test/rockpaperscissors.test.js:40-43 | the in-place makeMove, with its payouts, returns and stores what the transition function does, keeps the invariant and conserves wei |
| `RockPaperScissorsContract.Contract.ExecuteCreateGame` | test/rockpaperscissors.test.js:20 | the checks and storage updates of createGame produce exactly the result and state of the transition function |
| `RockPaperScissorsContract.Contract.ExecuteJoinGame` | test/rockpaperscissors.test.js:26-37 | the checks and storage updates of joinGame, including the low-deposit revert, produce exactly the result and state of the transition function |
| `RockPaperScissorsContract.Contract.ExecuteMakeMove` | test/rockpaperscissors.test.js:40-43 | the checks and storage updates of makeMove produce exactly the result and state of the transition function |
| `RockPaperScissorsContract.Contract.Resolve` | test/rockpaperscissors.test.js:43-58 | the in-place payout, winner update and event emission on the second move produce exactly the resolved state |
| `RockPaperScissorsContract.PlayPaperAgainstRock` | test/rockpaperscissors.test.js:74-80 | the four transactions of the winner test, sent to the contract object, leave it in the state the transition functions give and keep the invariant |
| `RockPaperScissorsContract.PaperCoversRockOnContract` | test/rockpaperscissors.test.js:62-125 | the winner test replayed on the contract object: the announced and stored winner is the participant, whose balance changes by +1000 while the creator's changes by -1000 |
| `CountByX.Multiples` | test/countbyx.test.js:13-19 | the sequence built one element at a time has length n, and element i is (i+1)*x |
| `CountByX.CountBy` | test/countbyx.test.js:13-52 | countBy reverts iff n < 0. Otherwise it returns exactly n elements, and element i is (i+1)*x |
| `CountByX.CountByFill` | test/countbyx.test.js:14 | filling a fresh n-slot array slot by slot yields exactly countBy(x, n), including the revert for n < 0 |
| `CountByX.CountByProgression` | test/countbyx.test.js:13-19 | the result starts at x and each element is the previous plus x |
| `CountByX.CountByOrder` | test/countbyx.test.js:26-38 | the result is strictly increasing for x > 0 and strictly decreasing and all negative for x < 0. For x = 0 it is all zeros |
| `CountByX.CountByExamples` | test/countbyx.test.js:13-52 | the test values hold: [5,10,15]; [] for n = 0; [-4,-8,-12]; [0]; a revert for n = -2; [10^12, 2*10^12] |
| `DummyToken.Multiply` | test/DummyToken.test.js:17-36 | the product is 0 iff a factor is 0, positive iff the signs agree, negative iff they differ, and its magnitude is the product of the magnitudes |
| `DummyToken.MultiplyIsRepeatedSum` | test/DummyToken.test.js:17-36 | multiply agrees with adding a to itself abs(b) times, negated for negative b |
| `DummyToken.MultiplyCommutes` | test/DummyToken.test.js:17-36 | multiply is symmetric in its arguments |
| `DummyToken.MultiplyExamples` | test/DummyToken.test.js:17-36 | the test values hold: 5*10 = 50, 5*(-10) = -50, 5*0 = 0, 1000*2000 = 2000000 |

## Left out

- Gas. Every amount is exact wei, and the tests' `closeTo(…, 0.01 ether)` tolerance is replaced by exact equalities.
- Hardhat and ethers plumbing: deployment, signers, async calls, receipts and log parsing. The event log is an append-only sequence in the state.
- Payout delivery failure and reentrancy. A payout is a plain credit to the recipient's balance, so a recipient that refuses payment is not modelled.
- 256-bit arithmetic. `countBy` and `multiply` use unbounded integers, so overflow behaviour of `int256` is not modelled. The tests stay far inside the range.
- Concurrency and transaction ordering. Calls are sequential transitions.
- Behaviour that no test exercises is modelled as an assumption, not as evidenced behaviour:
  - only the invitee may join;
  - a second move by the same party reverts;
  - moves are refused before the game is joined;
  - Scissors is encoded as 3, and codes other than 1..3 revert;
  - a sender who cannot pay the attached value is refused;
  - the order in which the checks of a call are made.
- `RockPaperScissors.CreateGame`: a zero stake is accepted and opens a game with an empty pot. A positive stake is expected of callers, but no test shows the contract refusing a zero stake, so no revert is modelled for it.
- A creator who invites themself can join, but both of their moves go to the creator's slot. Such a game never resolves: the invariant (`WellFormed`) excludes a participant move or a resolution when creator and invitee are the same account.
- `RockPaperScissorsContract.Contract.Games`: an unknown id fails with `NotFound`. A public Solidity mapping getter would return an all-zero game instead, and the tests do not show which of the two the contract does.
- The `GameComplete` event carries the game id as well as the winner. The tests read only the winner.
