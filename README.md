# Dino Blackjack and Jurassic-Jumper, modelled in Dafny

This project models the game logic of two browser games from one repository.
It uses Dafny 4.11 and proves properties of that model.

* **Blackjack** (`Blackjack/script.js`) is a six-deck table against a dealer.
  - The deck comes from `buildShoe` (nested push loops and a Fisher–Yates shuffle in place).
  - `draw` deals the next card and rebuilds the shoe once 234 cards are out.
  - `handVal` counts aces as 11 and then demotes them one at a time while the hand busts. `isBJ` recognises a natural.
  - The betting state machine is `addChip`, `clearBet` and `startHand`/`playerHit`/`playerStand`. `addChip`, `clearBet`, `playerHit` and `playerStand` are guarded by `phase` and `busy`; `startHand` tests only the bet, the balance and `busy`.
  - `resolveHand` has the dealer draw to 17, classifies the hand and pays it out: a natural pays floor(1.5 · bet).
  - `nextHand` and `newGame` reset the table.
  - The global object `g` is the class `Table.Table`. A ghost ledger `settled` of the hands settled since the last new game ties the win/loss/push counters and the balance to the hands played.
* **Jurassic-Jumper** (`Jurassic-Jumper/game.js`) is a vertical platformer.
  - One `update` tick steers the player, applies gravity and wraps the player horizontally.
  - The camera only scrolls up, and the score is the height climbed.
  - Platforms tick: moving ones oscillate, and the break and spring timers count down.
  - Collision is swept and first-match: springs pop, breakables break.
  - Expired and off-screen platforms are dropped and new ones generated above.
  - Asteroids spawn on a timer, warn for 300 ticks and then fall.
  - The run ends on a strike or a fall off the screen.
  - `initGame`, `startGame`, `genPlatforms`, `makePlatform` and `getDiff` set up a run.
  - The fixed-timestep `loop` runs at most five updates per frame.
  - The mutable globals are the class `JumperWorld.World`. Platforms, the player and asteroids are datatype values held in its fields.

Every `Math.random()` value is a parameter: a real in [0, 1).
* A Fisher–Yates pass takes a sequence of 311 draws.
* `genPlatforms` takes a function from the iteration number to that iteration's draws.
* `update` takes a record of its draws.
* The clock (`performance.now()`) and the held keys are parameters as well.

Modules:

| file | module | contents |
|---|---|---|
| random.dfy | `Random` | `Unit`: one `Math.random()` value, a real in [0, 1) |
| cards.dfy | `Cards` | cards, `HandValue` (closed form) and `HandVal` (the two loops), naturals |
| shoe.dfy | `Shoe` | one deck, the six-deck shoe, the in-place shuffle, `BuildShoe` |
| table.dfy | `Table` | outcome classification, payout, the record, and class `Table` |
| jumper_common.dfy | `JumperCommon` | screen and physics constants, `Scale`, `Filter` |
| jumper_platforms.dfy | `JumperPlatforms` | difficulty, `MakePlatform`, platform tick and timers, the generated strip |
| jumper_actors.dfy | `JumperActors` | player physics, landing, asteroid phases, hit and fall tests |
| jumper_world.dfy | `JumperWorld` | class `World`: `initGame`, `genPlatforms`, `update`, `loop` |

## Model

| member | source | states |
|---|---|---|
| Cards.HandValue | Blackjack/script.js:35-44 | a hand's value lies between the hard total and the hard total plus 10 per ace, differs from the hard total by a multiple of 10, and a value over 21 counts every ace as 1 |
| Cards.HandValueIsBestTotal | Blackjack/script.js:35-44 | the value is one of the totals the aces allow; it is the largest such total that does not bust, and if it busts every choice busts at least as badly |
| Cards.HandValueUnique | Blackjack/script.js:35-44 | any ace choice obeying those rules gives exactly the hand's value, so the rules determine it |
| Cards.HandVal | Blackjack/script.js:35-44 | the summing loop and the ace-demotion loop return exactly the hand's value |
| Cards.NaturalIsAceAndTen | Blackjack/script.js:46 | a hand is a natural (two cards worth 21) if and only if it is an ace with a 10, J, Q or K, in either order |
| Cards.IsBlackjack | Blackjack/script.js:46 | `isBJ`: a natural is exactly a two-card hand worth 21 (characterised card by card by `NaturalIsAceAndTen`) |
| Shoe.Deck | Blackjack/script.js:14-19 | one deck has 52 cards |
| Shoe.DeckPosition | Blackjack/script.js:17-19 | every card sits in the deck at position 13 · suit index + value index |
| Shoe.DeckAt | Blackjack/script.js:17-19 | the inner loop's push at suit si and value vi extends the deck prefix by that card |
| Shoe.DeckDistinct | Blackjack/script.js:14-19 | the 52 cards of a deck are pairwise different |
| Shoe.DistinctCount | Blackjack/script.js:14-19 | in a sequence without repeats a card occurs once or not at all |
| Shoe.RepeatLength | Blackjack/script.js:21 | concatenating a deck n times gives n times its length |
| Shoe.RepeatCount | Blackjack/script.js:21 | a card occurring once in the deck occurs n times in n copies |
| Shoe.FreshShoeComposition | Blackjack/script.js:14-21 | the unshuffled shoe has 312 cards, each suit/value pair exactly 6 times |
| Shoe.FreshShoe | Blackjack/script.js:14-21 | the unshuffled shoe: six decks one after another, as the nested loops push them (composition in `FreshShoeComposition`) |
| Shoe.ShuffledComposition | Blackjack/script.js:13-27 | any rearrangement of the unshuffled shoe has that same composition |
| Shoe.SwapKeepsCards | Blackjack/script.js:24 | exchanging two positions keeps the multiset of cards |
| Shoe.ScaledFloorInRange | Blackjack/script.js:23 | floor(random · (i + 1)) is an index in 0..i |
| Shoe.Shuffle | Blackjack/script.js:22-25 | the Fisher–Yates pass over the array keeps its multiset of cards |
| Shoe.OneDeck | Blackjack/script.js:14-19 | the nested suit/value loops push exactly one deck in suit-major order |
| Shoe.BuildShoe | Blackjack/script.js:13-27 | the returned shoe is a permutation of six decks: 312 cards, each pair exactly 6 times |
| Table.SettleRules | Blackjack/script.js:264-271 | each outcome characterised by the two hands, both directions: a natural pays only without a dealer natural; a loss is a bust or a lower total against a standing dealer; a win is a higher total or a dealer bust; a push is two naturals or equal non-busting totals |
| Table.Settle | Blackjack/script.js:264-271 | the if-chain of `resolveHand` in its order: two naturals push, a player natural, a player bust, a dealer bust, then the higher total; its meaning case by case is `SettleRules` |
| Table.Gain | Blackjack/script.js:273-289 | the balance change per outcome: floor(1.5 · bet), +bet, 0, −bet (see `NaturalPaysThreeToTwo` and `SettlementKeepsBalance`) |
| Table.PlayerBustLoses | Blackjack/script.js:266-268 | a busted player loses even when the dealer busts too |
| Table.DealerNaturalTiesThreeCardTwentyOne | Blackjack/script.js:264-271 | a dealer natural against a player's three-card 21 is a push |
| Table.DealerNaturalTiesTwentyOne | Blackjack/script.js:264-271 | a dealer natural against any player 21 that is not a natural is a push, not a loss |
| Table.NaturalPaysThreeToTwo | Blackjack/script.js:273-276 | floor(1.5 · bet) equals bet + bet / 2 rounded down |
| Table.SettlementKeepsBalance | Blackjack/script.js:273-289 | with 0 ≤ bet ≤ balance: balance + gain ≥ 0 for every outcome, a negative gain only for a loss, and a loss costs exactly the bet |
| Table.TallyCountsEveryHand | Blackjack/script.js:273-289 | over any sequence of settled hands, wins + losses + pushes equals the number of hands |
| Table.TallyAppend | Blackjack/script.js:273-289 | settling one more hand bumps exactly that hand's counter and its gain |
| Table.Bump | Blackjack/script.js:273-289 | one settled hand's effect on the record: a natural or a win adds a win and its gain, a push adds a push, a loss adds a loss and −bet |
| Table.Tally | Blackjack/script.js:273-289 | the record of a sequence of settled hands, hand by hand in order; `Table.Valid` ties the counters and balance − 1000 to it |
| Table.HardTotalAtLeastLength | Blackjack/script.js:35-44 | every card adds at least one point to the hard total, so a dealer hand below 17 has fewer than 17 cards |
| Table.DealtCard | Blackjack/script.js:29-32 | the card k places after the count: from the old shoe while the count stays below 234, else from the rebuilt shoe at the position past 234 |
| Table.CountAfter | Blackjack/script.js:29-32 | the count after m more draws from c0 (c0 ≤ 234, m < 78): c0 + m while that stays within 234, else the overflow past 234, since the shoe is rebuilt and counting restarts at 0 |
| Table.DealerHandGrew | Blackjack/script.js:250-255 | the hand-shape half of the dealer's loop: old hand a prefix, each intermediate hand below 17, at most 17 cards added |
| Table.DealtFrom | Blackjack/script.js:29-32 | the shoe half: the cards added are `DealtCard` at offsets skip, skip + 1, … from c0, the count is `CountAfter(c0, skip + n)` and the shoe is unchanged while no reshuffle happened |
| Table.DealerDrew | Blackjack/script.js:250-255 | the loop invariant of the dealer's play: `DealerHandGrew` and `DealtFrom` together |
| Table.DealerPlayed | Blackjack/script.js:250-255 | the dealer's loop has ended: `DealerDrew` and the final hand is 17 or more |
| Table.DrawAfter | Blackjack/script.js:29-32 | one more `draw` after n draws from c0: its card is `DealtCard` at offset n from c0, the count becomes `CountAfter(c0, n + 1)`, and the n earlier cards read the same from the new shoe |
| Table.DealerHandStep | Blackjack/script.js:250-255 | a hit on a hand below 17 keeps `DealerHandGrew` |
| Table.DealtFromStep | Blackjack/script.js:29-32 | one more draw keeps `DealtFrom` with the card at the next offset |
| Table.DealerDrewStep | Blackjack/script.js:250-255 | one pass of the dealer's loop keeps `DealerDrew` |
| Table.DealerPlayedAfter | Blackjack/script.js:250-255 | a dealer play that started `skip` draws after c0 is `DealerPlayed` from c0 with `skip`, and the `skip` earlier cards read the same from the final shoe |
| Table.DealerPlayedWithoutReshuffle | Blackjack/script.js:250-255 | when the count starts at 234 − 17 or lower, the dealer's play leaves the shoe alone, advances the count by the cards drawn, and those cards are exactly the shoe slice between the two counts |
| Table.Table.constructor | Blackjack/script.js:2-10 | the initial `g` (betting, balance 1000, empty record) with the shoe built at load time |
| Table.Table.Draw | Blackjack/script.js:29-32 | returns the card at the old count and advances it by one; once 234 are out it first rebuilds a six-deck shoe and deals its first card (count 1); the card is `DealtCard(old shoe, new shoe, old count, 0)` in both cases; the read index stays below 312 |
| Table.Table.AddChip | Blackjack/script.js:158-163 | raises the bet by the chip exactly when betting, not busy and the balance covers it, otherwise leaves it; while betting the bet never exceeds the balance |
| Table.Table.ClearBet | Blackjack/script.js:171-177 | sets the bet to 0 exactly when betting and not busy |
| Table.Table.DealDisabled | Blackjack/script.js:57 | `updateDealBtn`: dealing is disabled exactly when the bet is below 10 or above the balance; `StartHand` is a no-op exactly then (or when busy) |
| Table.Table.DealerPlay | Blackjack/script.js:250-255 | `DealerPlayed`: the old hand is a prefix, every intermediate hand was below 17, at most 17 cards are drawn, the final hand is 17 or more, and drawn card j is `DealtCard` at offset j from the count the handler started at (across a reshuffle too); the count ends at `CountAfter` of the draws, and the shoe is unchanged unless the count reached 234 |
| Table.Table.DealerHit | Blackjack/script.js:252 | one dealer hit: the dealer's hand grows by `DealtCard(old shoe, new shoe, old count, 0)`; without a reshuffle the shoe is unchanged, the count advances by one and the card is the one at the old count; after a reshuffle the count is 1 |
| Table.Table.Payout | Blackjack/script.js:273-294 | pays the outcome's gain, bumps exactly its counter, records the hand, and ends in the result phase, not busy |
| Table.Table.ResolveHand | Blackjack/script.js:243-294 | the dealer's play stated by the old hand is a prefix, every intermediate hand was below 17, at most 17 cards are drawn, the final hand is 17 or more, and drawn card j is `DealtCard` at offset j from the count the handler started at (across a reshuffle too); the count ends at `CountAfter` of the draws, and the shoe is unchanged unless the count reached 234; the player's hand and the bet are kept; then the settlement of the classified hands: the balance gains `Gain`, exactly that counter moves, and the ledger records the hand |
| Table.Table.DealInitial | Blackjack/script.js:193-204 | deals player, dealer, player, dealer from the four positions after the count, each read from the rebuilt shoe once the count passes 234; the count advances by 4, or wraps to the overflow past 234 |
| Table.Table.ResolveAfter | Blackjack/script.js:208-211 | `resolveHand` called by a handler that has drawn `skip` cards since count c0: the dealer's play is `DealerPlayed` from c0 with `skip` earlier draws, the earlier `skip` cards read the same from the final shoe, the player's hand and bet are kept, and the ledger records the settled hand |
| Table.Table.StartHand | Blackjack/script.js:180-216 | does nothing unless 10 ≤ bet ≤ balance and not busy; otherwise the player holds the 1st and 3rd dealt cards and the dealer the 2nd and 4th (across a reshuffle too); a player natural is settled at once after the dealer plays from the 5th dealt card (`DealerPlayed` with 4 earlier draws, so the dealer ends at 17 or more, the count is `CountAfter(old count, 4 + draws)`); else the hand is in play with only two dealer cards, the count advanced by 4 (or wrapped past 234) and the shoe unchanged without a reshuffle |
| Table.Table.PlayerHit | Blackjack/script.js:218-234 | only while playing and not busy: the player gets the next dealt card (from the rebuilt shoe after a reshuffle); a bust settles the hand as a loss after the dealer plays from the following card (`DealerPlayed` with 1 earlier draw); else play goes on with the dealer's hand kept, the shoe unchanged and the count advanced by one without a reshuffle, and the count 1 after one |
| Table.Table.PlayerStand | Blackjack/script.js:236-241 | only while playing and not busy: the dealer plays as `DealerPlayed` states (from the current count, ending at 17 or more) and the hand is settled |
| Table.Table.NextHand | Blackjack/script.js:304-312 | back to betting with a bet of 0 |
| Table.Table.NewGame | Blackjack/script.js:314-334 | balance 1000, empty record and hands, betting; the shoe and its count are kept |
| JumperCommon.Abs | Jurassic-Jumper/game.js:147 | `Math.abs`: non-negative and equal to x or −x |
| JumperCommon.Min | Jurassic-Jumper/game.js:74 | `Math.min`: below both arguments and equal to one |
| JumperCommon.MaxInt | Jurassic-Jumper/game.js:140 | `Math.max`: above both arguments and equal to one |
| JumperCommon.Scale | Jurassic-Jumper/game.js:77 | random · m lies in [0, m) for positive m |
| JumperCommon.Filter | Jurassic-Jumper/game.js:171 | `filter` keeps exactly the elements that pass, and no others; a one-element list is kept or emptied by its element's test |
| JumperCommon.FilterAppend | Jurassic-Jumper/game.js:171 | filtering distributes over concatenation, so the kept elements stay in order and with their multiplicity |
| JumperPlatforms.Difficulty | Jurassic-Jumper/game.js:74 | `getDiff` is at most 1, non-negative for a non-negative score, 1 exactly from score 6000 on, and score / 6000 below that |
| JumperPlatforms.DifficultyMonotone | Jurassic-Jumper/game.js:74 | the difficulty never drops as the score grows |
| JumperPlatforms.KindFor | Jurassic-Jumper/game.js:79-83 | no breakable below difficulty 0.3; static exactly below the band's first threshold (0.88, 0.65 or 0.45) |
| JumperPlatforms.MakePlatform | Jurassic-Jumper/game.js:76-91 | w in [80, 140), x in [0, W − w), height 16, speed 0 unless moving and ±(1.5 + 3 · diff) if moving, range in [50, 110 + 80 · diff], at rest at its start, intact |
| JumperPlatforms.PlatformTickMoves | Jurassic-Jumper/game.js:145-148 | a moving platform moves by speed · dir and flips dir exactly when it ends more than range from its start; others do not move |
| JumperPlatforms.PlatformTick | Jurassic-Jumper/game.js:144-151 | one pass of the platform loop on one platform: move and maybe flip a moving one, then the break timer, then the pop timer (properties in `PlatformTickMoves`, `PlatformTickKeepsShape`, `TimersCountDown`) |
| JumperPlatforms.PlatformTickKeepsShape | Jurassic-Jumper/game.js:144-151 | a platform tick keeps the platform invariant, in particular the oscillation bound of a moving platform |
| JumperPlatforms.MovingPlatformStaysNearStart | Jurassic-Jumper/game.js:145-147 | a moving platform stays within range plus one step of its start |
| JumperPlatforms.HitPlatformKeepsShape | Jurassic-Jumper/game.js:162-164 | a landing pops a spring to 10, breaks a breakable with timer 20, breaks nothing else, and keeps the invariant |
| JumperPlatforms.HitPlatform | Jurassic-Jumper/game.js:162-164 | a landing's effect on the platform: a spring pops for 10 ticks, a breakable breaks with timer 20 |
| JumperPlatforms.Expired | Jurassic-Jumper/game.js:171 | the clean-up's timer test: broken with its timer at 0 or below |
| JumperPlatforms.Survives | Jurassic-Jumper/game.js:171 | the clean-up's keep test: not expired and above the bottom of the screen |
| JumperPlatforms.TimersCountDown | Jurassic-Jumper/game.js:149-150 | after n ticks the pop timer, and the break timer of a broken platform, are max(0, t − n); the broken flag never changes; a broken platform is expired exactly from tick t on |
| JumperPlatforms.BrokenPlatformLastsTwentyTicks | Jurassic-Jumper/game.js:149-171 | a breakable that is landed on expires (fails the clean-up's timer test) exactly from the 20th tick after the landing, and not before |
| JumperPlatforms.Gap | Jurassic-Jumper/game.js:96 | each generation gap lies in [70, 90 + 100 · diff) |
| JumperPlatforms.Steps | Jurassic-Jumper/game.js:95-96 | a bound on the remaining iterations, at least 1 while y > toY |
| JumperPlatforms.StepsDecrease | Jurassic-Jumper/game.js:95-96 | a step of at least 70 lowers the bound, so generation terminates |
| JumperPlatforms.Strip | Jurassic-Jumper/game.js:93-99 | `genPlatforms` pushes nothing exactly when fromY ≤ toY, at most the bound's count, every platform above fromY, well-shaped and intact |
| JumperPlatforms.StripHead | Jurassic-Jumper/game.js:95-97 | the first pushed platform is one gap above fromY, followed by the strip from there |
| JumperPlatforms.AppendedStrip | Jurassic-Jumper/game.js:97 | pushed platforms keep their shape once appended to the list |
| JumperPlatforms.StripGaps | Jurassic-Jumper/game.js:95-97 | consecutive pushed platforms are a gap in [70, 90 + 100 · diff) apart |
| JumperPlatforms.StripStops | Jurassic-Jumper/game.js:95-97 | every pushed platform but the last is below toY, the last at or above it |
| JumperActors.StartPlayer | Jurassic-Jumper/game.js:106 | the start player is 64 × 64, on screen, jumping with JUMP_VEL |
| JumperActors.Steer | Jurassic-Jumper/game.js:121-123 | left sets −5.5, else right sets 5.5, else the speed decays by a quarter |
| JumperActors.MovePlayer | Jurassic-Jumper/game.js:121-133 | gravity, prevY and position update; after the wrap −w ≤ x ≤ W, with each wrap case stated |
| JumperActors.LandingBounces | Jurassic-Jumper/game.js:161-163 | a landing puts the feet on the platform top and sends the player up; a spring sends it up faster |
| JumperActors.Lands | Jurassic-Jumper/game.js:156-160 | the landing test: an intact platform, feet at most half the platform's height below its top before the move and at or below its top after, and more than 4 of horizontal overlap on each side |
| JumperActors.LandOn | Jurassic-Jumper/game.js:161-163 | the player stands on the platform top with the spring or the jump velocity (see `LandingBounces`) |
| JumperActors.FirstLanding | Jurassic-Jumper/game.js:155-166 | the first platform in list order the player lands on; none exactly when no platform is landed on |
| JumperActors.AsteroidTickAdvances | Jurassic-Jumper/game.js:191-200 | a tick lowers the warning count by one, pins a warning asteroid above the camera, and drops a falling one by exactly 2.5 |
| JumperActors.Spawn | Jurassic-Jumper/game.js:181-186 | a new asteroid at the given x, one asteroid size above the camera, warning for 300 ticks, not falling |
| JumperActors.AsteroidTick | Jurassic-Jumper/game.js:191-200 | one pass of the asteroid loop: a warning asteroid counts down pinned above the camera and starts falling at 0; a falling one drops 2.5 (see `AsteroidTickAdvances`, `AsteroidLifecycle`) |
| JumperActors.AsteroidLifecycle | Jurassic-Jumper/game.js:182-199 | a new asteroid warns for 300 ticks counting its spawn tick, pinned above each tick's camera, then falls 2.5 per tick |
| JumperActors.DroppedStrikeMeansFell | Jurassic-Jumper/game.js:203-220 | an asteroid the clean-up removes can only strike a player who has already fallen |
| JumperActors.Strikes | Jurassic-Jumper/game.js:204-209 | the strike test: a falling asteroid whose box, shrunk by a 10 margin, overlaps the shrunk player box in screen coordinates |
| JumperActors.OnScreen | Jurassic-Jumper/game.js:217 | the asteroid clean-up's keep test: less than 100 below the bottom of the screen |
| JumperActors.Fell | Jurassic-Jumper/game.js:220 | the fall test: the player more than 50 below the bottom of the screen |
| JumperWorld.SpawnDelay | Jurassic-Jumper/game.js:105 | the next asteroid delay lies in [360, 720) |
| JumperWorld.StartPlatform | Jurassic-Jumper/game.js:109-110 | the starting platform is static, 130 wide, 5 below the player's feet, well-shaped |
| JumperWorld.KeptPlatforms | Jurassic-Jumper/game.js:171 | exactly the platforms that are not expired and above the screen bottom survive (in order: `KeptPlatformsInOrder`) |
| JumperWorld.KeptPlatformsInOrder | Jurassic-Jumper/game.js:171 | the platform clean-up distributes over concatenation and keeps a single platform exactly when it survives, so it keeps order and multiplicity |
| JumperWorld.KeptAsteroids | Jurassic-Jumper/game.js:217 | exactly the asteroids less than 100 below the screen bottom survive (in order: `KeptAsteroidsInOrder`) |
| JumperWorld.KeptAsteroidsInOrder | Jurassic-Jumper/game.js:217 | the same for the asteroid clean-up |
| JumperWorld.TickedPlatforms | Jurassic-Jumper/game.js:144-151 | the list after the platform loop: same length, each platform ticked once in place |
| JumperWorld.Landing | Jurassic-Jumper/game.js:154-166 | the platform the collision loop bounces off: only while falling, a landed-on platform with none before it in the list; none exactly when not falling or nothing is landed on |
| JumperWorld.HighestY | Jurassic-Jumper/game.js:174-175 | `topY`: at most the camera and every platform's y, and equal to the camera or to some platform's y |
| JumperWorld.Refilled | Jurassic-Jumper/game.js:170-176 | the platform list after the clean-up and refill: the survivors in order, then, when `HighestY` of them is less than two screens above the camera, the strip from there up to three screens above it (shape in `RefilledShaped`) |
| JumperWorld.RefilledShaped | Jurassic-Jumper/game.js:170-176 | the clean-up and refill of well-shaped platforms leaves only well-shaped platforms that all survive the next clean-up |
| JumperWorld.TickedAsteroids | Jurassic-Jumper/game.js:191-200 | the list after the asteroid loop: same length, each asteroid ticked once against the camera |
| JumperWorld.AnyStrike | Jurassic-Jumper/game.js:203-214 | the strike loop's verdict: some asteroid of the list passes the `Strikes` test |
| JumperWorld.World.constructor | Jurassic-Jumper/game.js:20-26 | the start screen with best and score 0, no asteroids and no platforms, the start player, camera 0, startY at the player; also a zero accumulator and the clock's reading as `lastTime`, which game.js sets at lines 369-370 |
| JumperWorld.World.NextPlatform | Jurassic-Jumper/game.js:96-97 | one generation step: the strip is this platform followed by the strip one gap higher, and the bound drops |
| JumperWorld.World.GenPlatforms | Jurassic-Jumper/game.js:93-99 | the push loop appends exactly the strip, every new platform above fromY and well-shaped |
| JumperWorld.World.InitGame | Jurassic-Jumper/game.js:102-112 | score 0, camera 0, no asteroids, the start player, a delay in range, the start platform then the strip up to three screens; best and state unchanged |
| JumperWorld.World.StartGame | Jurassic-Jumper/game.js:114 | a fresh run in play: score 0, camera 0, the start player with startY at it, no asteroids, a spawn delay from the draw, the start platform followed by the strip up to three screens; best unchanged |
| JumperWorld.World.Begin | Jurassic-Jumper/game.js:37-40 | starts exactly that fresh run when none is in play, otherwise changes nothing |
| JumperWorld.World.MoveAndScroll | Jurassic-Jumper/game.js:121-141 | the moved player, a camera that only rises, score = max(old, floor(climb)), best = max(old, score) |
| JumperWorld.World.TickPlatforms | Jurassic-Jumper/game.js:144-151 | the list becomes `TickedPlatforms` of the old one: every platform takes exactly one tick, in place, and keeps its shape |
| JumperWorld.World.Collide | Jurassic-Jumper/game.js:154-168 | with `Landing` of the player and the list: the landed-on platform alone bounces the player (`LandOn`) and takes the landing's effect (`HitPlatform`); with none, nothing changes |
| JumperWorld.World.TopY | Jurassic-Jumper/game.js:174-175 | the loop returns `HighestY` of the list: the minimum of the camera and all platform heights |
| JumperWorld.World.CleanAndExtend | Jurassic-Jumper/game.js:170-176 | the list becomes `Refilled` of the old one: the survivors in order, followed by the strip from their top when it is less than two screens up; all survive and are well-shaped |
| JumperWorld.World.SpawnAsteroid | Jurassic-Jumper/game.js:179-188 | the timer drops by one; at zero a new asteroid is spawned above the camera and the timer rearmed in range |
| JumperWorld.World.TickAsteroids | Jurassic-Jumper/game.js:191-200 | the list becomes `TickedAsteroids` of the old one: every asteroid takes exactly one tick and is pinned afterwards |
| JumperWorld.World.CheckStrikes | Jurassic-Jumper/game.js:203-214 | the state becomes OVER exactly when some asteroid strikes the player |
| JumperWorld.World.FinishTick | Jurassic-Jumper/game.js:217-224 | the asteroid clean-up, and OVER exactly on a fall or a strike by a remaining asteroid |
| JumperWorld.World.PlayerAndPlatforms | Jurassic-Jumper/game.js:120-176 | the first half of a tick: camera and score from the moved player; the player is the moved player, bounced by `LandOn` when `Landing` finds a platform in the ticked list; the platforms are `Refilled` of the ticked list with that platform hit |
| JumperWorld.World.AsteroidsAndEnd | Jurassic-Jumper/game.js:178-224 | the second half of a tick: the timer counts down and at zero rearms with a spawn appended; the list becomes the kept, ticked, possibly spawned list; OVER exactly on a fall or a strike |
| JumperWorld.World.Update | Jurassic-Jumper/game.js:117-225 | nothing unless in play; in play every field's new value: the camera, score and best, the moved and possibly bounced player, the refilled platforms, the ticked and kept asteroids with any spawn, the timer; PLAY becomes OVER exactly on a fall or a strike |
| JumperWorld.World.Frame | Jurassic-Jumper/game.js:372-376 | at most 5 updates; the accumulator equals the capped total minus the ticks run, below one TICK and non-negative for non-negative elapsed time, which fixes the number of ticks; outside a run the world is unchanged but for the clock and the accumulator; the camera never descends and score and best never drop |

## Left out

- Rendering, the DOM, animation, audio and `await`ed delays of both games are not modelled, because they do not change the game state. Blackjack's `isRed`, the deal button's display and the empty-balance overlay go with them.
- A Blackjack operation takes one sequence of shuffle draws and reuses it for any rebuild of the shoe during that call. This is because the draws are parameters; a real run would draw afresh.
- `startHand` has no phase guard, only the bet, balance and busy tests. The model follows the code: a hand can start from the result phase as long as the bet still qualifies.
- The settlement has no dealer-natural rule. A dealer natural against a player's three-card 21 is a push, following the code.
- `newGame` keeps the shoe and its count, following the code.
- SPRING_VEL is JUMP_VEL · √2, which is irrational. It is written as the double's printed decimal, and the proofs use only SPRING_VEL < JUMP_VEL < 0.
- Positions are exact reals rather than doubles, and TICK is exactly 1000/60. Float rounding is not modelled.
- Platforms, the player and asteroids are values in sequence fields, updated element by element. JavaScript object aliasing is not modelled.
- Held keys are two booleans (left, the arrow or A key; right, the arrow or D key) rather than the `keys` map.
- The World constructor gives values to the globals that `game.js` leaves undefined or unset until the first `initGame` (Jurassic-Jumper/game.js:22): `player` (the start player), `platforms` (empty), `score` (0), `cameraY` (0) and `startY` (the start player's y). Nothing reads them before `initGame`.
- JumperWorld.World.Frame: in a run it states the ticks taken, the accumulator and the monotone camera, score and best, and keeps `Valid`, but not the world after the frame as a composition of `ticks` updates; each `Update` states its own step in full.
- JumperActors.MovePlayer: states the wrap bound −w ≤ x ≤ W only for a non-negative width, which every player has.
- JumperPlatforms.Strip: states the shape and height bounds of the pushed platforms; the other properties of each `makePlatform` call are stated by `MakePlatform`, and the gaps by `StripGaps` and `StripStops`.
