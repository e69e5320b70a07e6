# wx-game-demo rule layer, modelled in Dafny

This project models the game-rule and scheduling layer of a WeChat mini-game. In the game a player chases an enemy through a generated city. On reaching the enemy the player starts a 15-hit combo, and the completed combo scores points. Billboards on the buildings show rotating ads.

Around that loop sit four other parts:
- a scene manager that lays out the buildings and ad spots and keeps the table of ads on show;
- an ad manager that rotates the ad each billboard shows;
- an anti-addiction manager that limits minors' daily play time;
- a profile store that caches the player's record.

One Dafny module stands for each source file of the core.

| module | file | source |
|---|---|---|
| `Characters` | Character.dfy | models/Character.js |
| `SceneLayout`, `AdSlots`, `Scene` | Layout.dfy, AdSlots.dfy, SceneManager.dfy | managers/SceneManager.js |
| `Ads` | AdManager.dfy | managers/AdManager.js |
| `Session` | GameManager.dfy | managers/GameManager.js |
| `AntiAddiction` | AntiAddiction.dfy | managers/AntiAddictionManager.js |
| `Storage` | Storage.dfy | managers/StorageManager.js |
| `Config` | Config.dfy | game.config.js |
| `Common`, `Decimal` | Common.dfy, Decimal.dfy | helpers shared by the modules above |

`Decimal` covers the decimal text in the generated ids and JavaScript's `parseInt` without a radix, which reads a `0x`/`0X` prefix as base 16.

## How it is modelled

- **Objects stay objects.** Each class whose methods update fields in place is a Dafny `class` with the same fields: `Character`, `SceneManager`, `AdManager`, `GameManager`, `AntiAddictionManager` and `StorageManager`.
  - Each method is proved against a pure specification function of the old state. Examples:
    - `AddDashEnergy` against `Charged`;
    - `UpdateAds` against `UpdatedAds`;
    - `TimerTick` against `Tick`.
  - The properties the source promises are then lemmas about those functions.
- **Loops stay loops.** The push loops of `generateBuildings` and `generateAdSpots` are `while` loops. So are the in-place deletion from and refill of the `activeAds` Map, and the per-entry overwrite of the `ads` Map. Each loop carries its invariant.
- **Randomness and clocks are inputs.** Each `Math.random()` is a draw in [0, 1). `Date.now()` is a `now` argument and `new Date()` is a `today` argument.
- **Trigonometry is replaced by its inputs.** `repositionEnemy` gets a unit direction `(ux, uz)` with `ux² + uz² = 1` in place of `cos`/`sin` of a random angle. Distances are compared squared: `dx² + dz² <= 100²` stands for `sqrt(dx² + dz²) <= 100`.
- **A JavaScript Map is an ordered sequence or a key list plus a map.**
  - The `activeAds` Map of the scene is a sequence of `ActiveAd` in insertion order. Each entry carries its own key, the spot id.
  - The `ads` Map of the ad manager is a key list in insertion order plus a Dafny `map`.
- **Values outside a type are explicit.**
  - NaN from `parseInt` is `Age.NotANumber`. Every comparison with it is false, as in JavaScript.
  - An unset `playTimeLimit` is `Limit.Unset`, and `Infinity` is `Limit.Unlimited`.
- **Storage is a map with success flags.**
  - Platform storage is a `map` field.
  - Every asynchronous storage call takes a flag that says whether it succeeded.
  - `JSON.stringify` followed by `JSON.parse` is the identity.

Points where the code, not the design, decides the behaviour. The model follows the code in each case.
- `GameManager.update` would refresh the ad table in every phase, including PAUSED and OVER (managers/GameManager.js:61-64), had its ad calls existed. The game loop in game/Game.js gates its own ad update on the pause flag instead. The model keeps the ad update ungated. As written, the ad calls of `update` throw, so the refresh is never reached (see "## Left out").
- `resumeGame` always returns to PLAYING, even when the pause came mid-fight. The player keeps `isAttacking`, and the next catch starts a fresh combo. OVER is not terminal: `startGame` restarts from any phase.
- `initGame` and `update` call `adManager.init`, `refreshAds` and `getActiveAds`, none of which `AdManager` defines. Each call throws a TypeError. The model instead assumes an ad source that answers, and the ads `update` places on the scene are an argument of `Session.GameManager.Update`.
- A NaN age gets no play-time limit from `setAgeRestrictions`, but `checkPlayTime` applies the 180-minute band to it (`AntiAddiction.NotANumberBandsDisagree`).
- A minor verified at start-up never has `playTimeLimit` set, so `canContinuePlay` is false for them (`AntiAddiction.UnsetLimitStopsMinors`).
- `canMakePayment` compares with a `paymentLimit` that the manager never assigns, so players aged 8 to 17 can never pay (`AntiAddiction.CanMakePayment`).
- The anti-addiction manager writes its `playTimeData` record straight to platform storage, bypassing the `StorageManager` cache.

## Model

| member | source | states |
|---|---|---|
| Config.FindById | managers/SceneManager.js:13 | `find` by id succeeds iff some scene type has that id; the one found carries the id and is the first such entry |
| Config.KnownSceneTypes | game.config.js:15-49 | exactly `city`, `suburb` and `park` are known, and each has positive spacing, a non-empty height range and a positive building count |
| Decimal.NatToString | managers/SceneManager.js:33 | the `${i}` rendering is a non-empty digit string without leading zero |
| Decimal.ParseNatToString | managers/SceneManager.js:33 | reading back the decimal rendering used in `building_${i}` / `ad_spot_${i}` gives the number |
| Decimal.ParseLeadingInt | managers/AntiAddictionManager.js:123-125 | `parseInt` of a digit run: NaN iff the text does not start with a digit; an all-digit text reads as its value |
| Decimal.ParseLeadingHex | managers/AntiAddictionManager.js:123-125 | the base-16 digit run behind a `0x` prefix: NaN iff it does not start with a hex digit; an all-hex text reads as its base-16 value |
| Decimal.ParseMagnitude | managers/AntiAddictionManager.js:123-125 | after the sign, `parseInt` finds a number iff a hex digit follows a `0x` prefix or, without the prefix, a decimal digit comes first; decimal and hex texts read as their values |
| Decimal.ParseSignedInt | managers/AntiAddictionManager.js:123-125 | `parseInt` with no radix: NaN iff no digit of the chosen base follows the sign and prefix; a decimal text reads in base 10, a `0x` text in base 16; the sign decides the sign of the result |
| Decimal.HexPrefixRead | managers/AntiAddictionManager.js:123 | `"0x19"` reads as 25 and `"-0x19"` as -25, `"0X1f"` as 31, `"0x1g"` as 1, and a bare `"0x"` is NaN |
| Decimal.Substring | managers/AntiAddictionManager.js:123-125 | `substring(a, b)` clamps to the length and returns the characters from `a` on |
| Characters.InitialAppearance | models/Character.js:14-31 | a new appearance has exactly the `face` and `outfit` categories with exactly their six and four parts |
| Characters.Restyled | models/Character.js:110-114 | `updateAppearance` changes only `appearance[c][p]` and only if both exist; no category or part is ever added |
| Characters.Charged | models/Character.js:71-73 | `addDashEnergy` sets energy to `min(100, old + a)`; only the energy changes; with `a >= 0` energy stays in [0, 100] and does not drop |
| Characters.Dashed | models/Character.js:76-82 | `dash` succeeds iff energy `>= 100`; success empties the gauge, failure changes nothing; energy stays in range |
| Characters.HitsCounted | models/Character.js:85-93 | after `startAttack` and `n` calls of `addAttackCount` the count is exactly `n`, and the combo is complete iff `n >= 15` |
| Characters.Character.constructor | models/Character.js:4-38 | a new character is at the origin, unrotated, with energy 0, not attacking, count 0, id from the options or the random id |
| Characters.Character.UpdatePosition | models/Character.js:41-45 | the position becomes exactly `(x, y, z)` and nothing else changes |
| Characters.Character.UpdateRotation | models/Character.js:48-52 | the rotation becomes exactly `(x, y, z)` and nothing else changes |
| Characters.Character.AddDashEnergy | models/Character.js:71-73 | the new state is `Charged(old, amount)`, changing only the energy |
| Characters.Character.Dash | models/Character.js:76-82 | new state and result are `Dashed(old)` |
| Characters.Character.StartAttack | models/Character.js:85-88 | sets `isAttacking` and resets the count, nothing else |
| Characters.Character.AddAttackCount | models/Character.js:90-93 | count goes up by exactly 1; returns true iff the new count is `>= ATTACK_COUNT` |
| Characters.Character.StopAttack | models/Character.js:95-98 | clears `isAttacking` and the count, nothing else |
| Characters.Character.UpdateAppearance | models/Character.js:110-114 | the appearance becomes `Restyled(old, c, p, v)` |
| SceneLayout.BuildingIdInjective | managers/SceneManager.js:33 | `building_i` and `building_j` are equal iff `i == j` |
| SceneLayout.SpotIdInjective | managers/SceneManager.js:75 | `ad_spot_i` and `ad_spot_j` are equal iff `i == j` |
| SceneLayout.GridSize | managers/SceneManager.js:29 | `ceil(sqrt(n))` is the least `g` with `g*g >= n` |
| SceneLayout.GridCellsDistinct | managers/SceneManager.js:29-42 | building `i` sits at column `i mod g`, row `i div g < g`, and distinct indices occupy distinct cells |
| SceneLayout.RowInGrid | managers/SceneManager.js:29-42 | every building index below `n` lands in a row inside the `g × g` grid |
| SceneLayout.LayoutBuildings | managers/SceneManager.js:24-54 | exactly `buildingCount` buildings, building `i` built from draw `i` |
| SceneLayout.BuildingShape | managers/SceneManager.js:32-53 | building `i` is named `building_i`, stands at `y = 0`, has width = depth = `0.8 * spacing` and no ad spots yet |
| SceneLayout.HeightInRange | managers/SceneManager.js:45 | a draw in [0, 1) gives a height in `[minBuildingHeight, maxBuildingHeight)` |
| SceneLayout.PositionsDistinct | managers/SceneManager.js:35-42 | two different buildings never share a position |
| SceneLayout.FacingPointsInward | managers/SceneManager.js:86-90 | the spot faces along the axis of its larger coordinate (`z` on ties) and back towards the centre |
| SceneLayout.Indices | managers/SceneManager.js:62 | the copy `[...this.buildings]` starts as the distinct indices `0 .. n-1` in order |
| SceneLayout.RemoveAt | managers/SceneManager.js:69 | `splice(k, 1)` shortens the pool by one, adds nothing, and on a pool without repeats removes exactly the picked entry |
| SceneLayout.Choose | managers/SceneManager.js:62-70 | drawing without replacement takes `min(count, available)` distinct entries of the pool |
| SceneLayout.Spots | managers/SceneManager.js:72-92 | spot `k` is made from building `chosen[k]` |
| SceneLayout.Attach | managers/SceneManager.js:93 | attaching spot ids changes only the buildings' `adSpots` lists and keeps their number |
| SceneLayout.AttachAt | managers/SceneManager.js:93 | each chosen building gets exactly its spot id appended; every other building is untouched |
| SceneLayout.DrawStart | managers/SceneManager.js:60-63 | before the first pick the pool holds every building and no spot exists |
| SceneLayout.DrawStep | managers/SceneManager.js:63-93 | one iteration (pick, splice, spot push, id push) keeps the loop's invariant: the pool, the spots and the buildings so far are those of the first `i` draws |
| SceneLayout.DrawDone | managers/SceneManager.js:60-94 | when the draw loop ends (count reached or pool empty) its buildings and spots are the specified layout |
| SceneLayout.LayoutCounts | managers/SceneManager.js:25-70 | `buildingCount` buildings and `min(adPositions, buildingCount)` spots |
| SceneLayout.LayoutBuildingsSound | managers/SceneManager.js:29-53 | every building of the generated layout has its id, a height in range and a position of its own |
| SceneLayout.LayoutSpotsSound | managers/SceneManager.js:57-95 | spot `k` is `ad_spot_k` on an existing building no other spot uses, copies its `x`/`z` at `0.7 * height`, and that building lists exactly this spot; buildings without a spot list none |
| SceneLayout.SpotsOnDistinctBuildings | managers/SceneManager.js:62-70 | different spots name different buildings |
| AdSlots.Evict | managers/SceneManager.js:100-104 | eviction keeps exactly the entries younger than `MIN_DISPLAY_TIME` seconds and keeps keys unique |
| AdSlots.EvictWalkStep | managers/SceneManager.js:100-104 | deleting an expired entry during the walk, or stepping over a live one, keeps the table equal to the processed prefix's survivors followed by the unvisited entries |
| AdSlots.EvictWalkDone | managers/SceneManager.js:100-104 | the in-place deletion walk ends with exactly `Evict(before)` |
| AdSlots.FirstFreeFrom | managers/SceneManager.js:110-113 | the search from position `from` returns the first unoccupied spot at or after it, or none when all of them are occupied |
| AdSlots.FirstFree | managers/SceneManager.js:110-113 | the spot chosen is the first one in `adSpots` order not in the table; none is chosen only when all are taken |
| AdSlots.FillKeepsPrefix | managers/SceneManager.js:107-119 | the fill only appends, at most one entry per incoming ad |
| AdSlots.FillNewEntries | managers/SceneManager.js:113-117 | each new entry carries an incoming ad, a spot of the scene and `startTime = now` |
| AdSlots.FillBounded | managers/SceneManager.js:108 | a table within `MAX_ADS` stays within it, and a full table is left unchanged |
| AdSlots.FillKeysDistinct | managers/SceneManager.js:110-117 | the fill never puts two ads on one spot |
| AdSlots.FillDropsWhenNoSpotFree | managers/SceneManager.js:110-118 | when every spot is taken the incoming ads are dropped |
| AdSlots.UpdatedAdsProperties | managers/SceneManager.js:98-120 | after `updateAds`, no expired entry survives, every unexpired one stays unchanged, new entries start now on scene spots, keys stay unique spot ids, and the `MAX_ADS` bound is kept |
| Scene.SceneManager.constructor | managers/SceneManager.js:4-9 | empty scene and empty ad table |
| Scene.SceneManager.InitScene | managers/SceneManager.js:12-21 | succeeds iff the type is known; an unknown type changes nothing; otherwise the layout is the generated one for that type |
| Scene.SceneManager.GenerateBuildings | managers/SceneManager.js:24-54 | the push loop builds exactly `LayoutBuildings(type, draws)` |
| Scene.SceneManager.GenerateAdSpots | managers/SceneManager.js:57-95 | the draw loop leaves exactly the layout `Drawn` specifies |
| Scene.DrawSpots | managers/SceneManager.js:60-94 | the loop of `generateAdSpots`, with its splice and its pushes, computes `Drawn(buildings, draws)` |
| Scene.SceneManager.UpdateAds | managers/SceneManager.js:98-120 | the table becomes `UpdatedAds(old, spots, ads, now)` and keeps unique keys within `MAX_ADS` |
| Scene.SceneManager.RemoveExpired | managers/SceneManager.js:100-104 | the deletion loop leaves exactly `Evict(old, now)` |
| Scene.SceneManager.AddAds | managers/SceneManager.js:107-119 | the fill loop with its early `break` leaves exactly `Fill(old, spots, ads, now)` |
| Scene.SceneManager.GetSceneData | managers/SceneManager.js:123-130 | the snapshot holds the scene's fields, its ad list is the table's values in insertion order, with unique keys within `MAX_ADS` |
| Ads.NextIndex | managers/AdManager.js:151 | the next index is below `SPOT_ADS.length` and differs from an in-range current one |
| Ads.Rotated | managers/AdManager.js:149-162 | a due entry moves to the next index at time `t` and keeps its spot; one not due is unchanged |
| Ads.RotatedChangesIffDue | managers/AdManager.js:149 | an entry changes iff `t - lastUpdateTime >= ROTATION_INTERVAL` |
| Ads.RotationCycles | managers/AdManager.js:151 | three consecutive rotations bring a slot back to its index |
| Ads.Announcements | managers/AdManager.js:152-155 | every notice names a registered slot that is due, with the content at its new index |
| Ads.AnnouncementsComplete | managers/AdManager.js:145-163 | every due slot is announced, with the ad at its new index |
| Ads.AnnouncementsInKeyOrder | managers/AdManager.js:145-163 | with distinct keys the notices follow the Map's key order, so no slot is announced twice in one pass |
| Ads.Registered | managers/AdManager.js:132-141 | the table's keys are exactly the spot ids |
| Ads.RegisteredKeys | managers/AdManager.js:133-140 | the insertion order of the Map holds every spot id exactly once and nothing else |
| Ads.RegisteredFresh | managers/AdManager.js:135-139 | every registered entry has index 0 and time 0 and the spot of that id |
| Ads.RegisteredKeysInOrder | managers/AdManager.js:133-140 | with distinct spot ids the key order is the spot order |
| Ads.RotatedTable | managers/AdManager.js:144-165 | `updateAds` keeps the key set and keeps every index in `[0, 3)` |
| Ads.RotateAll | managers/AdManager.js:144-165 | the per-entry loop computes exactly `RotatedTable` and `Announcements` |
| Ads.AdManager.constructor | managers/AdManager.js:4-11 | an empty table |
| Ads.AdManager.UpdateAdSpots | managers/AdManager.js:132-141 | the table is replaced by the fresh registration of the given spots |
| Ads.AdManager.UpdateAds | managers/AdManager.js:144-165 | the table becomes `RotatedTable(old, t)` and the notices are `Announcements(keys, old, t)` |
| Ads.AdManager.Dispose | managers/AdManager.js:168-179 | the ad table is empty |
| Session.Reach | managers/GameManager.js:131 | the placement radius `30 + r*50` lies in [30, 80) |
| Session.Repositioned | managers/GameManager.js:124-135 | repositioning keeps `y`, and with no buildings keeps the position |
| Session.RepositionDistance | managers/GameManager.js:124-135 | the enemy lands exactly at the drawn radius, in [30, 80), from the drawn building |
| Session.DeltaSeconds | managers/GameManager.js:49 | the elapsed seconds are not negative when the clock does not go back |
| Session.ChaseCatchesIffClose | managers/GameManager.js:84-95 | a PLAYING tick recharges a gauge below 100 by `dt * 10`, clamped at 100, then switches to FIGHTING with a fresh combo iff the planar distance is `<= CATCH_DISTANCE` |
| Session.FightEndsIffComboDone | managers/GameManager.js:98-121 | a FIGHTING tick completes iff `isAttacking` and the count is `>= 15`; completion adds exactly 10, stops the attack with its count at 0, moves the enemy and returns to PLAYING; otherwise only the clock moves |
| Session.IdleTickOnlyMovesClock | managers/GameManager.js:47-56 | in INIT, PAUSED and OVER a tick changes nothing but the clock |
| Session.StepKeepsSessionOk | managers/GameManager.js:40-177 | every operation keeps energy in range, the score a non-negative multiple of 10, and FIGHTING implies attacking; the score never drops |
| Session.RunKeepsSessionOk | managers/GameManager.js:40-177 | the same holds along any sequence of operations whose clock does not go back |
| Session.GameManager.constructor | managers/GameManager.js:7-24 | INIT, score 0, no characters, an empty scene |
| Session.GameManager.InitGame | managers/GameManager.js:27-37 | fresh characters, score 0, INIT; the scene type defaults to `city`; the scene is built iff its type is known and is left as it was otherwise; `ok` reports the scene-type check only |
| Session.GameManager.NewRound | managers/GameManager.js:28-31 | two distinct fresh characters at the origin with no energy and no combo, score 0, INIT |
| Session.GameManager.StartGame | managers/GameManager.js:40-44 | PLAYING, clock at `now`, enemy repositioned; of the characters only the enemy's position may change |
| Session.GameManager.Update | managers/GameManager.js:47-65 | the session view becomes `Ticked(old)`; with an ad source that answers (none exists as written, see "## Left out"), the scene's ad table becomes `UpdatedAds(old)`; the characters' ids, speeds and appearances are untouched |
| Session.GameManager.UpdateChasePhase | managers/GameManager.js:84-95 | the view becomes `ChaseStep(old, dt)`; only the player's gauge and attack fields may change |
| Session.GameManager.UpdateFightPhase | managers/GameManager.js:98-105 | the view becomes `FightStep(old)`; only the player's attack fields and the enemy's position may change |
| Session.GameManager.StartFighting | managers/GameManager.js:108-111 | FIGHTING with the player's attack started; only the phase and the player's attack fields may change |
| Session.GameManager.OnFightingComplete | managers/GameManager.js:114-121 | the view becomes `Completed(old, success)`; only the player's attack fields and the enemy's position may change |
| Session.GameManager.RepositionEnemy | managers/GameManager.js:124-135 | only the enemy's `x`/`z` change, to `Repositioned(old)` |
| Session.GameManager.DistanceSquared | managers/GameManager.js:138-142 | the squared planar distance is non-negative and at most `100²` iff `Caught` holds; a bridge from `UpdateChasePhase` to `ChaseStep` |
| Session.GameManager.AddScore | managers/GameManager.js:145-147 | the score grows by exactly the amount |
| Session.GameManager.PauseGame | managers/GameManager.js:160-164 | PAUSED only from PLAYING or FIGHTING |
| Session.GameManager.ResumeGame | managers/GameManager.js:167-172 | only from PAUSED, always to PLAYING, clock re-based to `now` |
| Session.GameManager.EndGame | managers/GameManager.js:175-177 | OVER unconditionally |
| AntiAddiction.CalculateAge | managers/AntiAddictionManager.js:122-137 | NaN iff the year characters do not parse; otherwise the year difference, or one less |
| AntiAddiction.HexBirthYear | managers/AntiAddictionManager.js:123 | a year field `0x19` is read as the year 25, so such an id dated 16 October 2026 gives age 2001 |
| AntiAddiction.AgeCountsBirthdays | managers/AntiAddictionManager.js:122-137 | for an id with YYYYMMDD digits at characters 6-13 the age is the number of birthdays on or before today, the birthday itself included |
| AntiAddiction.AgeRestriction | managers/AntiAddictionManager.js:140-157 | under 8: 60 minutes, payment disabled; 8 to 15: 120 minutes and cap 50; 16 and 17: 180 minutes and cap 100; otherwise (NaN too) no limit and no payment restriction, and only then |
| AntiAddiction.RestrictionGrowsWithAge | managers/AntiAddictionManager.js:140-157 | an older player never gets a smaller limit |
| AntiAddiction.DailyLimit | managers/AntiAddictionManager.js:224-230 | the limit `checkPlayTime` uses is 60 minutes iff under 8, 120 iff 8 to 15, and 180 otherwise (16 and over, or NaN) |
| AntiAddiction.BandsAgree | managers/AntiAddictionManager.js:140-230 | for every numeric age under 18 the two band tables agree |
| AntiAddiction.NotANumberBandsDisagree | managers/AntiAddictionManager.js:140-230 | a NaN age gets no limit from one table and 180 minutes from the other |
| AntiAddiction.Checked | managers/AntiAddictionManager.js:220-242 | nothing happens unless verified and not adult; the warning fires iff not yet shown and at most 15 minutes remain; forced offline iff the limit is reached, which stops the timer; a forced logout always comes with the warning shown |
| AntiAddiction.Tick | managers/AntiAddictionManager.js:199-209 | a running timer adds exactly one minute and then runs `Checked`; a stopped timer does nothing |
| AntiAddiction.WarnsAtMostOnce | managers/AntiAddictionManager.js:233-236 | over any number of timer firings the warning is raised at most once, never again once shown |
| AntiAddiction.TicksStayWithinLimit | managers/AntiAddictionManager.js:199-242 | a supervised player whose timer runs below the limit never plays past it |
| AntiAddiction.CanContinuePlay | managers/AntiAddictionManager.js:296-300 | never without verification; always for a verified adult |
| AntiAddiction.ContinueMatchesForcedOffline | managers/AntiAddictionManager.js:296-300 | after the restrictions are set, a minor may go on exactly while the check would not log them out |
| AntiAddiction.UnsetLimitStopsMinors | managers/AntiAddictionManager.js:296-300 | with the limit never set, no one not known to be adult may go on |
| AntiAddiction.CanMakePayment | managers/AntiAddictionManager.js:303-308 | payment is allowed iff verified and adult |
| AntiAddiction.Loaded | managers/AntiAddictionManager.js:160-181 | a readable record dated today keeps its minutes; anything else starts the day at 0, and a successful save leaves a new record of today with 0 minutes, a failed one the old record |
| AntiAddiction.ReloadSameDay | managers/AntiAddictionManager.js:160-181 | loading again on the same day keeps the minutes |
| AntiAddiction.AntiAddictionManager.constructor | managers/AntiAddictionManager.js:4-11 | unverified, age 0, no minutes, no warning, no timer, no limit |
| AntiAddiction.AntiAddictionManager.AcceptRealNameInfo | managers/AntiAddictionManager.js:19-23 | verified with the stored age, play time loaded, limit left unset |
| AntiAddiction.AntiAddictionManager.HandleVerificationSuccess | managers/AntiAddictionManager.js:95-119 | after a successful cloud write: verified, age from the id, restrictions of that age; after a failed one nothing changes |
| AntiAddiction.AntiAddictionManager.SetAgeRestrictions | managers/AntiAddictionManager.js:140-157 | the limit and payment rule are those of `AgeRestriction(userAge)` |
| AntiAddiction.AntiAddictionManager.LoadPlayTime | managers/AntiAddictionManager.js:160-181 | minutes and stored record are `Loaded(...)`; the date becomes today |
| AntiAddiction.AntiAddictionManager.SavePlayTime | managers/AntiAddictionManager.js:184-196 | a successful write stores the date and the minutes |
| AntiAddiction.AntiAddictionManager.StartTiming | managers/AntiAddictionManager.js:199-209 | the timer runs afterwards |
| AntiAddiction.AntiAddictionManager.StopTiming | managers/AntiAddictionManager.js:212-217 | the timer is stopped afterwards |
| AntiAddiction.AntiAddictionManager.TimerTick | managers/AntiAddictionManager.js:203-207 | state and notice are `Tick(old)`; the record saved holds the new minute count |
| AntiAddiction.AntiAddictionManager.CheckPlayTime | managers/AntiAddictionManager.js:220-242 | state and notice are `Checked(old)` |
| Storage.Merged | managers/StorageManager.js:115-135 | the saved record is an object |
| Storage.MergedKeys | managers/StorageManager.js:115-135 | the saved record has the keys of both records and all four nested groups |
| Storage.MergedOverrides | managers/StorageManager.js:113-137 | outside the groups a key of `updates` wins and other keys keep their values; inside a group the same holds one level down |
| Storage.ScoreRecorded | managers/StorageManager.js:184-196 | `score = s`, `highScore = max(s, old)`, `gamesPlayed + 1`, `totalScore + s`; every other statistic, every other top-level field and every field of the other nested groups is kept |
| Storage.CoinsAdded | managers/StorageManager.js:199-209 | `coins` and `statistics.totalCoins` both grow by the amount; every other statistic, every other top-level field and every field of the other nested groups is kept |
| Storage.WithItem | managers/StorageManager.js:212-221 | the id is in the list afterwards; a present id leaves the list as it was, a new one is appended at the end |
| Storage.WithItemKeepsDistinct | managers/StorageManager.js:212-221 | unlocking never creates a duplicate and never loses an item |
| Storage.MergedKeepsGameShape | managers/StorageManager.js:113-137 | merging updates of the right kinds keeps the record's numeric fields numeric and its item list a list |
| Storage.UpdatesKeepShape | managers/StorageManager.js:184-221 | the updates built by `recordGameScore`, `addCoins` and `unlockItem` are of those kinds |
| Storage.StorageManager.constructor | managers/StorageManager.js:2-4 | an empty cache over the given storage |
| Storage.StorageManager.Save | managers/StorageManager.js:7-20 | on success storage and cache both take the value and it returns true; on failure it returns false and neither changes; the cache stays a copy of storage |
| Storage.StorageManager.Load | managers/StorageManager.js:23-38 | a hit is answered from the cache; a successful miss is cached; a failed miss gives the default and leaves the cache; the value is the stored one whenever reachable |
| Storage.StorageManager.Remove | managers/StorageManager.js:41-50 | the cached entry goes only after the stored one did |
| Storage.StorageManager.Clear | managers/StorageManager.js:53-62 | the cache is emptied only after storage was |
| Storage.StorageManager.GetUserGameData | managers/StorageManager.js:65-105 | the stored record when reachable, else the default record; a successful read of an uncached record caches it, and nothing else in the cache changes |
| Storage.StorageManager.UpdateGameData | managers/StorageManager.js:113-137 | stores `Merged(current, updates)` when the save succeeds; rejects on a `null` record; the record is cached after a successful save or read, and no other cache entry changes |
| Storage.StorageManager.RecordGameScore | managers/StorageManager.js:184-196 | stores the record with the score recorded; the record keeps its shape and is cached after a successful save or read; no other cache entry changes |
| Storage.StorageManager.AddCoins | managers/StorageManager.js:199-209 | stores the record with the coins added; the record keeps its shape and is cached after a successful save or read; no other cache entry changes |
| Storage.StorageManager.UnlockItem | managers/StorageManager.js:212-221 | an item already unlocked writes nothing and returns true; a new one is appended and saved; the record is cached after a successful save or read, and no other cache entry changes |

## Left out

- Rendering, the camera and DOM/UI code are not part of this model: three.js objects, `GameManager.updateCamera`, `SceneManager.isAdVisible` and `Character.move`/`getActualSpeed`/`equipVehicle`/`equipWeapon`. They are float trigonometry or graphics side effects with no rule to state.
- The wx ad SDK (`AdManager.initAds`, `show*`, banner handling), `GameManager.handleAdReward` and the calls to `adManager.init`/`refreshAds`/`getActiveAds`, which `AdManager` does not define.
- `Session.GameManager.Update`: as written, `await this.adManager.refreshAds()` (managers/GameManager.js:62) throws after the phase step, so `update` rejects and never changes the scene's ad table. The model assumes an ad source that answers and places the list it is given as the `ads` argument, so its ad-table `ensures` describes the intended refresh, not the code as written.
- `Session.GameManager.InitGame`: as written, `await this.adManager.init()` (managers/GameManager.js:36) throws after `initScene`, so `initGame` always rejects, even after a successful set-up. `ok` reports only the scene-type check. The characters, score, phase and scene it leaves are those the code sets before the throw.
- `Session.GameManager.StartGame`, `PauseGame`, `ResumeGame` and `EndGame` require both characters to exist (`Valid()`), because their contracts are stated on `View()`, which reads the characters. The JavaScript versions touch only `gameState`, `lastUpdateTime` and, for `startGame`, the enemy, and can be called before `initGame`. Before `initGame` the scene has no buildings, so `repositionEnemy` returns at once and all four calls work; the model does not cover those calls.
- Concurrency: `async`/`await`, the `setInterval` timer (its body is `AntiAddiction.AntiAddictionManager.TimerTick`), and interleavings between awaits.
- `getRealNameInfo`, `promptRealNameVerification`, `startRealNameVerification` and the modals are wx platform calls. Their outcomes become arguments, and the pop-ups become the `Notice` result. `forceOffline`'s `game.end()` and `exitMiniProgram` are reported, not performed.
- The `getSettings`/`saveSettings`/`getCharacterAppearance`/… wrappers of `StorageManager` are one-line calls of `updateGameData` or `getUserGameData`.
- `getGameState` only copies fields. Its content is `Session.GameManager.View`.
- `Scene.SceneManager.UpdateAds`: one instant `now` stands for the separate `Date.now()` readings per entry.
- `Session.Repositioned`: the random angle and its `cos`/`sin` are replaced by a unit direction argument.
- `Session.GameManager.DistanceSquared`: the distance is compared squared rather than through `Math.sqrt`.
- `AntiAddiction.CalculateAge`: `parseInt`'s skipping of leading white space is not modelled. A field starting with a blank reads as NaN instead of its number. Its sign and its `0x` prefix are modelled.
- `Ads.AdManager.UpdateAds`: the time is a whole number of milliseconds. game/Game.js:243 passes `performance.now()`, which may have a fraction; only the comparison with `ROTATION_INTERVAL` and the stored time depend on it.
- `Storage.StorageManager`: the cache holds values, not shared object references. In JavaScript a caller that mutates an object returned by `load` also changes the cached copy until the next `save`; the model does not capture that aliasing.
- `Storage.Merged`: key order in the record is not modelled. Spreading a string or an array into a nested group, which copies indexed characters or items, is taken as copying nothing.
- `Storage.StorageManager.RecordGameScore`, `AddCoins` and `UnlockItem` require the stored record to have numeric score fields and an item list. The default record and every record these operations write have that shape. On other records JavaScript throws or stores NaN, which the model does not follow.
- `Storage.StorageManager.RecordGameScore`, `AddCoins` and `UnlockItem` read the record twice, the second time inside `updateGameData`. The model uses one storage-read outcome for both reads, so the two reads agree.
- Storage: a failed write is taken to leave storage as it was.
- Numbers: energy, positions and JSON numbers are exact reals. Integer-valued fields are unbounded integers. Floating-point rounding is not modelled.
