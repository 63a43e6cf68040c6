# Kiki & Toby: the game core, modelled in Dafny

Kiki & Toby is a location-based web app. Visitors walk a map of points of
interest, redeem partner visits by scanning a QR code, collect dialogue
fragments in an album, and at one place can play a short side-scrolling runner
mini-game. This project models the three parts of it that hold decision logic,
and proves properties of them.

- **The runner mini-game** (`minigame.dfy`, `geometry.dfy`).
  - The player is a 36×36 box at x = 80. Its only move is a jump.
  - Rats, poop and coins scroll in from the right edge. A weighted random spawner adds at most one entity per step, once 0.9 s of game time has built up since the last spawn; the leftover is dropped.
  - Touching a rat ends the run as a loss. Touching poop slows the game to 0.4×. Each coin touched is worth one point.
  - Surviving 20 s of game time is a win.
  - `World` is the run's state as a value, and each operation is a function on it (`Stepped`, `TrySpawned`, `Jumped`, `FrameDt`).
  - `Run` holds the same state in fields and updates it in place: its loops scroll, resolve collisions, collect coins and purge the queues from the front. Every method is proved to produce the `World` that its function gives.
  - `Inv` is the run invariant. `StepPreservesInv` shows that every step keeps it.
  - The two collision tests, box-box and box-circle, are in `Geometry`. Each is characterised geometrically.
- **The partner QR payload** `KT-PARTNER|<id>|<timestamp>` (`partner_qr.dfy`).
  - It has two revisions of `parseQR`: the older one splits the raw text, the newer one trims JavaScript whitespace first.
  - `Split` is proved against `Join`, which gives the round trip.
  - The acceptance of each revision is characterised exactly. Each has a round trip, and the lemmas show where the two revisions agree and where they differ.
- **The album store** (`album_store.dfy`): a mutable record with two counters (`moustaches` for Kiki, `pattes` for Toby) and the list of collected fragments.
  - Adding and clearing keep the counters equal to the per-character counts of the album.
  - Loading a stored record does not re-derive the counters from the album.

`js.dfy` holds the JavaScript number values the model needs: finite, infinite or NaN. It also has truthiness (`x || y`) and `+ 1`. `wrappers.dfy` holds `Option`, which stands for a `null` result.

## Model

| member | source | states |
|---|---|---|
| Geometry.Aabb | src/components/MiniGame.tsx:134-135 | the box-box test, a definition without a contract; `AabbSymmetric`, `AabbEdgeContactIsNoHit` and `AabbIffSharedInterior` characterise it |
| Geometry.RectCircle | src/components/MiniGame.tsx:136-141 | the box-circle test, a definition without a contract; `RectCircleIffNearPoint` characterises it |
| Geometry.AabbSymmetric | src/components/MiniGame.tsx:134-135 | box overlap does not depend on argument order |
| Geometry.AabbEdgeContactIsNoHit | src/components/MiniGame.tsx:134-135 | the inequalities are strict: boxes that only share an edge do not collide |
| Geometry.AabbIffSharedInterior | src/components/MiniGame.tsx:134-135 | for boxes of positive size, the test holds exactly when the two boxes have a common interior point |
| Geometry.Clamp | src/components/MiniGame.tsx:137-138 | `max(lo, min(v, hi))` lies in [lo, hi] and is v itself when v is already there |
| Geometry.ClampIsNearest | src/components/MiniGame.tsx:137-138 | the clamped coordinate is at least as close to v as any point of [lo, hi] |
| Geometry.WithinRadiusShrinks | src/components/MiniGame.tsx:139-140 | a point whose coordinate offsets are no larger than those of a point within the radius is itself within it |
| Geometry.RectCircleGivesNearPoint | src/components/MiniGame.tsx:136-141 | when the circle test holds, some point of the rectangle is strictly within r of the centre |
| Geometry.NearPointGivesRectCircle | src/components/MiniGame.tsx:136-141 | any point of the rectangle strictly within r of the centre makes the circle test hold |
| Geometry.RectCircleIffNearPoint | src/components/MiniGame.tsx:136-141 | the circle test holds exactly when the squared distance from the centre to the rectangle is below r² |
| Geometry.CentreInsideCollides | src/components/MiniGame.tsx:136-141 | a circle of positive radius whose centre is in the rectangle always collides |
| MiniGame.ConfigFor | src/components/MiniGame.tsx:91 | the ground line is the integer part of 0.8 × the canvas height |
| MiniGame.Initial | src/components/MiniGame.tsx:97-106 | a run starts alive, with score 0 and clock 0, and satisfies the run invariant |
| MiniGame.Jumped | src/components/MiniGame.tsx:109 | the jump handler, a definition without a contract; `Run.Jump` and `JumpThenStepRises` state what it does |
| MiniGame.Rand | src/components/MiniGame.tsx:116 | `rand(a, b)` for a given draw, a definition without a contract; `SpawnRanges` states the ranges it gives |
| MiniGame.SpawnRat | src/components/MiniGame.tsx:117 | the rat spawn, a definition without a contract; `SpawnRanges` and `TrySpawned` state where and how it spawns |
| MiniGame.SpawnPoop | src/components/MiniGame.tsx:118 | the poop spawn, a definition without a contract; `SpawnRanges` and `TrySpawned` state where and how it spawns |
| MiniGame.SpawnCoin | src/components/MiniGame.tsx:119 | the coin spawn, a definition without a contract; `SpawnRanges` and `TrySpawned` state where and how it spawns |
| MiniGame.SpawnRanges | src/components/MiniGame.tsx:117-119 | rats and poop stand on the ground; coins float 60 to 140 above it; each moves left at 260 plus its own jitter range |
| MiniGame.TrySpawned | src/components/MiniGame.tsx:122-131 | the accumulator gains dt, and is reset to 0 when it reaches 0.9 (the leftover is dropped), so it ends below 0.9; at most one entity is appended, exactly when the accumulator reaches 0.9, at x = W + 40 with negative velocity; rat iff roll < 0.45, poop iff 0.45 ≤ roll < 0.75, coin otherwise; nothing else changes |
| MiniGame.Fall | src/components/MiniGame.tsx:201-207 | after integration the player is never below the ground line; reaching it sets vy = 0 and grounded; otherwise vy gains gravity × dt, y moves by the new vy × dt, and grounded is unchanged |
| MiniGame.MoveObstacle | src/components/MiniGame.tsx:209 | one obstacle moved by vx × dt, a definition without a contract; `ScrollObstacles` and `ScrollKeepsWellFormed` use it |
| MiniGame.MoveCoin | src/components/MiniGame.tsx:210 | one coin moved by vx × dt, a definition without a contract; `ScrollCoins` and `ScrollKeepsWellFormed` use it |
| MiniGame.ScrolledObs | src/components/MiniGame.tsx:209 | the scrolled obstacle queue, a definition without a contract; `ScrollObstacles` is proved to compute it |
| MiniGame.ScrolledCoins | src/components/MiniGame.tsx:210 | the scrolled coin queue, a definition without a contract; `ScrollCoins` is proved to compute it |
| MiniGame.Moved | src/components/MiniGame.tsx:199-210 | the motion phase of a step, a definition without a contract; `MovedKeepsShape` states what it keeps |
| MiniGame.PlayerBox | src/components/MiniGame.tsx:212 | the player box at x = 80, 36 × 36, a definition without a contract; the collision lemmas use it |
| MiniGame.HitsObstacle | src/components/MiniGame.tsx:213 | the box test against an obstacle, a definition without a contract; `TouchedPoopCleared` and `RatHitIffFirstRatHitInRange` use it |
| MiniGame.HitsCoin | src/components/MiniGame.tsx:218 | the circle test against a coin, a definition without a contract; `CoinHitsCountsTouched` uses it |
| MiniGame.FirstRatHit | src/components/MiniGame.tsx:212-214 | the index where the obstacle loop stops: no rat before it is touched, and the rat there is |
| MiniGame.Cleared | src/components/MiniGame.tsx:213-215 | one obstacle after the loop body: moved to x = -9999 when touched, a definition without a contract; `TouchedPoopCleared` states its effect |
| MiniGame.ClearedObs | src/components/MiniGame.tsx:212-216 | the obstacle queue after the loop stopped at index n, a definition without a contract; `ObstacleLoop` is proved to compute it |
| MiniGame.ObstaclesResolved | src/components/MiniGame.tsx:212-216 | the obstacle loop keeps the queue length, changes only the x position of each obstacle, and leaves the slow factor alone or sets it to 0.4 |
| MiniGame.TouchedPoopCleared | src/components/MiniGame.tsx:212-216 | an obstacle touched before the first rat is poop; it moves to x = -9999 and the slow factor becomes 0.4 |
| MiniGame.CoinHits | src/components/MiniGame.tsx:218 | the points a step gains are at most the number of coins |
| MiniGame.CoinHitsCountsTouched | src/components/MiniGame.tsx:218 | the points gained equal the number of distinct coins touched |
| MiniGame.Collected | src/components/MiniGame.tsx:218 | one coin after the loop body: moved to x = -9999 when touched, a definition without a contract; `CoinLoop` uses it |
| MiniGame.CollectedCoins | src/components/MiniGame.tsx:218 | the coin queue after the loop, a definition without a contract; `CoinLoop` is proved to compute it and `CoinsCollected` states what it keeps |
| MiniGame.CoinsCollected | src/components/MiniGame.tsx:218 | the coin loop keeps the queue length, changes only the x position of each coin, and raises the score by at most the number of coins |
| MiniGame.PurgedObs | src/components/MiniGame.tsx:220 | purging drops only a leading run of obstacles left of x = -60; the rest is an unchanged suffix whose head is not left of -60 |
| MiniGame.PurgedCoins | src/components/MiniGame.tsx:221 | purging drops only a leading run of coins left of x = -40; the rest is an unchanged suffix whose head is not left of -40 |
| MiniGame.Purged | src/components/MiniGame.tsx:220-221 | the purge loops change only the two queues, each to a suffix of itself |
| MiniGame.Finished | src/components/MiniGame.tsx:183-195 | `finish(won)` on the state, a definition without a contract; `FinishKeepsInv` states what it records |
| MiniGame.Stepped | src/components/MiniGame.tsx:197-229 | one call of `step(dt)`, a definition without a contract; the `Step…` lemmas below state its properties |
| MiniGame.Lost | src/components/MiniGame.tsx:212-214 | the rest of a step that touches a rat, a definition without a contract; `LostReportsLoss` and `LostKeepsInv` state its effect |
| MiniGame.Survived | src/components/MiniGame.tsx:218-228 | the rest of a step that touches no rat, a definition without a contract; `SurvivedEndsOnlyByTime` and `SurvivedKeepsInv` state its effect |
| MiniGame.FrameDt | src/components/MiniGame.tsx:233 | the frame step is at most 0.032 × slowFactor, and not negative when the clock does not go back |
| MiniGame.ScaledFrameBounds | src/components/MiniGame.tsx:233 | a capped frame time scaled by a non-negative slow factor is at most 0.032 times that factor, and not negative when the frame time is not |
| MiniGame.RatHitIffFirstRatHitInRange | src/components/MiniGame.tsx:212-214 | the obstacle loop stops early exactly when some rat touches the player |
| MiniGame.StepAfterFinishIsNoOp | src/components/MiniGame.tsx:197-198 | a finished run is left unchanged by `step`, so `finish` runs at most once |
| MiniGame.MovedKeepsShape | src/components/MiniGame.tsx:199-210 | the motion phase keeps the player on or above the ground and keeps entities well formed |
| MiniGame.ScrollKeepsWellFormed | src/components/MiniGame.tsx:209-210 | scrolling keeps every entity's size and leftward velocity |
| MiniGame.AfterMotionKeepsShape | src/components/MiniGame.tsx:212-223 | the collision, coin, purge and spawn phases keep the player, slow factor, accumulator and entity parts of the invariant, leave the clock, the run flag and the report alone, and never lower the score |
| MiniGame.AfterMotionKeepsClock | src/components/MiniGame.tsx:212-223 | the collision, coin, purge and spawn phases leave the clock, the run flag and the report alone |
| MiniGame.FinishKeepsInv | src/components/MiniGame.tsx:183-194 | finishing a live run records exactly one result, with the score and time min(20, elapsed), which is a win only when the clock has run out |
| MiniGame.LostKeepsInv | src/components/MiniGame.tsx:212-214 | a step that ends on a rat keeps the run invariant |
| MiniGame.SurvivedKeepsInv | src/components/MiniGame.tsx:218-228 | a step that touches no rat keeps the run invariant |
| MiniGame.StepPreservesInv | src/components/MiniGame.tsx:197-229 | every step keeps the run invariant: player on or above the ground, grounded means resting, slow factor 1 or 0.4, accumulator below 0.9, no result while live, exactly one result once finished, whose time is min(20, elapsed) and which is a win only once the clock has run out |
| MiniGame.StepScoreBounds | src/components/MiniGame.tsx:218 | the score never decreases, and grows by at most the number of coins on screen |
| MiniGame.StepRatHitLoses | src/components/MiniGame.tsx:212-214 | touching a rat ends the run as a loss in that step, with the score unchanged and time min(20, elapsed) |
| MiniGame.LostReportsLoss | src/components/MiniGame.tsx:212-214 | ending on a rat stops the run and appends a loss with the score and min(20, elapsed) as the motion left them |
| MiniGame.StepWithoutRatEndsOnlyByTime | src/components/MiniGame.tsx:223-228 | without a rat, the run goes on exactly while elapsed < 20; when it stops, it reports a win at time 20 |
| MiniGame.SurvivedEndsOnlyByTime | src/components/MiniGame.tsx:218-228 | the rat-free rest of a live step stops the run exactly when the clock has reached 20, and then reports a win at time 20 |
| MiniGame.FinishOnTime | src/components/MiniGame.tsx:228 | the time check stops a live run exactly when elapsed ≥ 20 and reports a win at time 20 |
| MiniGame.StepCoinsScoreOneEach | src/components/MiniGame.tsx:218 | without a rat, the score grows by exactly the number of distinct coins touched |
| MiniGame.StepPoopHitSlows | src/components/MiniGame.tsx:212-216 | touching poop without a rat sets the slow factor to 0.4 and does not end the run before its time |
| MiniGame.SurvivedKeepsSlowFactor | src/components/MiniGame.tsx:218-228 | after the obstacle loop, nothing in a step changes the slow factor |
| MiniGame.JumpThenStepRises | src/components/MiniGame.tsx:109 | a live, grounded player that jumps is, one frame later, above the ground, airborne and still rising |
| MiniGame.StepKeepsMovedPlayer | src/components/MiniGame.tsx:199-228 | after the motion phase nothing in a step moves the player, and a live step advances the clock by exactly dt |
| MiniGame.LostKeepsPlayer | src/components/MiniGame.tsx:212-214 | ending on a rat leaves the player and the clock as the motion phase left them |
| MiniGame.SurvivedKeepsPlayer | src/components/MiniGame.tsx:218-228 | the phases after a rat-free collision check leave the player and the clock as the motion phase left them |
| MiniGame.FrameElapsedBound | src/components/MiniGame.tsx:231-235 | one frame advances the clock by at most 0.032 s, and not backwards when frame times do not go backwards |
| MiniGame.ScrollObstacles | src/components/MiniGame.tsx:209 | the obstacle scroll loop moves every obstacle by vx × dt and keeps the queue order |
| MiniGame.ScrollCoins | src/components/MiniGame.tsx:210 | the coin scroll loop moves every coin by vx × dt and keeps the queue order |
| MiniGame.ObstacleLoop | src/components/MiniGame.tsx:212-216 | the loop reports a rat exactly when the player touches one, clears the poop touched before the first rat and nothing after it, and reports a slowdown exactly when such poop was touched |
| MiniGame.CoinLoop | src/components/MiniGame.tsx:218 | the loop moves touched coins off-screen and counts exactly the coins touched |
| MiniGame.DropLeadingObstacles | src/components/MiniGame.tsx:220 | the purge loop leaves exactly the suffix after the leading obstacles left of x = -60 |
| MiniGame.DropLeadingCoins | src/components/MiniGame.tsx:221 | the purge loop leaves exactly the suffix after the leading coins left of x = -40 |
| MiniGame.Run.constructor | src/components/MiniGame.tsx:97-106 | the ground line is set from the canvas size, and the state is the initial one |
| MiniGame.Run.Jump | src/components/MiniGame.tsx:109 | a live, grounded player gets vy = -620 and leaves the ground; otherwise nothing changes; the invariant is kept |
| MiniGame.Run.RevertSlow | src/components/MiniGame.tsx:215 | the revert timer sets the slow factor back to 1 and changes nothing else |
| MiniGame.Run.TrySpawn | src/components/MiniGame.tsx:122-131 | the in-place spawner produces the state `TrySpawned` gives |
| MiniGame.Run.Integrate | src/components/MiniGame.tsx:199-207 | the clock and the vertical motion, as `Fall` gives them |
| MiniGame.Run.Scroll | src/components/MiniGame.tsx:209-210 | the two scroll loops move each entity by vx × dt and change nothing else |
| MiniGame.Run.ResolveObstacles | src/components/MiniGame.tsx:212-216 | the obstacle loop reports a rat exactly when one is touched; it clears the poop touched before it and sets the slow factor as `ObstaclesResolved` does |
| MiniGame.Run.CollectCoins | src/components/MiniGame.tsx:218 | the coin loop moves touched coins off-screen and adds their number to the score |
| MiniGame.Run.PurgeObstacles | src/components/MiniGame.tsx:220 | the obstacle purge loop leaves the queue `PurgedObs` gives and changes nothing else |
| MiniGame.Run.PurgeCoins | src/components/MiniGame.tsx:221 | the coin purge loop leaves the queue `PurgedCoins` gives and changes nothing else |
| MiniGame.Run.Finish | src/components/MiniGame.tsx:183-194 | the run stops and records {won, score, min(20, elapsed)} |
| MiniGame.Run.Step | src/components/MiniGame.tsx:197-229 | the in-place step produces the state `Stepped` gives and keeps the run invariant |
| MiniGame.Run.Frame | src/components/MiniGame.tsx:231-235 | a frame steps by `FrameDt` of the frame time, then records it as the last frame time |
| MiniGame.Run.IntervalTick | src/components/MiniGame.tsx:246 | the 60 Hz timer steps a live run by (1/60) × slowFactor and leaves a finished one alone |
| PartnerQR.Split | src/components/QRScanner.js:5 | splitting on the separator returns one more field than there are separators; no field contains a separator; joining the fields gives the text back |
| PartnerQR.SplitNoSep | src/components/QRScanner.js:5 | a text without separators splits into itself |
| PartnerQR.SplitCons | src/components/QRScanner.js:5 | a separator-free first field is split off exactly |
| PartnerQR.SplitJoin | src/components/QRScanner.js:5 | splitting undoes joining separator-free fields |
| PartnerQR.IsJsSpace | src/components/QRScanner.tsx:6 | the characters `trim` removes (ECMAScript WhiteSpace and LineTerminator), a definition without a contract; `TrimStart`, `TrimEnd` and `TrimRemovesOnlySpace` use it |
| PartnerQR.Encode | src/components/QRScanner.js:4-12 | the payload layout the parsers read, a definition without a contract; `ParseUntrimmedRoundTrip` and `ParseTrimmedRoundTrip` are its round trips |
| PartnerQR.Join | src/components/QRScanner.js:5 | joining fields with the separator, a definition without a contract; `Split` and `SplitJoin` make it the inverse of splitting |
| PartnerQR.TrimStart | src/components/QRScanner.tsx:6 | leading trim removes exactly a whitespace prefix and leaves no leading whitespace |
| PartnerQR.TrimEnd | src/components/QRScanner.tsx:6 | trailing trim removes exactly a whitespace suffix and leaves no trailing whitespace |
| PartnerQR.Trim | src/components/QRScanner.tsx:6 | neither end of the trimmed text is whitespace |
| PartnerQR.TrimStartSkipsSpace | src/components/QRScanner.tsx:6 | leading whitespace does not affect the leading trim |
| PartnerQR.TrimEndSkipsSpace | src/components/QRScanner.tsx:6 | trailing whitespace does not affect the trailing trim |
| PartnerQR.TrimStartAppend | src/components/QRScanner.tsx:6 | text appended after a non-blank text survives the leading trim |
| PartnerQR.TrimIgnoresSurroundingSpace | src/components/QRScanner.tsx:6 | whitespace around the whole text does not change the trimmed text |
| PartnerQR.TrimKeepsUnpadded | src/components/QRScanner.tsx:6 | text without whitespace at either end is its own trim |
| PartnerQR.TrimRemovesOnlySpace | src/components/QRScanner.tsx:6 | the text is whitespace, then its trim, then whitespace |
| PartnerQR.TrimPaddedEncoded | src/components/QRScanner.tsx:6 | trimming an encoded payload with any whitespace before it removes that whitespace and the trailing whitespace of the rest, and nothing else |
| PartnerQR.TrimEndAfter | src/components/QRScanner.tsx:6 | after a text ending in a non-blank character, the trailing trim touches only what follows |
| PartnerQR.ParseUntrimmed | src/components/QRScanner.js:4-12 | fewer than two separators gives null; a result has namespace KT-PARTNER and a separator-free partner id |
| PartnerQR.ParseTrimmed | src/components/QRScanner.tsx:5-11 | fewer than two separators in the trimmed text gives null; a result has namespace KT-PARTNER and a separator-free partner id |
| PartnerQR.ParseUntrimmedAcceptsExactlyEncoded | src/components/QRScanner.js:4-12 | the older parser accepts exactly the texts made of KT-PARTNER, a separator, a separator-free id, a separator and any rest |
| PartnerQR.SplitEncoded | src/components/QRScanner.js:5-8 | an encoded payload splits into the namespace, the id and the fields of the rest |
| PartnerQR.ParseUntrimmedRoundTrip | src/components/QRScanner.js:4-12 | the id of an encoded payload comes back; the timestamp is `Number` of the third field when that is truthy, otherwise the clock; later fields are ignored |
| PartnerQR.ParseTrimmedIgnoresSurroundingSpace | src/components/QRScanner.tsx:5-11 | the newer parser ignores whitespace around the payload |
| PartnerQR.ParseTrimmedAcceptsExactlyEncoded | src/components/QRScanner.tsx:5-11 | the newer parser accepts exactly the texts made of whitespace, KT-PARTNER, a separator, a separator-free id, a separator and any rest |
| PartnerQR.TrimmedEncodedIsPadded | src/components/QRScanner.tsx:6 | a text whose trim is an encoded payload is that payload with whitespace before it and more of the rest after it |
| PartnerQR.ParseTrimmedRoundTrip | src/components/QRScanner.tsx:5-11 | the id of any encoded payload comes back; the timestamp is read from the rest without its trailing whitespace |
| PartnerQR.RevisionsAgreeOnUnpadded | src/components/QRScanner.tsx:5-11 | on text without whitespace at either end, the two revisions give the same result |
| PartnerQR.ParseUntrimmedRejectsLeadingSpace | src/components/QRScanner.js:4-12 | the older parser rejects any text that starts with whitespace |
| PartnerQR.LeadingSpaceSeparatesRevisions | src/components/QRScanner.tsx:6 | with one leading space, the older parser rejects an encoded payload that the newer one accepts, as if the space were absent, for a rest that does not end in whitespace |
| PartnerQR.EmptyPartnerIdAccepted | src/components/QRScanner.tsx:5-11 | KT-PARTNER followed by two separators and any rest, trailing whitespace included, is accepted with partner id "" |
| PartnerQR.EmptyPartnerIdExample | src/components/QRScanner.tsx:5-11 | the text KT-PARTNER, two separators, 1 parses to namespace KT-PARTNER, partner id "" and the timestamp from "1" |
| AlbumStore.NormaliseCounter | src/store/game.ts:15-16 | `Number(x) or 0` is never NaN; it keeps a truthy number and turns 0 and NaN into 0 |
| Js.OrElse | src/store/game.ts:15-16 | `x or fallback` on numbers, a definition without a contract; `NormaliseCounter` characterises its use |
| Js.Inc | src/store/game.ts:30-31 | `+= 1` on numbers, a definition without a contract; `Store.AddFragment` states its effect on the counters |
| AlbumStore.CountsCoverAlbum | src/store/game.ts:2 | every fragment counts for exactly one of the two characters |
| AlbumStore.CountersSumToAlbumLength | src/store/game.ts:28-31 | counters that match the album are finite and add up to its length |
| AlbumStore.CountOfAppend | src/store/game.ts:29-31 | appending a fragment adds one to its character's count only |
| AlbumStore.LoadDoesNotRederiveCounters | src/store/game.ts:14-16 | a load can leave counters that disagree with the album |
| AlbumStore.Store.constructor | src/store/game.ts:7 | the initial record has both counters 0, an empty album, and matching counters |
| AlbumStore.Store.AddFragment | src/store/game.ts:28-33 | the fragment is appended; only its character's counter is incremented; counters never decrease; matching counters stay matching |
| AlbumStore.Store.ClearGame | src/store/game.ts:35-39 | the album is empty, both counters are 0, and the counters match |
| AlbumStore.Store.LoadGame | src/store/game.ts:9-18 | nothing stored, or an unreadable record, leaves the store unchanged; otherwise the album is replaced (empty when not an array) and each counter becomes its stored number or 0, in order, until a conversion throws, which leaves that counter and the later ones unchanged; the counters are taken as stored |

## Left out

- Canvas drawing is not modelled: the scenery, the player and entity sprites, the score and time text, the end-of-run overlay and the error painter. It has no effect on game state.
- `requestAnimationFrame`, `setInterval` and `setTimeout` are not modelled as timers.
  - Each callback is an operation that can be called in any order: `Run.Frame`, `Run.IntervalTick`, and `Run.RevertSlow` for the 800 ms slow-factor revert.
  - The delayed `onDone` call is the `reported` list. Its value is fixed when the run finishes, because nothing changes the score, the clock or the result after that.
  - Rescheduling the next frame, cancelling the timers on cleanup, and removing the input listeners are not modelled.
- `Math.random()` is a parameter. Each step receives a `Draw`: the spawn roll and the two jitters, each in [0, 1).
- `performance.now()` is a parameter. So are `Number(...)` and `Date.now()` in the QR parser.
- Numbers are mathematical reals. IEEE rounding, overflow and NaN in the game arithmetic are not modelled.
- The frame's `dt` is not required to be non-negative. A frame time earlier than the previous one gives a negative step, as it would in the source.
- Health, stomping rats, invulnerability, a start countdown, knockback and horizontal movement are not in the code and are not modelled.
- The QR scanner's camera selection, the `Html5Qrcode` scanning library and the React component bodies of both scanner files are not modelled. Only `parseQR` is.
- The store's `localStorage`, `JSON.parse`/`JSON.stringify` and the `kt-game-update` event (`saveGame`, and the I/O half of `loadGame`) are not modelled. A load receives what it read as a `Stored` value.
- Strings are sequences of Unicode scalar values, while JavaScript strings are UTF-16 code units. `split('|')` and `trim()` act the same on every well-formed string, because `|` and every character `trim` removes lie in the Basic Multilingual Plane. A decoded payload holding a lone surrogate cannot be represented.
- AlbumStore.Store.LoadGame: assumes a stored album array holds well-formed fragments. The source accepts any array without checking its elements.
- The map, dialogue, album panel, landing page and application shell components are UI glue and are not part of this model. So are `src/utils/debugCanvas.ts` and the build configuration.
