# Kitchen simulation and burger bot, in Dafny

This project models the core of a small cooperative cooking game in two parts.

The first part is the kitchen simulation, `GameModel`. A player walks on a 50-pixel grid and carries at most one item. They use the station nearest to them: ingredient spawns, cutting boards, stoves, the assembly counter and the delivery counter. A burger is built on the assembly from bread, a cooked patty, a chopped tomato and a chopped lettuce. Delivering it fulfils an order and scores points. Orders count down and expire, new ones arrive, and raw patties on a stove cook after three seconds.

The second part is the bot, `AIBot`. It plays one player. It plans a queue of atomic steps: go to a station, interact, chop, wait. It then carries them out one per tick. It keeps a global pause between steps and walks one grid cell per tick to an anchor just below the target station.

Layout:

- `kitchen.dfy` (module `Kitchen`): the entities as datatypes and every kitchen rule as a function on a `State`.
- `kitchen_lemmas.dfy` (module `KitchenLemmas`): what the rules keep.
  - The kitchen invariant `Valid`: each station holds only what its kind allows, and the assembly stack keeps its recipe invariant.
  - Items are conserved.
  - Order expiry and top-up.
  - The scoring quirk.
- `game_model.dfy` (module `Game`): the class `GameModel`. Its methods update players, stations, orders and score in place. Each method is proved to produce exactly the state the matching `Kitchen` function describes.
- `bot.dfy` (module `Bot`):
  - the bot's look-ups, anchor and movement;
  - its plan, as functions;
  - a well-formedness predicate `Sound` for queues, proved for every plan;
  - one tick of the bot (`Tick`, `Run`, `Perform`).
- `bot_lemmas.dfy` (module `BotLemmas`): properties of the look-ups, walking, plans and ticks.
- `bot_controller.dfy` (module `Controller`): the class `AIBot`. It builds its queue by appends and drives a `GameModel`. Each method is proved against the `Bot` functions.

Time is an integer number of milliseconds. Every clock read inside one call is the same `now` argument.

## Model

| member | source | states |
|---|---|---|
| Kitchen.Clamp | src/model/game_model.py:124-125 | the result lies in [lo, hi], equals v inside the range and the nearer bound outside it |
| Kitchen.ChoppedVeggies | src/model/game_model.py:357-360 | the counting loop never counts more than the recorded ingredients; ChoppedVeggiesCounts proves it counts exactly the chopped tomatoes and lettuces |
| Kitchen.ChoppedVeggiesCounts | src/model/game_model.py:357-360 | the count equals the number of positions holding a chopped tomato or lettuce |
| Kitchen.BurgerPoints | src/model/game_model.py:351-368 | 0 exactly for non-burgers; a burger scores 10 iff no chopped tomato or lettuce is recorded, 15 iff exactly one is, 20 iff two or more are; a burger with no recorded ingredients scores 10 |
| Game.CalculateBurgerPoints | src/model/game_model.py:351-368 | the counting loop returns BurgerPoints, the 0/10/15/20 points table |
| Kitchen.NearestIn | src/model/game_model.py:137-145 | the station chosen by the scan is one of those scanned |
| Kitchen.NearestInSpec | src/model/game_model.py:137-145 | the scan finds nothing iff no station is within 70; otherwise its pick is in range, at minimal Manhattan distance, and earlier in-range stations are strictly farther (earliest wins a tie) |
| Game.ClosestStation | src/model/game_model.py:137-145 | the imperative scan returns the station NearestIn characterises |
| Kitchen.SpawnRule | src/model/game_model.py:156-160 | the hand changes iff it was empty and the spawn has an ingredient; it then receives a fresh unchopped item of that ingredient, the only item created; the spawn is unchanged |
| Kitchen.BoardRule | src/model/game_model.py:162-179 | the item moves between the hand and the slot and is never duplicated or lost; it is placed iff a tomato or lettuce is held over an empty board; it is taken iff the hand is empty and the board holds something; otherwise nothing changes; only the slot of the board changes; validity is kept |
| Kitchen.StoveRule | src/model/game_model.py:181-204 | only a raw patty is placed, onto an empty stove, stamping the cooking start with now; an empty hand takes the stove's item and resets the start to 0; every other case changes nothing; items are conserved; validity is kept |
| Kitchen.AssemblyRule | src/model/game_model.py:206-287 | the station's fixed attributes are kept, and the stack invariant (bread first, accepted ingredients only, each kind once, never a complete burger) is preserved |
| Kitchen.AcceptKeepsOk | src/model/game_model.py:227-272 | an accepted deposit keeps bread at the bottom, only assemblable items and no repeated kind |
| Kitchen.ReadyPrefix | src/model/game_model.py:208-214 | a stack whose prefix completes a burger is complete itself |
| Kitchen.BurgerReady | src/model/game_model.py:208-214 | the stack is complete iff every kind a burger is built from (bread, cooked patty, tomato, lettuce) lies in it, the vegetables chopped |
| Kitchen.Accepts | src/model/game_model.py:227-272 | an empty stack accepts exactly bread; a non-empty stack accepts an item exactly when it is a cooked patty or a chopped tomato or lettuce whose kind is not yet on the stack |
| Kitchen.AssemblyDepositLemma | src/model/game_model.py:227-272 | an accepted deposit that does not complete the burger keeps the stack invariant, and the stack gains exactly the held item |
| Kitchen.AssemblyPopLemma | src/model/game_model.py:280-285 | taking the top item back keeps the stack invariant and removes exactly that item |
| KitchenLemmas.AssemblyOutcome | src/model/game_model.py:216-287 | the full case table: a finished burger goes only to an empty hand; a rejected deposit changes nothing; an accepted deposit empties the hand and either grows the stack or, when the stack becomes complete, replaces it by a new burger in the slot; an empty hand pops the top item; an empty hand at an empty stack changes nothing |
| KitchenLemmas.AssemblyConserves | src/model/game_model.py:274-278 | every assembly interaction conserves the items of hand and station, except the deposit that completes the burger, which empties the stack into a new burger |
| KitchenLemmas.AssemblyValid | src/model/game_model.py:206-287 | an assembly interaction keeps the assembly station and the hand valid |
| KitchenLemmas.SpawnValid | src/model/game_model.py:156-160 | a spawn interaction keeps the spawn and the hand valid |
| Kitchen.FirstOrderFor | src/model/game_model.py:292-294 | the result is the first order that needs the item; none means no order needs it |
| Kitchen.DeliveryRule | src/model/game_model.py:289-316 | delivery changes something iff a burger is held and some order needs a burger; it then removes exactly the first such order, adds the burger's points and empties the hand |
| KitchenLemmas.DeliveryScoresTen | src/model/game_model.py:274-278 | in a valid kitchen every interaction leaves score and orders alone or adds exactly 10 points while removing one order, since assembled burgers record no ingredients |
| Kitchen.Move | src/model/game_model.py:120-127 | only the indexed player moves, keeping what they hold: each coordinate moves by 50 times its delta when that stays inside the map, and otherwise stops at the nearer edge (0, 750 or 550); an out-of-range index changes nothing |
| Kitchen.ResolvePlayer | src/model/game_model.py:131-134 | an index at or past the end selects no player; a non-negative one selects itself; a negative one selects position n + index, counting from the end as list indexing does |
| Kitchen.Handle | src/model/game_model.py:152-316 | an interaction keeps the number of players and every station's fixed attributes |
| Kitchen.Interact | src/model/game_model.py:129-150 | interacting keeps the number of players and every station's fixed attributes |
| Kitchen.ChopItem | src/model/game_model.py:338-345 | chopping marks tomatoes and lettuces as chopped and changes nothing else about an item |
| Kitchen.Chop | src/model/game_model.py:318-347 | chopping changes no player, order or score, and no station's fixed attributes |
| KitchenLemmas.ChopIdempotent | src/model/game_model.py:336-345 | chopping twice from the same place is chopping once |
| Kitchen.Expire | src/model/game_model.py:101-105 | the countdown never adds orders; ExpireInOrder proves it is the order-preserving filter of the decremented orders with time left |
| Kitchen.Countdown | src/model/game_model.py:103-105 | one order is dropped iff its decremented time is not positive, and otherwise kept once with the same items and its time reduced by the elapsed time |
| KitchenLemmas.KeptAscending | src/model/game_model.py:102-105 | the positions of surviving orders are in range and strictly increasing, so survivors keep their order and appear once |
| KitchenLemmas.KeptMembers | src/model/game_model.py:103-105 | a position survives exactly when its order has positive time after the decrement |
| KitchenLemmas.ExpireAtKept | src/model/game_model.py:102-105 | the countdown result holds, entry by entry, the decremented orders at the surviving positions |
| KitchenLemmas.ExpireInOrder | src/model/game_model.py:102-105 | the countdown keeps, in their original order and each once, the decremented copies of exactly the orders whose time stays positive |
| KitchenLemmas.ExpireKeeps | src/model/game_model.py:101-105 | every order with time left after the decrement survives, decremented (its position and order are given by ExpireInOrder) |
| KitchenLemmas.ExpireOnly | src/model/game_model.py:101-105 | every surviving order has positive time and is the decremented copy of an input order |
| Kitchen.GenerateOrder | src/model/game_model.py:93-97 | a burger order with 60 seconds is appended iff fewer than 3 orders exist |
| Kitchen.CookStation | src/model/game_model.py:113-118 | a stove changes iff it holds a raw patty that has cooked for at least its duration; it then holds a fresh cooked patty with the start reset to 0; position and kind never change |
| Kitchen.CookAll | src/model/game_model.py:111-118 | each station is cooked individually, and the station list keeps its length |
| Kitchen.Update | src/model/game_model.py:99-118 | the frame update changes neither players nor score |
| KitchenLemmas.UpdateOrderBounds | src/model/game_model.py:99-109 | starting from at most 3 orders, after the update there are between 1 and 3, and a new order is appended exactly when fewer than 2 survive expiry |
| KitchenLemmas.InteractPreservesValid | src/model/game_model.py:129-150 | interacting keeps the kitchen valid |
| KitchenLemmas.HandlePreservesValid | src/model/game_model.py:152-316 | every station kind's interaction keeps the kitchen valid |
| KitchenLemmas.ChopPreservesValid | src/model/game_model.py:318-347 | chopping keeps the kitchen valid |
| KitchenLemmas.MovePreservesValid | src/model/game_model.py:120-127 | moving keeps the kitchen valid |
| KitchenLemmas.UpdatePreservesValid | src/model/game_model.py:99-118 | the frame update keeps the kitchen valid |
| KitchenLemmas.InitialValid | src/model/game_model.py:58-91 | the initial kitchen is valid |
| KitchenLemmas.NearestSameLayout | src/model/game_model.py:140-145 | the nearest-station choice depends only on station positions and kinds, so it is unchanged by anything an interaction changes |
| KitchenLemmas.SpotAgrees | src/model/game_model.py:141-142 | stations at the same spot have the same distance and range |
| Game.GameModel.constructor | src/model/game_model.py:58-91 | one empty-handed player at (100, 100), the ten stations of the fixed layout, one burger order and score 0; the kitchen is valid |
| Game.GameModel.GenerateOrder | src/model/game_model.py:93-97 | the object's orders become those GenerateOrder describes and nothing else changes |
| Game.GameModel.Update | src/model/game_model.py:99-118 | the object steps to Kitchen.Update of its old state and stays valid |
| Game.GameModel.CountDownOrders | src/model/game_model.py:101-105 | the loop leaves the orders Expire describes and nothing else changes |
| Game.GameModel.CookStoves | src/model/game_model.py:111-118 | the loop leaves the stations CookAll describes and nothing else changes |
| Game.GameModel.MovePlayer | src/model/game_model.py:120-127 | the object steps to Kitchen.Move of its old state and stays valid |
| Game.GameModel.InteractWithStation | src/model/game_model.py:129-150 | the object steps to Kitchen.Interact of its old state and stays valid |
| Game.GameModel.HandleStationInteraction | src/model/game_model.py:152-316 | the object steps to Kitchen.Handle of its old state |
| Game.GameModel.InteractSpawn | src/model/game_model.py:156-160 | hand and spawn become what SpawnRule gives |
| Game.GameModel.InteractBoard | src/model/game_model.py:162-179 | hand and board become what BoardRule gives |
| Game.GameModel.InteractStove | src/model/game_model.py:181-204 | hand and stove become what StoveRule gives |
| Game.GameModel.Deposit | src/model/game_model.py:244-245 | the held item moves onto the top of the assembly stack and the hand becomes empty |
| Game.GameModel.InteractAssembly | src/model/game_model.py:206-287 | hand and assembly become what AssemblyRule gives |
| Game.GameModel.InteractDelivery | src/model/game_model.py:289-316 | hand, orders and score become what DeliveryRule gives |
| Game.GameModel.ChopAtStation | src/model/game_model.py:318-347 | the object steps to Kitchen.Chop of its old state and stays valid |
| Bot.First | src/controller/bot_controller.py:40-44 | the first index from i on whose station matches; none iff no station from i on matches |
| Bot.One | src/controller/bot_controller.py:40-44 | a found station has the asked kind and, if asked, the ingredient |
| BotLemmas.OneSpec | src/controller/bot_controller.py:40-44 | the found station is the first match in list order, and none is found iff none matches |
| Bot.FreeOfKind | src/controller/bot_controller.py:55-67 | a found station has the asked kind |
| BotLemmas.FreeOfKindPrefersFree | src/controller/bot_controller.py:55-67 | the first empty station of the kind when one exists, else the first of the kind, else none exactly when there is no station of the kind |
| Bot.StoveWith | src/controller/bot_controller.py:69-73 | a found station is a stove holding an item of the asked kind |
| BotLemmas.StoveWithSpec | src/controller/bot_controller.py:69-73 | it is the first such stove, and none is found iff there is none |
| Bot.BoardWith | src/controller/bot_controller.py:75-79 | a found station is a board holding the asked kind in the asked chopped state |
| BotLemmas.BoardWithSpec | src/controller/bot_controller.py:75-79 | it is the first such board, and none is found iff there is none |
| Bot.Direction | src/controller/bot_controller.py:97-106 | at most one unit step; none exactly at the target; while x differs the step is along x and reduces the x distance by one, and only then along y, reducing the y distance |
| Bot.Anchor | src/controller/bot_controller.py:82-89 | the anchor is in the station's column, one grid cell below it, but never below the map's bottom edge 550 |
| Bot.Near | src/controller/bot_controller.py:92-95 | arriving needs being within 10 pixels of the station's column, and standing on the anchor counts as arrived (NearIsAtAnchor: on the grid, near iff on the anchor) |
| Bot.MoveTowards | src/controller/bot_controller.py:97-107 | only the bot's player moves, keeping what they hold; nothing moves at the target; from a point on the map one press moves at most one grid step |
| Bot.PushEntry | src/controller/bot_controller.py:128-132 | a wait names no station and ends waitMs after now; every other step keeps its station and has deadline 0 |
| Bot.Gapped | src/controller/bot_controller.py:134-136 | exactly two entries: the step with its station and no deadline, then a wait ending StepGap after now |
| BotLemmas.AnchorOnGrid | src/controller/bot_controller.py:82-89 | the anchor of a station on the grid is on the grid, and a player standing on it is near |
| BotLemmas.NearIsAtAnchor | src/controller/bot_controller.py:92-95 | on the grid, being within the 10-pixel tolerance means standing exactly on the anchor |
| BotLemmas.ApproachProgress | src/controller/bot_controller.py:97-107 | a player on the grid who is not at the grid target gets exactly one grid step closer to it |
| BotLemmas.LayoutOnGrid | src/model/game_model.py:69-91 | every station of the fixed layout stands on the grid |
| Bot.GappedSound | src/controller/bot_controller.py:134-136 | a gapped step is the step with no deadline followed by a pause that ends after now |
| Bot.WaitSound | src/controller/bot_controller.py:128-130 | a wait of non-negative length names no station and does not end before now |
| Bot.ChopBlockSound | src/controller/bot_controller.py:275-278 | a chop is queued at a cutting board, between the interaction that drops the vegetable on that same board and the one that takes it back |
| Bot.BreadSound | src/controller/bot_controller.py:179-208 | the bread section queues a well-formed plan |
| Bot.FetchPattySound | src/controller/bot_controller.py:216-237 | fetching a patty queues a well-formed plan |
| Bot.PattySound | src/controller/bot_controller.py:210-254 | the patty section queues a well-formed plan |
| Bot.FetchVegSound | src/controller/bot_controller.py:262-281 | fetching a vegetable queues a well-formed plan |
| Bot.VegSound | src/controller/bot_controller.py:256-342 | each vegetable section queues a well-formed plan |
| Bot.RecipeSound | src/controller/bot_controller.py:179-350 | the recipe part of the plan is well formed |
| Bot.PlanSound | src/controller/bot_controller.py:159-350 | every plan is well formed: it names only existing stations, every non-wait step has no deadline and is followed by a pause, waits end no earlier than now, and chops sit between a drop and a pick-up at the same board |
| Bot.Plan | src/controller/bot_controller.py:159-350 | every plan is well formed for the kitchen (Sound); what it contains is stated by PlanDeliversHeldBurger, PlanFetchesReadyBurger, PlanWorksOnNeed, PlanBringsNeeded, PlanChopsOnlyFresh and PlanFullHandNoSpawn |
| BotLemmas.PlanDeliversHeldBurger | src/controller/bot_controller.py:164-168 | with a burger in hand the plan is exactly go to the first delivery counter, pause, interact there, pause, and every station it names is a delivery counter |
| BotLemmas.PlanFetchesReadyBurger | src/controller/bot_controller.py:170-177 | with a burger on the assembly and none in hand, the plan is a visit to the assembly and then to the delivery counter when the hands are free, and only the delivery visit otherwise |
| BotLemmas.FreshVegSteps | src/controller/bot_controller.py:272-280 | the fresh-vegetable trip is go to the spawn, interact, go to the board, interact, chop, interact, go to the assembly, interact, each followed by a pause, with all board steps at the same board |
| BotLemmas.FetchVegChops | src/controller/bot_controller.py:262-281 | fetching a vegetable holds a chop only when it is the fresh trip from that vegetable's spawn via the first free board |
| BotLemmas.PlanChopsOnlyFresh | src/controller/bot_controller.py:159-350 | a plan holds a chop only with empty hands, when the next missing ingredient is a chopped tomato or lettuce, and then it is exactly the fresh trip for that vegetable; every other plan holds no chop |
| BotLemmas.InitialPlanFetchesBread | src/controller/bot_controller.py:179-187 | in the starting kitchen the first plan walks to the bread spawn, takes bread, walks to the assembly and puts it down |
| BotLemmas.PlanFollowsRecipe | src/controller/bot_controller.py:159-350 | with empty hands and no finished burger, every station in the plan is the assembly or one that produces the first ingredient still missing, in the order bread, cooked patty, chopped tomato, chopped lettuce (PlanWorksOnNeed gives the plan itself) |
| BotLemmas.PlanWorksOnNeed | src/controller/bot_controller.py:179-350 | with empty hands and no finished burger, the plan works on the first missing ingredient: bread from its spawn to the assembly; a cooked patty from a stove, else a capped wait by a cooking stove, else a raw patty to a free stove, else nothing; a chopped vegetable from a board, else the fresh trip via the first free board, else nothing; with nothing missing, a walk to the assembly and a wait |
| BotLemmas.PlanBringsNeeded | src/controller/bot_controller.py:187-350 | with no finished burger on the assembly, holding the ready form of the first missing ingredient (bread, a cooked patty, a chopped tomato, a chopped lettuce) makes the plan exactly a visit to the assembly; with nothing missing, any held item other than a burger is also taken there |
| BotLemmas.PattyTargets | src/controller/bot_controller.py:216-237 | fetching a patty visits only stoves, the raw patty spawn and the assembly |
| BotLemmas.VegTargets | src/controller/bot_controller.py:262-281 | fetching a vegetable visits only boards, that vegetable's spawn and the assembly |
| BotLemmas.BreadUnloads | src/controller/bot_controller.py:188-208 | with something in hand, the bread section takes it to the assembly, drops it, or waits |
| BotLemmas.PattyUnloads | src/controller/bot_controller.py:238-254 | with something in hand, the patty section takes it to the assembly, drops it, or waits |
| BotLemmas.VegUnloads | src/controller/bot_controller.py:282-298 | with something in hand, a vegetable section takes it to the assembly or drops it |
| BotLemmas.RecipeUnloads | src/controller/bot_controller.py:179-350 | with something in hand, the recipe part takes it to the assembly, drops it, or waits |
| BotLemmas.PlanFullHandNoSpawn | src/controller/bot_controller.py:159-350 | with something in hand the plan never visits an ingredient spawn, so the bot never goes to pick up a second item |
| BotLemmas.TickIdle | src/controller/bot_controller.py:353-362 | without an assembly or a delivery counter, or before the pause ends, a tick changes neither bot nor kitchen |
| BotLemmas.TickWaitGate | src/controller/bot_controller.py:370-377 | a wait at the head is removed, starting the pause, only once its deadline has come; the kitchen is untouched |
| BotLemmas.RunOneCommand | src/controller/bot_controller.py:370-418 | working on the head issues at most one command: nothing, one unit grid step, one interaction or one chop |
| BotLemmas.TickOneCommand | src/controller/bot_controller.py:353-418 | a tick issues at most one command to the kitchen |
| BotLemmas.RunKeeps | src/controller/bot_controller.py:370-418 | working on the head keeps the players and layout, keeps the queue's stations valid and the kitchen valid, and any change to the kitchen restarts the pause |
| BotLemmas.TickKeeps | src/controller/bot_controller.py:353-418 | a tick keeps the players and layout, keeps the queue's stations valid and the kitchen valid, and any change to the kitchen restarts the pause |
| BotLemmas.TickRateLimit | src/controller/bot_controller.py:360-362 | after a tick that changed the kitchen, every tick before the pause ends changes nothing |
| BotLemmas.RunQueue | src/controller/bot_controller.py:370-418 | working on the head keeps the queue, drops only its head, or, after picking up bread, replaces it by a visit to the assembly |
| BotLemmas.PerformQueue | src/controller/bot_controller.py:391-418 | a performed step drops the head, or, after an interaction that picked up bread at the bread spawn, replaces the queue by a visit to the assembly |
| BotLemmas.TickQueue | src/controller/bot_controller.py:353-418 | planning happens only for an empty queue, and then the tick keeps the queue, drops at most its head, or makes the bread replacement |
| BotLemmas.TickApproaches | src/controller/bot_controller.py:379-384 | a tick whose head step is not yet at its station moves the player one grid step closer to the station's anchor |
| Bot.Tick | src/controller/bot_controller.py:353-418 | a tick keeps the players and the station layout, does nothing before the pause ends, and any change to the kitchen restarts the pause |
| Bot.Run | src/controller/bot_controller.py:370-418 | working on the head keeps players and layout, leaves the pause as it was or restarts it, and restarts it whenever the kitchen changes |
| Bot.Perform | src/controller/bot_controller.py:391-418 | a performed step restarts the pause; an interaction or a chop stamps now as the last action time; a go-to only drops the head and leaves the kitchen alone |
| Controller.AIBot.constructor | src/controller/bot_controller.py:25-31 | a new bot has its player index, an empty queue and both timestamps at 0 |
| Controller.AIBot.FindOne | src/controller/bot_controller.py:40-44 | the loop returns the station One specifies |
| Controller.AIBot.FindFree | src/controller/bot_controller.py:55-67 | the two loops return the station FreeOfKind specifies |
| Controller.AIBot.FindStoveWith | src/controller/bot_controller.py:69-73 | the loop returns the stove StoveWith specifies |
| Controller.AIBot.FindBoardWith | src/controller/bot_controller.py:75-79 | the loop returns the board BoardWith specifies |
| Controller.AIBot.Push | src/controller/bot_controller.py:128-132 | appends one entry: a wait ending waitMs after now, or the step with its station and no deadline |
| Controller.AIBot.PushWithGap | src/controller/bot_controller.py:134-136 | appends the step, then a pause |
| Controller.AIBot.PushVisit | src/controller/bot_controller.py:166-167 | appends a go-to and an interaction at the station, each followed by a pause |
| Controller.AIBot.ResetQueue | src/controller/bot_controller.py:138-139 | empties the queue and keeps the timestamps |
| Controller.AIBot.DropSteps | src/controller/bot_controller.py:194-205 | appends a visit to the free-or-first station of the kind when there is one |
| Controller.AIBot.PlanBreadSteps | src/controller/bot_controller.py:179-208 | appends the bread section's steps and reports whether the section applied |
| Controller.AIBot.PlanPattySteps | src/controller/bot_controller.py:210-254 | appends the patty section's steps and reports whether the section applied |
| Controller.AIBot.FetchPattySteps | src/controller/bot_controller.py:216-237 | appends the empty-handed patty steps |
| Controller.AIBot.WaitAtStoveSteps | src/controller/bot_controller.py:224-229 | appends a go-to to the cooking stove and a wait for what is left of the cooking, capped at 500 ms |
| Controller.AIBot.PlanVegSteps | src/controller/bot_controller.py:256-342 | appends a vegetable section's steps and reports whether the section applied |
| Controller.AIBot.FetchVegSteps | src/controller/bot_controller.py:262-281 | appends the empty-handed vegetable steps |
| Controller.AIBot.PlanSteps | src/controller/bot_controller.py:159-350 | appends exactly the plan Plan describes and keeps the timestamps |
| Controller.AIBot.RecipeSteps | src/controller/bot_controller.py:179-350 | appends the first applicable recipe section's steps |
| Controller.AIBot.VegRecipeSteps | src/controller/bot_controller.py:256-350 | appends the tomato section, else the lettuce section, else the last pass |
| Controller.AIBot.FinishSteps | src/controller/bot_controller.py:344-350 | appends the last pass at the assembly |
| Controller.AIBot.MoveTowards | src/controller/bot_controller.py:97-107 | the game steps as Bot.MoveTowards describes: at most one unit move, along x first |
| Controller.AIBot.MoveToAnchorStep | src/controller/bot_controller.py:109-119 | moves one step toward the anchor iff the player is not near it, and returns whether it moved |
| Controller.AIBot.Update | src/controller/bot_controller.py:353-418 | bot and game step together exactly as Tick describes; the player count is kept, the queue still names only existing stations, and a valid kitchen stays valid |
| Controller.AIBot.RunStep | src/controller/bot_controller.py:370-418 | bot and game step as Run describes |
| Controller.AIBot.PerformStep | src/controller/bot_controller.py:391-418 | bot and game step as Perform describes |
| Controller.AIBot.InteractStep | src/controller/bot_controller.py:397-411 | an interaction step, including the bread replacement, steps as Perform describes |

## Left out

- The pygame view, the keyboard controller and the program entry point are not part of this model. They are rendering and input handling.
- Floating-point seconds and the wall clock. Time is integer milliseconds passed in as `now` (and `deltaTime`). The three-second cooking time, the 60-second order time, the 0.4-second step gap and the 0.5-second cook-wait cap become 3000, 60000, 400 and 500.
- A single `now` per call. The bot reads the clock several times within one `update`; the model uses one value for all of them.
- The `game_time` and `start_time` fields of `GameModel`. Nothing in the modelled code reads them.
- All `print` messages, including the cooking-progress message of a stove interaction. That branch changes no state and is modelled as "nothing changes".
- Kitchen.Interact, Kitchen.Chop, Game.GameModel.InteractWithStation and Game.GameModel.ChopAtStation require the player index to be at least minus the number of players. Below that, Python's list indexing raises IndexError; the model does not describe that error.
- Bot.MoveTowards: the one-grid-step bound is stated only for a player who starts on the map. Off the map, the clamp in `move_player` can move the player further in one press.
- The bot's player index is a natural number below the number of players. A negative or out-of-range index, for which Python raises or wraps, is not modelled for the bot. `interact_with_station` and `chop_at_station` do model Python's negative list indices from minus the number of players upward (`ResolvePlayer`).
- Order removal. `update` and delivery call `list.remove` by equality; the model removes by position. These agree: the removed order is always the first one equal to itself. Earlier survivors of the countdown have positive time, and an earlier burger order would have been chosen first.
- Game.GameModel.CountDownOrders works on a copy of the order list and assigns it back once. Python removes from `self.orders` while iterating a copy, which has the same final result.
- `_free_board` and `_free_stove` are one function, `Bot.FreeOfKind`, parameterised by the station kind. The tomato and lettuce plan sections are one function, `Bot.PlanVeg`.
- `_assembly_has_bread`, `_assembly_has`, `_assembly_has_chopped` and `_burger_ready_on_assembly` are inlined into the plan functions as `HasKind`, `HasChopped` and `BurgerOn`.
- `_cooldown` and `_step_gap` are constants (`Cooldown` = 0, `StepGap` = 400) rather than fields, since no code changes them. The cooldown test is kept.
- The bot's look-up methods read the station list of the `GameModel` they are given. The bot's queue names stations by index, which is stable because stations are never added or removed after setup.
- Order ids, dishes other than the burger, penalties for expired orders, earliest-deadline order choice and burnt patties are not in the code and are not modelled.
- Aliasing of `Item` objects between hand and station is not modelled. Items are values, which is exact because an item is always moved, never shared.
