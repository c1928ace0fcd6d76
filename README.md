# biosim in Dafny

A verified model of the core of **biosim**, a simulation of herbivores and carnivores on an
island. The island is a rectangle of cells: ocean, mountain, desert, jungle or savannah.
Each year, every habitable cell first feeds its herbivores from its fodder, then lets its
carnivores hunt the herbivores, lets the animals give birth and lets them migrate to a
neighbouring cell. Then every animal is freed to move again, grows a year older, loses
weight and may die.

The model has these modules:

| file | module | what it holds |
|---|---|---|
| `random_source.dfy` | `RandomSource` | the random generator as a fixed stream: class `Random` with a cursor `pos`, advanced by one at each `random()`, `randint` or `gauss` call |
| `util.dfy` | `Util` | duplicate-freedom and sequence filtering, shared by the other modules |
| `sorting.dfy` | `Sorting` | the stable descending sort `list.sort(key=..., reverse=True)` that `sort_fitness` uses, as a pure function with its sortedness, permutation and stability lemmas |
| `animals.dfy` | `Animals` | `Animal`, `Herbivore` and `Carnivore`. The class attributes are a parameter store `SpeciesParameters` with its `set_parameters`. An animal is a `class Animal` whose methods update its fields; every rule is also a pure function of a `Beast` snapshot of the animal |
| `landscape.dfy` | `Landscape` | `Landscape` and its five subclasses as one `class Cell` with a `Terrain`; the yearly phases of a cell as methods, each proved against a pure function of the animals' states (`Graze…`, `Stalk`, `Breed`, `Cull`, `Unwound`) |
| `mapping.dfy` | `Mapping` | `Island`: splitting the map text into rows, the checks of `create_map` (`Validate`) and the loops that build the grid |
| `cell_control.dfy` | `CellControl` | `Cells`: the grid, `generate_animals`, `move` (specified animal by animal by `Wander`/`Wanders`) and `cell_cycle` |

**How the source is expressed**
- Randomness is a parameter: each method that draws takes the `Random` object. Its contract names the stream positions it reads and how far `pos` advances. So the number and order of draws are part of what is proved.
- `math.exp` appears only inside the logistic factors of `fitness`. It is a parameter `logistic`, assumed to take values strictly between 0 and 1 (`IsLogistic`).
- Floating-point numbers are Dafny `real`s.
- Where the source does something odd, the model does it too, and a lemma states the oddity:
  - `herb_eating` gives a hungry herbivore `beta * (F - food)`: `ShortfallQuirk`.
  - `Landscape.__init__` sets the instance attribute `f_max` to 0, which hides the subclass's class attribute. So a jungle's fodder is always 0: `Cell.constructor` and `GrazeBarren`.
  - In `feeding_carn` the herbivores left are those the last hunting carnivore let go: `NoHunters` and `SatedDrops`.
  - In `survive`, the test `animal.survival() and specie == 'Herbivore'` is false for every carnivore, so a carnivore is judged on a second `survival()` draw alone and always uses two draws. A herbivore takes a second, wasted draw only when its first one fails: `Judge` and `CullDraws`.
  - `give_birth` on a lone parent has probability 0, yet a draw of exactly 0 still passes `random() <= 0`: a lone herbivore gives birth only on such a draw (`LoneParent`), and, when heavy enough and with a viable newborn weight, it does give birth on it (`LoneParentBirth`).
  - The West branch of `move` tests `'herbivore'`, so every animal that goes west lands in the carnivore list: `IntoHerbs`, stated in `Cells.Move`.

## Model

| member | source | states |
|---|---|---|
| RandomSource.RandIntValue | biosim/animals.py:87 | the value `randint(lo, hi)` yields always lies in `[lo, hi]` |
| RandomSource.Random.Uniform | biosim/animals.py:86 | `random()` returns the next stream value, in `[0, 1)`, and advances the cursor by one |
| RandomSource.Random.RandInt | biosim/animals.py:87 | `randint(1, 20)` returns the next raw entry reduced into `[lo, hi]` and advances the cursor by one |
| RandomSource.Random.Gauss | biosim/animals.py:124 | `gauss(mu, sigma)` is `mu + sigma * z` for the next deviate `z`, and advances the cursor by one |
| Sorting.SortDescSorted | biosim/landscape.py:58-59 | the sort leaves the keys in descending order |
| Sorting.SortDescPermutes | biosim/landscape.py:58-59 | the sort output is a permutation of its input |
| Sorting.SortDescStable | biosim/landscape.py:58-59 | elements with equal keys keep their input order (Python's sort is stable) |
| Sorting.SortDescFirsts | biosim/landscape.py:58-59 | the sorted animals are a permutation of the animals |
| Sorting.SortDescMap | biosim/landscape.py:58-59 | the sort only looks at the keys: relabelling the elements commutes with it |
| Animals.KeyRoundTrip | biosim/animals.py:38-39 | each of the fifteen parameter names maps back to its parameter |
| Animals.AssignFrame | biosim/animals.py:44 | `setattr` of one parameter changes that parameter and no other |
| Animals.ValidTableByName | biosim/animals.py:20-25 | a parameter table is valid exactly when every value lies in its open interval from `param_animal_limits` |
| Animals.AssignKeepsValid | biosim/animals.py:43-44 | writing a value inside its interval keeps the table valid |
| Animals.DefaultsValid | biosim/animals.py:157-170 | the herbivore and carnivore class constants all lie inside their limits |
| Animals.Resolve | biosim/animals.py:37-40 | the name check either rejects with an unknown key or turns every entry into a known parameter write |
| Animals.ResolvedWrites | biosim/animals.py:37-42 | on success the writes are the entries, in order, with their parameters named by the keys |
| Animals.ResolveStopsAt | biosim/animals.py:37-40 | the `KeyError` names the first unknown key, whatever follows it |
| Animals.ResolveAllKnown | biosim/animals.py:37-40 | a batch of known names is never rejected |
| Animals.ValidPrefix | biosim/animals.py:42-46 | the writes before the first out-of-range value are all in range, and the one it stops at is not |
| Animals.ApplyAllKeepsValid | biosim/animals.py:42-46 | applying writes that are in range keeps a valid table valid |
| Animals.ApplyAllLookup | biosim/animals.py:42-46 | after the writes each parameter holds its last written value, or its old one if it was never written |
| Animals.LastWrite | biosim/animals.py:42-46 | the last write of a parameter is a write of it, and no later write touches it |
| Animals.SpeciesParameters.constructor | biosim/animals.py:157-210 | the store starts with the class constants of both species, which are valid |
| Animals.SpeciesParameters.SetParameters | biosim/animals.py:27-46 | an unknown key raises `KeyError` before anything is written; otherwise the values are written in order up to the first out-of-range one, which raises `ValueError` and leaves earlier writes in place |
| Animals.SpeciesParameters.ApplyWrites | biosim/animals.py:42-46 | the write loop: the table after the valid prefix of writes, and an error exactly when the prefix is not the whole batch |
| Animals.FitnessBounds | biosim/animals.py:62-74 | fitness is 0 for a non-positive weight and strictly between 0 and 1 otherwise |
| Animals.BucketsAreEqual | biosim/animals.py:87-95 | each direction gets exactly five of the twenty `randint` values |
| Animals.MoveChoice | biosim/animals.py:84-95 | no move exactly when the draw exceeds `mu * fitness`, and otherwise the direction of the `randint` bucket |
| Animals.GrazeLeft | biosim/animals.py:181-188 | the fodder left lies in `[0, food]`: `food - F` when there is enough, and 0 otherwise |
| Animals.GrazeGain | biosim/animals.py:181-188 | the amount eaten is `F` when there is enough, and otherwise `F - food`, so that `food + gain == F` |
| Animals.ShortfallQuirk | biosim/animals.py:185-188 | with less fodder than the appetite a herbivore gains more the less fodder there is, and the full appetite when there is none |
| Animals.KillProbability | biosim/animals.py:221-226 | the kill probability is 0 exactly when `phi <= phi_herb`, and 1 exactly when the gap reaches `DeltaPhiMax`; between these it is the gap divided by `DeltaPhiMax` |
| Animals.MealEaten | biosim/animals.py:240-245 | the carnivore eats the smaller of what is offered and what it still wants |
| Animals.MealLeft | biosim/animals.py:240-245 | the appetite left plus the meal is the appetite; it is 0 exactly when the prey was enough |
| Animals.Survives | biosim/animals.py:147-149 | an animal survives exactly when its weight is positive and `omega * (1 - fitness)` is below the draw |
| Animals.SurvivalExtremes | biosim/animals.py:147-149 | a draw of 0 never spares an animal, and a draw of at least `omega` spares every animal of positive weight |
| Animals.BirthStep | biosim/animals.py:121-132 | birth needs `w >= zeta * (w_birth + sigma_birth)`, a draw `<= min(1, gamma * phi * (n - 1))`, a positive baby weight and a positive weight left; a mother loses `xi` times the baby's weight; at most two draws |
| Animals.Animal.constructor | biosim/animals.py:48-59 | a new animal has the given species, age and weight, no cached fitness and is free to move |
| Animals.Animal.Fitness | biosim/animals.py:62-74 | returns the fitness and caches it in `phi` only when the weight is positive |
| Animals.Animal.MoveDir | biosim/animals.py:76-95 | returns `MoveChoice` on the next draws, refreshes `phi`, and takes two draws when it moves and one when it does not |
| Animals.Animal.EatGainWeight | biosim/animals.py:97-104 | the weight grows by `beta` times the food |
| Animals.Animal.Aging | biosim/animals.py:106-110 | the age grows by one |
| Animals.Animal.LooseWeight | biosim/animals.py:134-138 | the weight becomes `w - eta * w`, strictly between 0 and `w` when `0 < eta < 1` and `w > 0` |
| Animals.Animal.GiveBirth | biosim/animals.py:112-132 | the mother's new state, the newborn (a fresh animal of her species, age 0, of the drawn weight) and the draws are those of `BirthStep` |
| Animals.Animal.Survival | biosim/animals.py:140-149 | returns `Survives` on the next draw, refreshes `phi`, and takes one draw |
| Animals.Animal.HerbEating | biosim/animals.py:175-188 | returns `GrazeLeft` and gains `beta` times `GrazeGain` |
| Animals.Animal.Kill | biosim/animals.py:215-229 | kills exactly when the next draw is below `KillProbability` of the cached fitnesses, and takes one draw |
| Animals.Animal.CarnEating | biosim/animals.py:231-245 | returns `MealLeft` and gains `beta` times `MealEaten` |
| Landscape.LandParamNamed | biosim/landscape.py:34-36 | only `f_max` and `alpha` name landscape parameters |
| Landscape.LandResolve | biosim/landscape.py:34-36 | a batch is rejected with one of its keys that is unknown, or turned into a write for every entry |
| Landscape.LandResolveStopsAt | biosim/landscape.py:34-36 | the `KeyError` names the first unknown key |
| Landscape.LandValidPrefix | biosim/landscape.py:38-42 | the writes before the first out-of-range value are in range, and the one it stops at is not |
| Landscape.LandApplyKeepsValid | biosim/landscape.py:38-42 | writing values in range keeps the landscape table valid |
| Landscape.LandApplyUntouched | biosim/landscape.py:38-42 | a parameter that no write names keeps its value |
| Landscape.TerrainParameters.constructor | biosim/landscape.py:160-183 | the store starts with the class constants of every landscape class |
| Landscape.TerrainParameters.SetParameters | biosim/landscape.py:24-42 | an unknown key raises `KeyError` before any write; otherwise the values are written in order up to the first one outside its open interval, which raises `ValueError` and leaves earlier writes in place |
| Landscape.TerrainParameters.ApplyWrites | biosim/landscape.py:38-42 | the write loop: the table after the valid prefix, and an error exactly when the prefix is not the whole batch |
| Landscape.RegrowBounds | biosim/landscape.py:189-193 | regrowing keeps the fodder between its old amount and `f_max`, and full fodder stays full |
| Landscape.FoodAfterBounds | biosim/landscape.py:173-175 | the fodder only decreases as the herbivores graze, and never drops below 0 |
| Landscape.FoodAfterEmpty | biosim/landscape.py:170-175 | a cell without fodder stays without fodder |
| Landscape.GrazeStates | biosim/landscape.py:173-175 | grazing changes only weights, and only those of animals that have not walked |
| Landscape.GrazeBarren | biosim/landscape.py:170-175 | in a jungle, whose fodder is always 0, every herbivore that has not walked gains `beta * F`, and the fodder stays 0 |
| Landscape.RankedSpec | biosim/landscape.py:58-59 | the list sorted by fitness is a permutation of the list, stable for equal fitness |
| Landscape.SortKeepsValid | biosim/landscape.py:58-59 | sorting keeps both lists duplicate-free and the herbivore list herbivores only |
| Landscape.FitnessOrderSpec | biosim/landscape.py:51-59 | `sort_fitness` leaves each list a permutation of itself, with descending fitness and equal fitness in the old order |
| Landscape.RankedEntries | biosim/landscape.py:58-59 | sorting animals by their fitness is sorting the (animal, state) pairs by the state's fitness |
| Landscape.SortedStates | biosim/landscape.py:58-59 | after sorting, each animal still carries its own state |
| Landscape.Stalk | biosim/landscape.py:76-88 | the carnivores' hunt feeds every carnivore, and hunts and lets go duplicate-free lists of herbivores |
| Landscape.HuntKeeps | biosim/landscape.py:80-87 | one hunt only adds to the herbivores let go, only with hunted ones, and leaves the carnivore with a cached fitness |
| Landscape.HuntSurvivors | biosim/landscape.py:80-87 | every herbivore let go was hunted or already let go |
| Landscape.HuntAppetite | biosim/landscape.py:78-87 | the appetite left lies between 0 and the start, with one draw per herbivore tried; a carnivore still hungry has tried them all |
| Landscape.HuntGain | biosim/landscape.py:80-83 | one hunt feeds the carnivore `beta` times the appetite it used up |
| Landscape.SatedDrops | biosim/landscape.py:80-88 | a kill that fills the carnivore ends the hunt, and the herbivores not yet tried are lost to the cell |
| Landscape.NoHunters | biosim/landscape.py:74-90 | when no carnivore may hunt, no number is drawn and the herbivore list becomes empty |
| Landscape.StalkFed | biosim/landscape.py:76-88 | every carnivore keeps its species, age and walked flag and ends with a cached fitness; one that does not hunt is unchanged |
| Landscape.HuntCarn | biosim/landscape.py:80-87 | the hunter's species, age and walked flag survive one hunt |
| Landscape.Bear | biosim/landscape.py:115-124 | a walked animal takes no part; otherwise the parent keeps its species, age and flag, stays positive, is no heavier; a newborn has positive weight; at most two draws |
| Landscape.BreedSnoc | biosim/landscape.py:115-127 | the birth loop goes one animal at a time, and each newborn joins the list of its parent's species |
| Landscape.BreedParents | biosim/landscape.py:115-124 | every animal is replaced by a parent of the same species, age and flag, no heavier and still positive; a walked animal is untouched |
| Landscape.BreedBabies | biosim/landscape.py:112-127 | at most one newborn per not-walked animal of the species, each of positive weight, and at most two draws per not-walked animal |
| Landscape.LoneParent | biosim/animals.py:122-123 | a lone herbivore has birth probability 0, so it gives birth only when the draw is exactly 0 |
| Landscape.LoneParentBirth | biosim/animals.py:112-132 | a lone herbivore at or above the weight threshold, with a positive newborn weight that leaves it a positive weight, does give birth on a draw of exactly 0 |
| Landscape.Judge | biosim/landscape.py:137-143 | an animal is kept only in its own species' list and only with positive weight; a carnivore always takes two draws |
| Landscape.CullSnoc | biosim/landscape.py:137-143 | the survival loop goes one animal at a time |
| Landscape.CullOrdered | biosim/landscape.py:134-146 | the survivors keep their old order |
| Landscape.CullKinds | biosim/landscape.py:134-146 | each new list holds animals of its species only, all of positive weight |
| Landscape.CullDraws | biosim/landscape.py:137-143 | `survive` takes one or two draws per animal |
| Landscape.CullKeepsSpared | biosim/landscape.py:138-140 | the `fitness() != 0` test never rejects an animal that `survival()` spared |
| Landscape.UnwoundSpec | biosim/landscape.py:148-153 | before `survive`, every animal may move again, is a year older and keeps its species |
| Landscape.SlimmedBounds | biosim/animals.py:134-138 | losing weight keeps a positive weight positive and makes it strictly smaller, and changes nothing else |
| Landscape.ReadyJoin | biosim/landscape.py:56-59 | two lists together can be sorted, with only carnivores hunting, exactly when each can |
| Landscape.StalkReady | biosim/landscape.py:76-90 | after the hunt every remaining animal has a cached fitness, and only carnivores can hunt |
| Landscape.BreedReady | biosim/landscape.py:112-127 | after `birth` both lists can still be sorted, and only carnivores can hunt |
| Landscape.CullRests | biosim/landscape.py:133-146 | the survivors may all move, have positive weight, and the carnivore list holds carnivores only |
| Landscape.ValidYearly | biosim/animals.py:20-25 | valid parameter tables meet what a year needs of the constants |
| Landscape.Cell.constructor | biosim/landscape.py:44-49 | a new cell has empty lists, and its instance `f_max` and fodder are 0 whatever its class; only ocean and mountain are not habitable |
| Landscape.Cell.RestedReady | biosim/landscape.py:157-162 | a cell left by the second pass is ready for the next year |
| Landscape.Cell.SortFitness | biosim/landscape.py:51-59 | refreshes every fitness and sorts each list by `FitnessOrder`, a permutation of the list |
| Landscape.Cell.Sort | biosim/landscape.py:58-59 | sorts each list stably in descending fitness, as a permutation |
| Landscape.Cell.Refresh | biosim/landscape.py:56-57 | each animal's state becomes its refreshed state |
| Landscape.Cell.Graze | biosim/landscape.py:173-175 | the herbivores graze in list order from the starting fodder; the fodder left is `FoodAfter`; the carnivores are unchanged |
| Landscape.Cell.FeedingHerb | biosim/landscape.py:61-65 | the cell ends in the state `HerbFed` gives: jungle and savannah sort and feed their herbivores, a savannah regrows first, other terrains change nothing |
| Landscape.Cell.FeedHerbivores | biosim/landscape.py:170-175 | sorts both lists by fitness and then grazes the herbivores |
| Landscape.Cell.FeedingCarn | biosim/landscape.py:67-90 | the cell ends in the state `CarnFed` gives: with both lists non-empty, the sorted carnivores hunt as `Stalk` says, and the herbivore list is what the last hunter let go |
| Landscape.Cell.HuntAll | biosim/landscape.py:73-90 | the carnivore list is kept; the carnivores are fed and the herbivores left are those of `Stalk` |
| Landscape.Cell.HuntList | biosim/landscape.py:76-88 | the loop over the carnivores produces the states and survivors of `Stalk` |
| Landscape.Cell.HuntOne | biosim/landscape.py:78-88 | one carnivore's hunt gives the state, draws and survivors of `HuntFrom` |
| Landscape.Cell.Devour | biosim/landscape.py:81-83 | a kill feeds the carnivore, refreshes its fitness and returns `MealLeft` |
| Landscape.Cell.Birth | biosim/landscape.py:106-127 | the cell ends in the state `Littered` gives: parents as `Breed` makes them, and each list extended by the fresh newborns of its species in birth order |
| Landscape.Cell.BirthPass | biosim/landscape.py:115-124 | the birth loop gives the parents and newborns of `Breed`; the newborns are fresh and distinct |
| Landscape.Cell.BirthOne | biosim/landscape.py:116-124 | one animal's turn is `Bear` |
| Landscape.Cell.Survive | biosim/landscape.py:129-146 | the cell ends in the state `Culled` gives: each list is the survivors of `Cull` of its species, in order |
| Landscape.Cell.SurvivePass | biosim/landscape.py:137-143 | the survival loop gives the verdicts of `Cull` |
| Landscape.Cell.SurviveOne | biosim/landscape.py:138-143 | one animal's verdict is `Judge` |
| Landscape.Cell.Age | biosim/landscape.py:92-97 | every animal is a year older and nothing else changes |
| Landscape.Cell.WeightLoss | biosim/landscape.py:99-104 | every animal loses the fraction `eta` of its weight and nothing else changes |
| Landscape.Cell.SetNotWalkedTrue | biosim/landscape.py:148-153 | every animal may move again; the lists are unchanged |
| Landscape.Cell.HerbPhase | biosim/landscape.py:166-175 | `feeding_herb` in the first pass: `HerbFed`, with the cell still ready and no animal added |
| Landscape.Cell.CarnPhase | biosim/landscape.py:67-90 | `feeding_carn` in the first pass: `CarnFed`, with the cell still ready and no animal added |
| Landscape.Cell.BirthPhase | biosim/landscape.py:106-127 | `birth` in the first pass: `Littered`, with the cell still ready and only fresh animals added |
| Landscape.Cell.RestPhase | biosim/landscape.py:92-153 | the second pass on one cell: `YearEnded`, which is `survive` on the states left by `set_not_walked_true`, `age` and `weight_loss`; the cell ends rested |
| Mapping.Flush | biosim/mapping.py:51 | a word in progress is emitted once, and nothing is emitted when there is none |
| Mapping.WordsShape | biosim/mapping.py:51 | every piece of `split()` is non-empty and contains no whitespace |
| Mapping.SplitLines | biosim/mapping.py:41-51 | splitting rows joined by newlines gives the rows back |
| Mapping.TerrainOf | biosim/mapping.py:70-83 | exactly the letters D, J, S, O and M name a landscape class |
| Mapping.LetterRoundTrip | biosim/mapping.py:72-81 | letters and landscape classes correspond one to one |
| Mapping.EdgeScan | biosim/mapping.py:58-63 | the loop over a row's letters rejects it exactly when its first or last letter is not `O` |
| Mapping.Terrains | biosim/mapping.py:70-81 | every letter of a map of known letters becomes the class its letter names, in a grid of the map's shape |
| Mapping.AcceptedMap | biosim/mapping.py:51-85 | an accepted map is a non-empty rectangle of its letters' terrains whose border cells are all ocean and not habitable |
| Mapping.Island.constructor | biosim/mapping.py:21-42 | the map is the given text, or the default map when none is given |
| Mapping.Island.CreateMap | biosim/mapping.py:44-85 | fails exactly when `Validate` does, with the same error; otherwise a fresh, empty cell of each letter's terrain, in the map's shape |
| Mapping.Island.EndsOcean | biosim/mapping.py:54-56 | accepts exactly when every letter of the first and last rows is `O` |
| Mapping.Island.SidesScan | biosim/mapping.py:58-63 | accepts exactly when every row starts and ends with `O` |
| Mapping.Island.Convert | biosim/mapping.py:70-83 | fails exactly when some letter is unknown; otherwise it builds the grid of `Terrains` |
| Mapping.Island.ConvertRow | biosim/mapping.py:71-83 | one row: fails exactly when one of its letters is unknown, and otherwise makes a new cell for each letter |
| CellControl.Wander | biosim/cell_control.py:76-141 | one animal in `move`: a walked animal stays, unchanged, with no draw; otherwise one or two draws, and it goes only to a habitable neighbour, after which it is marked walked |
| CellControl.Wanders | biosim/cell_control.py:76 | the loop takes one `Wander` per animal in list order, each starting where the last one's draws ended |
| CellControl.WandersReady | biosim/cell_control.py:76-144 | what `move` puts in a list can still be sorted; in a neighbour only walked animals arrive; the cell's own carnivore list gets only carnivores |
| CellControl.ChainedWanders | biosim/cell_control.py:76-78 | each step of `Wanders` starts at the stream position where the previous step ended |
| CellControl.WalkedStays | biosim/cell_control.py:77-141 | an animal that has already walked stays where it is, unchanged, and takes no draw |
| CellControl.GoesOnce | biosim/cell_control.py:77-87 | an animal a `move` has sent to a neighbour stays put in every later `move` of the same year |
| CellControl.WhereSpec | biosim/cell_control.py:76-144 | the animals landing in a list are exactly those whose step sends them there, each once and in list order |
| CellControl.MoveCount | biosim/cell_control.py:76-144 | `move` neither loses nor duplicates an animal: each lands in exactly one of the ten lists |
| CellControl.PyIndex | biosim/cell_control.py:52-55 | a Python index, negative ones counting from the end, is valid exactly in `[-n, n)` |
| CellControl.SpeciesNamed | biosim/cell_control.py:59-64 | only `'Herbivore'` and `'Carnivore'` name a species |
| CellControl.Strays | biosim/cell_control.py:58-64 | the entries that name no species are skipped |
| CellControl.SettlersSpec | biosim/cell_control.py:58-64 | each entry of a `pop` list becomes an animal of the species it names, or is skipped; none is lost or counted twice |
| CellControl.SettlersReady | biosim/cell_control.py:58-64 | animals created from entries of positive weight can be ranked, are of the species the list is for, and have not walked |
| CellControl.Cells.constructor | biosim/cell_control.py:22-45 | a new grid holds the population and map it is given, is valid, and has no animals |
| CellControl.Cells.Create | biosim/cell_control.py:22-45 | uses the default population when none is given; the map error of `create_map` is the failure, and on success every cell is empty and of its letter's terrain |
| CellControl.Cells.Target | biosim/cell_control.py:52-55 | the 1-based location, with Python's negative indexing, picks a cell inside the grid |
| CellControl.Cells.FirstFault | biosim/cell_control.py:51-56 | the records before the first faulty one are all placeable, and the one it stops at is faulty |
| CellControl.Cells.FirstFaultUnique | biosim/cell_control.py:51-56 | there is only one first faulty record |
| CellControl.Cells.ArrivalsReady | biosim/cell_control.py:51-64 | the animals of one species that records of positive weight place on a cell can be ranked, are of that species, and have not walked |
| CellControl.Cells.Populated | biosim/cell_control.py:51-64 | a valid grid whose original lists were ready, grown by the animals of records of positive weight, is ready |
| CellControl.Cells.GenerateAnimals | biosim/cell_control.py:47-64 | places the records in order and stops at the first faulty one with its error; each placed cell gains the `Settlers` of its records, in order; a ready grid stays ready when every placed record has a positive weight |
| CellControl.Cells.PlaceAt | biosim/cell_control.py:58-64 | one record appends its settlers to the target cell |
| CellControl.Cells.Settle | biosim/cell_control.py:58-64 | a `pop` list appends its herbivores and carnivores to the cell's lists |
| CellControl.Cells.SettleOne | biosim/cell_control.py:59-64 | one entry appends a new animal to the list of its species, or nothing |
| CellControl.Cells.Move | biosim/cell_control.py:66-144 | the cell keeps the animals whose step is `Stay`, in order; each neighbour gets appended those that go there, in the list their step picks (West sends every animal to `pop_carn`); no other cell changes |
| CellControl.Cells.Scatter | biosim/cell_control.py:73-144 | `move` on a valid grid: the new layout `Disperse` states, and the grid stays valid |
| CellControl.Cells.HerbAt | biosim/cell_control.py:152 | `feeding_herb` on one cell: `HerbFed`; the grid stays valid and ready |
| CellControl.Cells.CarnAt | biosim/cell_control.py:153 | `feeding_carn` on one cell: `CarnFed`; the grid stays valid and ready |
| CellControl.Cells.BreedAt | biosim/cell_control.py:154 | `birth` on one cell: `Littered`; the newborns join the grid, which stays valid and ready |
| CellControl.Cells.MigrateAt | biosim/cell_control.py:155 | `move` on one cell: `Migration`, with the far cells unchanged; the grid stays valid and ready |
| CellControl.Cells.Migrated | biosim/cell_control.py:76-144 | after a `move` every cell is still ready, and every animal in it was in the grid before |
| CellControl.Cells.RestAt | biosim/cell_control.py:159-162 | the second pass on one cell: `YearEnded`, the cell rested, and other rested cells still rested |
| CellControl.Cells.YearAt | biosim/cell_control.py:152-155 | the first pass on one cell keeps the grid valid and ready, and adds only fresh animals |
| CellControl.Cells.FirstPass | biosim/cell_control.py:150-155 | the first pass, row by row, keeps the grid valid and ready, and adds only fresh animals |
| CellControl.Cells.SecondPass | biosim/cell_control.py:157-162 | the second pass, row by row, leaves every cell rested |
| CellControl.Cells.RestRow | biosim/cell_control.py:158-162 | the second pass over one row leaves that row rested and keeps other rows rested |
| CellControl.Cells.CellCycle | biosim/cell_control.py:146-162 | one year keeps the grid valid and leaves every cell rested (every animal may move again, has positive weight, and the carnivore lists hold carnivores only) and ready for the next year |

## Left out

- `math.exp` and floating point: `fitness` uses a logistic parameter that is assumed to take values strictly between 0 and 1, over Dafny reals. Three consequences follow:
  - fitness is never 0 for a positive weight, so the `fitness() != 0` tests of `survive` (`biosim/landscape.py:139,142`) never reject anything, as `CullKeepsSpared` shows;
  - the `OverflowError` that `math.exp` raises for large arguments is not modelled;
  - float rounding is not modelled.
- `RandomSource.Random.Gauss`: `random.gauss` is a stream of its own, of which each call consumes one position. CPython's `gauss` draws two `random()` values per pair of deviates and caches the second, so the interleaving of `gauss` and `random()` values is not modelled.
- The `death_rate` attribute that `survival` writes (`biosim/animals.py:58,147`) is not kept. Nothing reads it.
- In Python, calling `sort_fitness` or `kill` on an animal whose `phi` is `None`, or on a carnivore without `DeltaPhiMax`, raises a `TypeError` or `AttributeError`. The model treats these as preconditions instead:
  - `Rankable`: every animal of a list that is sorted has a cached fitness or a positive weight;
  - `HuntersOnly`: only carnivores can hunt;
  - `KillReady`: `DeltaPhiMax` is defined and positive;
  - `phi.Some?`.

  The failure paths are not modelled. The preconditions are slightly stronger than Python's behaviour: `list.sort` compares no keys for a list of fewer than two animals, so a cell whose only herbivore has weight 0 (and so `phi` `None`) runs in Python, while `Rankable` excludes it. Apart from such lone animals, these are the states the program produces: `CellControl.Cells.GenerateAnimals` ensures the grid is ready (`AllReady`) after placing records whose weights are all positive, and `CellControl.Cells.CellCycle` ensures it stays ready from one year to the next.
- `set_parameters` called on the base classes `Animal` and `Landscape` rather than on a subclass is not modelled. It writes attributes of the base class, which the subclasses' own constants hide. The model has one parameter table per species and per landscape class.
- `Landscape.Cell.FeedingHerb`, `CellControl.Cells.HerbAt`, `FirstPass`, `YearAt` and `CellCycle` take Savannah's `alpha` as an argument. The model does not tie it to `TerrainParameters.table[Savannah].alpha`.
- Jungle and Savannah `f_max` class values and `TerrainParameters.SetParameters` writes to `f_max` have no effect on cells: the instance attribute set by `Landscape.__init__` hides them (see `Cell.constructor`). The model keeps this.
- `CellControl.Cells.CellCycle`: the promise that each animal moves at most once per year is stated per step, by `WalkedStays` and `GoesOnce`. The model has no single lemma that composes it over all the `move` calls of a year.
- `CellControl.Cells.YearAt`: states only that the grid stays valid and ready and that new animals are fresh. What `feeding_herb`, `feeding_carn`, `birth` and `move` do to the cells is stated by `HerbAt` (`HerbFed`), `CarnAt` (`CarnFed`), `BreedAt` (`Littered`) and `MigrateAt` (`Migration`), and is not chained into one postcondition.
- `CellControl.Cells.FirstPass`: states only that the grid stays valid and ready and that new animals are fresh; the contents of each cell after the first pass are not stated.
- `CellControl.Cells.SecondPass`: states only that every cell is rested (`AllRested`) and the grid valid; the exact contents after `set_not_walked_true`, `age`, `weight_loss` and `survive` are stated per cell by `RestAt` (`YearEnded`), not for the whole grid.
- `CellControl.Cells.RestRow`: states only that the grid stays valid, the cells of its row are rested and rested cells of other rows stay rested; the per-cell contents come from `RestAt` (`YearEnded`).
- `CellControl.Cells.CellCycle`: states validity, readiness and restedness of the whole grid. The exact new contents of each cell are given step by step by the per-cell wrappers (`HerbAt`, `CarnAt`, `BreedAt`, `MigrateAt`, `RestAt`), not composed into one formula for the year.
- The `food_source` attribute of `Cells` (`biosim/cell_control.py:45`) is set and never read, so it is not kept.
- `textwrap.dedent` is not modelled. The default map is given by its rows, and `split()` makes indentation irrelevant (`WordsJoin`).
- `Island.finished_map`, an attribute holding the last map built, is not kept. `CreateMap` returns the map.
- `biosim/simulation.py` (plotting, the yearly loop driver, statistics) is not part of this model.
- Integers in locations and ages are unbounded. Python integers are unbounded too.
