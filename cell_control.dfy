/**
 * The grid of cells, the placing of the initial animals, migration between neighbouring
 * cells and the yearly cycle (`biosim/cell_control.py`).
 *
 * `move` is specified one animal at a time by `Wander`: the animal's state afterwards,
 * where it goes and how many draws it costs. `Wanders` chains these over the cell's
 * `pop_herb + pop_carn`, and `Where` collects, for every destination and list, the
 * positions of the animals that end up there, in their old order.
 */
module CellControl {
  import opened Util
  import opened RandomSource
  import opened Animals
  import opened Landscape
  import opened Mapping

  // ---------------------------------------------------------------------------
  // Migration of one cell's animals
  // ---------------------------------------------------------------------------

  /** Where an animal of the cell ends up: in the cell itself or in a neighbour. */
  datatype Dest = Stay | Go(dir: Direction)

  /** Which of the four neighbours of the cell are habitable. */
  datatype Around = Around(north: bool, east: bool, south: bool, west: bool)

  predicate Open(around: Around, d: Direction)
  {
    match d
    case North => around.north
    case East => around.east
    case South => around.south
    case West => around.west
  }

  /** The neighbour in direction `d` of the cell at row `x`, column `y`. */
  function Neighbour(x: int, y: int, d: Direction): (int, int)
  {
    match d
    case North => (x - 1, y)
    case East => (x, y + 1)
    case South => (x + 1, y)
    case West => (x, y - 1)
  }

  /**
   * Whether an animal of species `sp` bound for `dest` joins the herbivore list there.
   * Every branch of `move` tests the species against `'Herbivore'`, except the West branch,
   * which tests it against `'herbivore'` and so sends every animal to `pop_carn`.
   */
  predicate IntoHerbs(sp: Species, dest: Dest)
  {
    sp == Herbivore && dest != Go(West)
  }

  /** One animal's part in `move`: its state afterwards, where it ends up, and the stream
      position after its draws. */
  datatype Step = Step(after: Beast, dest: Dest, pos: nat)

  /**
   * `move` on one animal in state `b`, with its first draw at `pos`. A walked animal stays,
   * untouched and without a draw. A not-walked one calls `move_dir`, which refreshes its
   * fitness; it goes only where a direction was drawn and that neighbour is habitable,
   * and then it is marked as walked.
   */
  function Wander(c: Constants, b: Beast, around: Around, u: nat -> Unit, raw: nat -> nat, pos: nat): (s: Step)
    ensures s.after.species == b.species && s.after.age == b.age && s.after.weight == b.weight
    ensures b.phi.Some? ==> s.after.phi.Some?
    ensures !b.notWalked ==> s == Step(b, Stay, pos)
    ensures b.notWalked ==> pos < s.pos <= pos + 2
    ensures s.dest.Go? ==> b.notWalked && !s.after.notWalked && Open(around, s.dest.dir)
    ensures s.dest == Stay ==> s.after.notWalked == b.notWalked
  {
    if !b.notWalked then Step(b, Stay, pos)
    else
      var t := c.For(b.species);
      var refreshed := b.(phi := CachedFitness(t, c.logistic, b.age, b.weight, b.phi));
      var d := MoveChoice(t, c.logistic, b.age, b.weight, u(pos), raw(pos + 1));
      var next := if d.Some? then pos + 2 else pos + 1;
      if d.Some? && Open(around, d.value) then Step(refreshed.(notWalked := false), Go(d.value), next)
      else Step(refreshed, Stay, next)
  }

  /** The stream position after `steps`, which started at `pos`. */
  function Last(steps: seq<Step>, pos: nat): nat
  {
    if steps == [] then pos else steps[|steps| - 1].pos
  }

  /** The loop of `move` over animals in states `bs`, one `Wander` each, in list order. */
  function Wanders(c: Constants, bs: seq<Beast>, around: Around, u: nat -> Unit, raw: nat -> nat, pos: nat): (r: seq<Step>)
    ensures |r| == |bs|
    ensures forall k :: 0 <= k < |bs| ==>
      && r[k].after.species == bs[k].species && r[k].after.age == bs[k].age && r[k].after.weight == bs[k].weight
      && (bs[k].phi.Some? ==> r[k].after.phi.Some?)
      && (!bs[k].notWalked ==> r[k].after == bs[k] && r[k].dest == Stay)
      && (r[k].dest.Go? ==> bs[k].notWalked && !r[k].after.notWalked && Open(around, r[k].dest.dir))
      && (r[k].dest == Stay ==> r[k].after.notWalked == bs[k].notWalked)
    ensures pos <= Last(r, pos)
    decreases |bs|
  {
    if bs == [] then []
    else
      var h := Wanders(c, bs[..|bs| - 1], around, u, raw, pos);
      h + [Wander(c, bs[|bs| - 1], around, u, raw, Last(h, pos))]
  }

  /** The states of the animals after the steps `h`. */
  function Afters(h: seq<Step>): (r: seq<Beast>)
    ensures |r| == |h| && forall k :: 0 <= k < |h| ==> r[k] == h[k].after
  {
    seq(|h|, k requires 0 <= k < |h| => h[k].after)
  }

  /**
   * What `move` puts into a list, from animals that could all be sorted: animals that still
   * can; in a neighbour's list only walked ones, and in the cell's own carnivore list only
   * carnivores, so that no herbivore there can hunt.
   */
  lemma WandersReady(c: Constants, bs: seq<Beast>, around: Around, u: nat -> Unit, raw: nat -> nat, pos: nat,
                     dest: Dest, toHerbs: bool)
    requires Rankable(bs)
    ensures var h := Wanders(c, bs, around, u, raw, pos);
      var a := Pick(Afters(h), Where(h, dest, toHerbs));
      Rankable(a) && (dest.Go? || !toHerbs ==> HuntersOnly(a))
  {
    var h := Wanders(c, bs, around, u, raw, pos);
    WhereSpec(h, dest, toHerbs);
  }

  /** Where the draws of the step `h[j]` start: where those of the step before it stopped. */
  function Before(h: seq<Step>, j: int, pos: nat): nat
    requires 0 <= j <= |h|
  {
    if j == 0 then pos else h[j - 1].pos
  }

  /** The steps `h` follow one another as in `move`: each is the `Wander` of the matching
      state of `bs`, drawing from where the one before it stopped. */
  ghost predicate Chained(c: Constants, bs: seq<Beast>, around: Around, u: nat -> Unit, raw: nat -> nat,
                          pos: nat, h: seq<Step>)
    requires |h| <= |bs|
  {
    forall j {:trigger bs[j]} :: 0 <= j < |h| ==> h[j] == Wander(c, bs[j], around, u, raw, Before(h, j, pos))
  }

  /** `Chained` characterises `Wanders` step by step. */
  lemma {:induction false} ChainedWanders(c: Constants, bs: seq<Beast>, around: Around, u: nat -> Unit,
                                          raw: nat -> nat, pos: nat, h: seq<Step>)
    requires |h| == |bs|
    ensures Chained(c, bs, around, u, raw, pos, h) <==> h == Wanders(c, bs, around, u, raw, pos)
    decreases |bs|
  {
    if bs != [] {
      var n := |bs| - 1;
      var w := Wanders(c, bs[..n], around, u, raw, pos);
      ChainedWanders(c, bs[..n], around, u, raw, pos, h[..n]);
      ChainedSnoc(c, bs, around, u, raw, pos, h);
      assert Wanders(c, bs, around, u, raw, pos) == w + [Wander(c, bs[n], around, u, raw, Last(w, pos))];
      SplitLast(h);
    }
  }

  /** `Chained` one step at a time: the last step follows on from the others. */
  lemma ChainedSnoc(c: Constants, bs: seq<Beast>, around: Around, u: nat -> Unit, raw: nat -> nat,
                    pos: nat, h: seq<Step>)
    requires |h| == |bs| > 0
    ensures var n := |bs| - 1;
      Chained(c, bs, around, u, raw, pos, h) <==>
        Chained(c, bs[..n], around, u, raw, pos, h[..n]) && h[n] == Wander(c, bs[n], around, u, raw, Last(h[..n], pos))
  {
    var n := |bs| - 1;
    assert Last(h[..n], pos) == Before(h, n, pos) by {
      if n > 0 {
        assert h[..n][n - 1] == h[n - 1];
      }
    }
    if Chained(c, bs, around, u, raw, pos, h) {
      forall j | 0 <= j < n
        ensures h[..n][j] == Wander(c, bs[..n][j], around, u, raw, Before(h[..n], j, pos))
      {
        assert h[j] == Wander(c, bs[j], around, u, raw, Before(h, j, pos));
      }
    }
    if Chained(c, bs[..n], around, u, raw, pos, h[..n]) && h[n] == Wander(c, bs[n], around, u, raw, Last(h[..n], pos)) {
      forall j | 0 <= j < |h|
        ensures h[j] == Wander(c, bs[j], around, u, raw, Before(h, j, pos))
      {
        if j < n {
          assert h[j] == h[..n][j] && bs[j] == bs[..n][j];
          assert j > 0 ==> h[j - 1] == h[..n][j - 1];
        }
      }
    }
  }

  /** In `move`, an animal that has already walked this year stays where it is, unchanged,
      and takes no draw from the stream. */
  lemma WalkedStays(c: Constants, bs: seq<Beast>, around: Around, u: nat -> Unit, raw: nat -> nat,
                    pos: nat, k: nat)
    requires k < |bs| && !bs[k].notWalked
    ensures var h := Wanders(c, bs, around, u, raw, pos);
      h[k] == Step(bs[k], Stay, Before(h, k, pos)) && Before(h, k + 1, pos) == Before(h, k, pos)
  {
    var h := Wanders(c, bs, around, u, raw, pos);
    ChainedWanders(c, bs, around, u, raw, pos, h);
    assert h[k] == Wander(c, bs[k], around, u, raw, Before(h, k, pos));
  }

  /** An animal goes at most once: once a `move` has sent it to a neighbour, any later `move`
      that finds it in that state leaves it there, unchanged and without a draw. */
  lemma GoesOnce(c: Constants, bs: seq<Beast>, around: Around, u: nat -> Unit, raw: nat -> nat, pos: nat, k: nat,
                 later: seq<Beast>, around2: Around, pos2: nat, m: nat)
    requires k < |bs| && Wanders(c, bs, around, u, raw, pos)[k].dest.Go?
    requires m < |later| && later[m] == Wanders(c, bs, around, u, raw, pos)[k].after
    ensures var h := Wanders(c, later, around2, u, raw, pos2);
      h[m] == Step(later[m], Stay, Before(h, m, pos2))
  {
    WalkedStays(c, later, around2, u, raw, pos2, m);
  }

  /** The positions, in list order, of the animals whose step sends them to `dest` and into
      the herbivore list there (`toHerbs`) or into the carnivore list (`!toHerbs`). */
  function Where(steps: seq<Step>, dest: Dest, toHerbs: bool): (r: seq<nat>)
    ensures forall k :: 0 <= k < |r| ==> r[k] < |steps|
    decreases |steps|
  {
    if steps == [] then []
    else
      var n := |steps| - 1;
      var h := Where(steps[..n], dest, toHerbs);
      if Lands(steps[n], dest, toHerbs) then h + [n] else h
  }

  /** The step sends its animal to `dest`, into the list `toHerbs` selects. */
  predicate Lands(s: Step, dest: Dest, toHerbs: bool)
  {
    s.dest == dest && IntoHerbs(s.after.species, dest) == toHerbs
  }

  /** `Where` lists exactly the positions of the animals that land in that list, each once,
      in increasing order. */
  lemma {:induction false} WhereSpec(steps: seq<Step>, dest: Dest, toHerbs: bool)
    ensures var r := Where(steps, dest, toHerbs);
      && Increasing(r)
      && (forall k :: 0 <= k < |r| ==> Lands(steps[r[k]], dest, toHerbs))
      && (forall k :: 0 <= k < |steps| && Lands(steps[k], dest, toHerbs) ==> k in r)
    decreases |steps|
  {
    if steps != [] {
      var n := |steps| - 1;
      WhereSpec(steps[..n], dest, toHerbs);
    }
  }

  /** The ten places an animal of the cell can end up in: the cell's two lists, or one of
      the two lists of one of the four neighbours. */
  function Tally(steps: seq<Step>): nat
  {
    |Where(steps, Stay, true)| + |Where(steps, Stay, false)|
    + |Where(steps, Go(North), true)| + |Where(steps, Go(North), false)|
    + |Where(steps, Go(East), true)| + |Where(steps, Go(East), false)|
    + |Where(steps, Go(South), true)| + |Where(steps, Go(South), false)|
    + |Where(steps, Go(West), true)| + |Where(steps, Go(West), false)|
  }

  /** `move` loses and duplicates no animal: every animal of the cell lands in exactly one
      of the ten lists. */
  lemma {:induction false} MoveCount(steps: seq<Step>)
    ensures Tally(steps) == |steps|
    decreases |steps|
  {
    if steps != [] {
      var n := |steps| - 1;
      MoveCount(steps[..n]);
      var s := steps[n];
      match s.dest {
        case Stay =>
        case Go(d) =>
          match d {
            case North =>
            case East =>
            case South =>
            case West =>
          }
      }
    }
  }

  // ---------------------------------------------------------------------------
  // The initial population
  // ---------------------------------------------------------------------------

  /** One entry of a `pop` list: a species name, an age and a weight. */
  datatype Individual = Individual(species: string, age: int, weight: real)

  /** One entry of `population_cell`: a 1-based `loc` and the animals to place there. */
  datatype Placement = Placement(loc: (int, int), pop: seq<Individual>)

  /** The population `Cells()` places when it is given none: 100 herbivores at (2, 18) and
      50 carnivores at (5, 17). */
  const DefaultPopulation: seq<Placement> := [
    Placement((2, 18), seq(100, _ => Individual("Herbivore", 8, 16.0))),
    Placement((5, 17), seq(50, _ => Individual("Carnivore", 10, 14.2)))
  ]

  /** Why `generate_animals` stops: an `IndexError` for a location off the grid, or the
      `ValueError` for a cell that is not habitable. */
  datatype PlaceError = OffMap | NotHabitable

  /** Python's `s[i]` on a list of length `n`: a negative index counts from the end. */
  function PyIndex(i: int, n: nat): (r: Option<nat>)
    ensures r.Some? <==> -(n as int) <= i < n
    ensures r.Some? ==> r.value < n && (r.value == i || r.value == i + n)
  {
    if 0 <= i < n then Some(i) else if -(n as int) <= i < 0 then Some(i + n) else None
  }

  /** The species a name in a `pop` entry selects; any other name is skipped. */
  function SpeciesNamed(name: string): (r: Option<Species>)
    ensures r == Some(Herbivore) <==> name == "Herbivore"
    ensures r == Some(Carnivore) <==> name == "Carnivore"
  {
    if name == "Herbivore" then Some(Herbivore)
    else if name == "Carnivore" then Some(Carnivore)
    else None
  }

  /** A new animal of species `sp`, made from an entry: no cached fitness, free to move. */
  function Settler(sp: Species, ind: Individual): Beast
  {
    Beast(sp, ind.age, ind.weight, None, true)
  }

  /** The animals of species `sp` that a `pop` list adds, in list order. */
  function Settlers(pop: seq<Individual>, sp: Species): (r: seq<Beast>)
    decreases |pop|
  {
    if pop == [] then []
    else
      var ind := pop[|pop| - 1];
      Settlers(pop[..|pop| - 1], sp) + if SpeciesNamed(ind.species) == Some(sp) then [Settler(sp, ind)] else []
  }

  /** The entries of `pop` whose name is neither species, in list order. */
  function Strays(pop: seq<Individual>): (r: seq<Individual>)
    ensures forall k :: 0 <= k < |r| ==> SpeciesNamed(r[k].species).None?
    decreases |pop|
  {
    if pop == [] then []
    else
      var ind := pop[|pop| - 1];
      Strays(pop[..|pop| - 1]) + if SpeciesNamed(ind.species).None? then [ind] else []
  }

  /**
   * Every entry of a `pop` list becomes an animal of the species it names, in the state the
   * constructor gives, or is skipped because it names neither: none is lost or counted twice.
   */
  lemma {:induction false} SettlersSpec(pop: seq<Individual>)
    ensures var h, c := Settlers(pop, Herbivore), Settlers(pop, Carnivore);
      && (forall k :: 0 <= k < |h| ==> h[k].species == Herbivore && h[k].phi == None && h[k].notWalked)
      && (forall k :: 0 <= k < |c| ==> c[k].species == Carnivore && c[k].phi == None && c[k].notWalked)
      && |h| + |c| + |Strays(pop)| == |pop|
    decreases |pop|
  {
    if pop != [] {
      SettlersSpec(pop[..|pop| - 1]);
    }
  }

  /** The records `pops` give every animal they name a positive weight. */
  predicate Healthy(pops: seq<Placement>)
  {
    forall k, ind :: 0 <= k < |pops| && ind in pops[k].pop ==> ind.weight > 0.0
  }

  /** Entries of positive weight make animals that can be sorted by fitness and are free to
      move. */
  lemma {:induction false} SettlersReady(pop: seq<Individual>, sp: Species)
    requires forall ind :: ind in pop ==> ind.weight > 0.0
    ensures var r := Settlers(pop, sp);
      Rankable(r) && forall k :: 0 <= k < |r| ==> r[k].species == sp && r[k].notWalked
    decreases |pop|
  {
    if pop != [] {
      var init := pop[..|pop| - 1];
      assert forall ind :: ind in init ==> ind in pop;
      SettlersReady(init, sp);
      var ind := pop[|pop| - 1];
      ReadyJoin(Settlers(init, sp), if SpeciesNamed(ind.species) == Some(sp) then [Settler(sp, ind)] else []);
    }
  }

  /** `now` is `before` with animals in the states `added` appended. */
  ghost predicate Grew(before: seq<Animal>, now: seq<Animal>, added: seq<Beast>)
    reads now
  {
    |before| <= |now| && now[..|before|] == before && States(now[|before|..]) == added
  }

  /** Both lists of `cell` are the lists `herbs`, `carns` followed by the animals `newH`, `newC`. */
  ghost predicate GrewIn(cell: Cell, herbs: seq<Animal>, carns: seq<Animal>, newH: seq<Beast>, newC: seq<Beast>)
    reads cell, cell.Members()
  {
    Grew(herbs, cell.herbs, newH) && Grew(carns, cell.carns, newC)
  }

  lemma GrewTrans(a: seq<Animal>, b: seq<Animal>, c: seq<Animal>, s: seq<Beast>, t: seq<Beast>)
    requires Grew(a, b, s) && Grew(b, c, t)
    ensures Grew(a, c, s + t)
  {
    assert c[|a|..] == b[|a|..] + c[|b|..];
  }

  // ---------------------------------------------------------------------------
  // The grid
  // ---------------------------------------------------------------------------

  /**
   * Lists `herbs` and `carns` of a cell at `at` that are valid (`Cell.Valid`), where a border
   * cell is not habitable, a cell that is not habitable holds no animal, and every animal
   * lives at `at` by `own`.
   */
  ghost predicate Lodged(herbs: seq<Animal>, carns: seq<Animal>, habitable: bool, border: bool,
                         own: map<Animal, (int, int)>, at: (int, int))
  {
    && Distinct(herbs + carns) && (forall k :: 0 <= k < |herbs| ==> herbs[k].species == Herbivore)
    && (border ==> !habitable)
    && (!habitable ==> herbs == [] && carns == [])
    && forall a :: a in herbs + carns ==> a in own && own[a] == at
  }

  /** `Cells`: the population to place and the grid of cells. */
  class Cells {
    /** `population_cell` */
    var population: seq<Placement>
    /** `map`, row by row */
    const grid: seq<seq<Cell>>
    /** The place of every cell of the grid, which tells the cells apart. */
    ghost const where: map<Cell, (nat, nat)>
    /** The cells of the grid. */
    ghost const cells: set<Cell>
    /** The place of the cell every animal of the grid lives in, which tells the animals of
        different cells apart. */
    ghost var owner: map<Animal, (int, int)>

    predicate Inside(i: int, j: int)
    {
      0 <= i < |grid| && 0 <= j < |grid[i]|
    }

    predicate Border(i: int, j: int)
      requires Inside(i, j)
    {
      i == 0 || i == |grid| - 1 || j == 0 || j == |grid[i]| - 1
    }

    ghost function Grid(): set<Cell>
    {
      cells
    }

    ghost function Animals(): set<Animal>
      reads Grid()
    {
      set cell, a | cell in Grid() && a in cell.Members() :: a
    }

    /** Every cell is recorded at its own place. */
    ghost predicate Mapped()
    {
      forall i, j :: Inside(i, j) ==> grid[i][j] in where && where[grid[i][j]] == (i, j) && grid[i][j] in cells
    }

    /**
     * The cell at `(i, j)` is valid; a border cell is not habitable; a cell that is not
     * habitable holds no animal; and every animal of the cell lives at `(i, j)` by `own`.
     */
    ghost predicate Placed(own: map<Animal, (int, int)>, i: nat, j: nat)
      requires Inside(i, j)
      reads grid[i][j]
    {
      var cell := grid[i][j];
      Lodged(cell.herbs, cell.carns, cell.habitable, Border(i, j), own, (i, j))
    }

    /** A non-empty rectangle of distinct cells, each `Placed`: so no animal lives in two. */
    ghost predicate Valid()
      reads this, Grid()
    {
      && 0 < |grid| && (forall i :: 0 <= i < |grid| ==> |grid[i]| == |grid[0]|)
      && Mapped()
      && forall i, j :: Inside(i, j) ==> Placed(owner, i, j)
    }

    ghost predicate AllReady()
      requires Mapped()
      reads Grid(), Animals()
    {
      forall i, j :: Inside(i, j) ==> grid[i][j].Ready()
    }

    ghost predicate AllRested()
      requires Mapped()
      reads Grid(), Animals()
    {
      forall i, j :: Inside(i, j) ==> grid[i][j].Rested()
    }

    /** Moving the animals of other cells does not disturb the cell at `(i, j)`. */
    lemma Reowned(own: map<Animal, (int, int)>, own2: map<Animal, (int, int)>, i: nat, j: nat)
      requires Inside(i, j) && Placed(own, i, j)
      requires forall a :: a in own && own[a] == (i, j) ==> a in own2 && own2[a] == (i, j)
      ensures Placed(own2, i, j)
    {
    }

    constructor (population: seq<Placement>, grid: seq<seq<Cell>>, ghost g: seq<seq<Terrain>>,
                 ghost where: map<Cell, (nat, nat)>)
      requires Built(grid, g, where)
      requires |g| > 0 && forall i :: 0 <= i < |g| ==> |g[i]| == |g[0]|
      requires forall i, j :: 0 <= i < |g| && 0 <= j < |g[i]| && (i == 0 || i == |g| - 1 || j == 0 || j == |g[i]| - 1) ==>
        !Habitable(g[i][j])
      ensures this.population == population && this.grid == grid && this.where == where
      ensures Valid() && owner == map[]
    {
      this.population := population;
      this.grid := grid;
      this.where := where;
      cells := set i, j | 0 <= i < |grid| && 0 <= j < |grid[i]| :: grid[i][j];
      owner := map[];
    }

    /**
     * `Cells(population_cell, island_map)`: with no population the default one, and the
     * grid `Island(island_map).create_map()` builds, whose `ValueError` is the `Failure`.
     * On success every cell is empty and of the terrain its letter names.
     */
    static method Create(population: Option<seq<Placement>>, islandMap: Option<string>) returns (r: Result<Cells>)
      ensures var v := Validate(Words(if islandMap.Some? then islandMap.value else DefaultMap()));
        && (r.Failure? <==> v.Failure?) && (r.Failure? ==> r.error == v.error)
        && (r.Success? ==>
              var cells := r.value;
              && fresh(cells) && cells.Valid() && cells.owner == map[]
              && cells.population == (if population.Some? then population.value else DefaultPopulation)
              && |cells.grid| == |v.value|
              && forall i, j :: cells.Inside(i, j) ==>
                   && j < |v.value[i]| && cells.grid[i][j].terrain == v.value[i][j]
                   && cells.grid[i][j].herbs == [] && cells.grid[i][j].carns == [])
    {
      var isle := new Island(islandMap);
      var m, where := isle.CreateMap();
      if m.Failure? {
        return Failure(m.error);
      }
      var rows := Words(isle.letterMap);
      AcceptedMap(rows);
      var cells := new Cells(if population.Some? then population.value else DefaultPopulation,
                             m.value, Validate(rows).value, where);
      r := Success(cells);
    }

    // -------------------------------------------------------------------------
    // generate_animals
    // -------------------------------------------------------------------------

    /** The cell `generate_animals` reads for the 1-based location `loc`, if the indices
        `loc - 1` are valid Python indices of the grid. */
    function Target(loc: (int, int)): (t: Option<(nat, nat)>)
      ensures t.Some? ==> Inside(t.value.0, t.value.1)
    {
      var x := PyIndex(loc.0 - 1, |grid|);
      if x.None? then None
      else
        var y := PyIndex(loc.1 - 1, |grid[x.value]|);
        if y.None? then None else Some((x.value, y.value))
    }

    /** What stops `generate_animals` at the record `p`, if anything. */
    function Fault(p: Placement): Option<PlaceError>
    {
      match Target(p.loc)
      case None => Some(OffMap)
      case Some(t) => if grid[t.0][t.1].habitable then None else Some(NotHabitable)
    }

    /** The number of records of `pops` before the first one that stops `generate_animals`. */
    function FirstFault(pops: seq<Placement>): (n: nat)
      ensures n <= |pops|
      ensures forall k :: 0 <= k < n ==> Fault(pops[k]).None?
      ensures n < |pops| ==> Fault(pops[n]).Some?
    {
      if pops == [] then 0
      else if Fault(pops[0]).Some? then 0
      else 1 + FirstFault(pops[1..])
    }

    /** The animals of species `sp` that the records `pops` add to the cell `(i, j)`, in the
        order they are appended. */
    function Arrivals(pops: seq<Placement>, i: nat, j: nat, sp: Species): seq<Beast>
      decreases |pops|
    {
      if pops == [] then []
      else
        var p := pops[|pops| - 1];
        Arrivals(pops[..|pops| - 1], i, j, sp) + if Target(p.loc) == Some((i, j)) then Settlers(p.pop, sp) else []
    }

    /** The animals that healthy records add can be sorted by fitness and are free to move. */
    lemma {:induction false} ArrivalsReady(pops: seq<Placement>, i: nat, j: nat, sp: Species)
      requires Healthy(pops)
      ensures var r := Arrivals(pops, i, j, sp);
        Rankable(r) && forall k :: 0 <= k < |r| ==> r[k].species == sp && r[k].notWalked
      decreases |pops|
    {
      if pops != [] {
        var init := pops[..|pops| - 1];
        var p := pops[|pops| - 1];
        assert Healthy(init);
        ArrivalsReady(init, i, j, sp);
        assert forall ind :: ind in p.pop ==> ind.weight > 0.0 by {
          forall ind | ind in p.pop ensures ind.weight > 0.0 {
            assert ind in pops[|pops| - 1].pop;
          }
        }
        SettlersReady(p.pop, sp);
        ReadyJoin(Arrivals(init, i, j, sp), if Target(p.loc) == Some((i, j)) then Settlers(p.pop, sp) else []);
      }
    }

    /**
     * Cells whose lists were ready before the healthy records `done` were placed are ready
     * after: the new animals all have a positive weight, and those in the carnivore lists are
     * carnivores.
     */
    lemma Populated(hs: seq<seq<seq<Animal>>>, cs: seq<seq<seq<Animal>>>, done: seq<Placement>)
      requires Valid() && Grown(hs, cs, done) && Healthy(done)
      requires forall i, j :: Inside(i, j) ==>
        Rankable(States(hs[i][j])) && Rankable(States(cs[i][j])) && HuntersOnly(States(cs[i][j]))
      ensures AllReady()
    {
      forall i, j | Inside(i, j)
        ensures grid[i][j].Ready()
      {
        var cell := grid[i][j];
        var h, c := hs[i][j], cs[i][j];
        ArrivalsReady(done, i, j, Herbivore);
        ArrivalsReady(done, i, j, Carnivore);
        assert cell.herbs == h + cell.herbs[|h|..];
        assert cell.carns == c + cell.carns[|c|..];
        StatesSplit(h, cell.herbs[|h|..]);
        StatesSplit(c, cell.carns[|c|..]);
        ReadyJoin(States(h), States(cell.herbs[|h|..]));
        ReadyJoin(States(c), States(cell.carns[|c|..]));
      }
    }

    /** `Populated` for the lists the grid had at the start of `generate_animals`, whose
        animals the placing leaves as they were. */
    twostate lemma Stocked(done: seq<Placement>)
      requires Valid() && old(AllReady()) && Healthy(done)
      requires Grown(old(HerbLists()), old(CarnLists()), done)
      requires forall i, j, a :: Inside(i, j) && a in old(grid[i][j].Members()) ==> unchanged(a)
      ensures AllReady()
    {
      var hs, cs := old(HerbLists()), old(CarnLists());
      forall i, j | Inside(i, j)
        ensures Rankable(States(hs[i][j])) && Rankable(States(cs[i][j])) && HuntersOnly(States(cs[i][j]))
      {
        assert old(grid[i][j].Ready());
        assert forall k :: 0 <= k < |hs[i][j]| ==> hs[i][j][k] in old(grid[i][j].Members());
        assert forall k :: 0 <= k < |cs[i][j]| ==> cs[i][j][k] in old(grid[i][j].Members());
        assert States(hs[i][j]) == old(States(hs[i][j]));
        assert States(cs[i][j]) == old(States(cs[i][j]));
      }
      Populated(hs, cs, done);
    }

    /** `FirstFault` is the only count with its two defining properties. */
    lemma FirstFaultUnique(pops: seq<Placement>, n: nat)
      requires n <= |pops|
      requires forall k :: 0 <= k < n ==> Fault(pops[k]).None?
      requires n < |pops| ==> Fault(pops[n]).Some?
      ensures FirstFault(pops) == n
    {
    }

    /** The arrivals from one more record. */
    lemma ArrivalsSnoc(done: seq<Placement>, p: Placement, i: nat, j: nat, sp: Species)
      ensures Arrivals(done + [p], i, j, sp)
        == Arrivals(done, i, j, sp) + if Target(p.loc) == Some((i, j)) then Settlers(p.pop, sp) else []
    {
      assert (done + [p])[..|done|] == done;
    }

    /** A record without fault after `r` records without fault. */
    lemma NoFaultsExtend(pops: seq<Placement>, r: nat)
      requires r < |pops| && Fault(pops[r]).None?
      requires forall k :: 0 <= k < r ==> Fault(pops[k]).None?
      ensures forall k :: 0 <= k < r + 1 ==> Fault(pops[k]).None?
    {
    }

    /** The lists of every cell are the lists `hs`, `cs` followed by the arrivals from the
        records `done`. */
    ghost predicate Grown(hs: seq<seq<seq<Animal>>>, cs: seq<seq<seq<Animal>>>, done: seq<Placement>)
      requires Mapped()
      reads this, Grid(), Animals()
    {
      && |hs| == |cs| == |grid|
      && (forall i :: 0 <= i < |grid| ==> |hs[i]| == |cs[i]| == |grid[i]|)
      && forall i, j :: Inside(i, j) ==>
           GrewIn(grid[i][j], hs[i][j], cs[i][j], Arrivals(done, i, j, Herbivore), Arrivals(done, i, j, Carnivore))
    }

    /** The lists of all cells, row by row. */
    ghost function HerbLists(): (r: seq<seq<seq<Animal>>>)
      requires Mapped()
      reads this, Grid()
      ensures |r| == |grid| && forall i :: 0 <= i < |grid| ==> |r[i]| == |grid[i]|
      ensures forall i, j :: Inside(i, j) ==> r[i][j] == grid[i][j].herbs
    {
      seq(|grid|, i requires 0 <= i < |grid| reads Grid() =>
        seq(|grid[i]|, j requires 0 <= j < |grid[i]| reads Grid() => grid[i][j].herbs))
    }

    /** The carnivore lists of all cells, row by row. */
    ghost function CarnLists(): (r: seq<seq<seq<Animal>>>)
      requires Mapped()
      reads this, Grid()
      ensures |r| == |grid| && forall i :: 0 <= i < |grid| ==> |r[i]| == |grid[i]|
      ensures forall i, j :: Inside(i, j) ==> r[i][j] == grid[i][j].carns
    {
      seq(|grid|, i requires 0 <= i < |grid| reads Grid() =>
        seq(|grid[i]|, j requires 0 <= j < |grid[i]| reads Grid() => grid[i][j].carns))
    }

    /** Before any record, every cell has grown by nothing. */
    lemma GrownStart()
      requires Mapped()
      ensures Grown(HerbLists(), CarnLists(), [])
    {
      forall i, j | Inside(i, j)
        ensures GrewIn(grid[i][j], HerbLists()[i][j], CarnLists()[i][j], [], [])
      {
        assert grid[i][j].herbs[|grid[i][j].herbs|..] == [];
        assert grid[i][j].carns[|grid[i][j].carns|..] == [];
      }
    }

    /** The loop of `generate_animals` over all records: it stops at the first record whose
        location is off the grid or not habitable, after placing every record before it. */
    method GenerateAnimals() returns (err: Option<PlaceError>)
      requires Valid()
      modifies this`owner, Grid()`herbs, Grid()`carns
      ensures Valid()
      ensures var n := FirstFault(population);
        && err == (if n < |population| then Fault(population[n]) else None)
        && Grown(old(HerbLists()), old(CarnLists()), population[..n])
      ensures old(AllReady()) && Healthy(population[..FirstFault(population)]) ==> AllReady()
    {
      var pops := population;
      ghost var hs, cs := HerbLists(), CarnLists();
      GrownStart();
      assert pops[..0] == [];
      for r := 0 to |pops|
        invariant Valid() && pops == population
        invariant forall k :: 0 <= k < r ==> Fault(pops[k]).None?
        invariant Grown(hs, cs, pops[..r])
      {
        var p := pops[r];
        var t := Target(p.loc);
        if t.None? || !grid[t.value.0][t.value.1].habitable {
          FirstFaultUnique(pops, r);
          if old(AllReady()) && Healthy(pops[..r]) {
            Stocked(pops[..r]);
          }
          return Fault(p);
        }
        NoFaultsExtend(pops, r);
        PlaceAt(r, t.value.0, t.value.1, grid[t.value.0][t.value.1], hs, cs);
      }
      FirstFaultUnique(pops, |pops|);
      assert pops[..|pops|] == pops;
      if old(AllReady()) && Healthy(pops) {
        Stocked(pops);
      }
      err := None;
    }

    /** One record of `generate_animals`, whose location is a habitable cell, after the records
        before it. */
    method PlaceAt(r: nat, x: nat, y: nat, cell: Cell, ghost hs: seq<seq<seq<Animal>>>, ghost cs: seq<seq<seq<Animal>>>)
      requires Valid() && r < |population| && Target(population[r].loc) == Some((x, y))
      requires cell == grid[x][y] && cell.habitable
      requires Grown(hs, cs, population[..r])
      modifies this`owner, cell`herbs, cell`carns
      ensures Valid() && Grown(hs, cs, population[..r + 1])
    {
      var p := population[r];
      ghost var done, done1 := population[..r], population[..r + 1];
      PrefixSnoc(population, r);
      Settle(x, y, cell, p.pop);
      Alone((x, y));
      forall i, j | Inside(i, j)
        ensures GrewIn(grid[i][j], hs[i][j], cs[i][j], Arrivals(done1, i, j, Herbivore), Arrivals(done1, i, j, Carnivore))
      {
        ArrivalsSnoc(done, p, i, j, Herbivore);
        ArrivalsSnoc(done, p, i, j, Carnivore);
        if i == x && j == y {
          GrewTrans(hs[i][j], old(cell.herbs), cell.herbs, Arrivals(done, i, j, Herbivore), Settlers(p.pop, Herbivore));
          GrewTrans(cs[i][j], old(cell.carns), cell.carns, Arrivals(done, i, j, Carnivore), Settlers(p.pop, Carnivore));
        } else {
          Still(grid[i][j]);
        }
      }
    }

    /** A cell whose lists and animals a step left alone has grown from the same lists by the
        same animals as before it. */
    twostate lemma Still(cell: Cell)
      requires unchanged(cell) && forall a :: a in old(cell.Members()) ==> unchanged(a)
      ensures forall k :: 0 <= k <= |cell.herbs| ==> States(cell.herbs[k..]) == old(States(cell.herbs[k..]))
      ensures forall k :: 0 <= k <= |cell.carns| ==> States(cell.carns[k..]) == old(States(cell.carns[k..]))
    {
      assert forall k :: 0 <= k < |cell.herbs| ==> cell.herbs[k] in old(cell.Members());
      assert forall k :: 0 <= k < |cell.carns| ==> cell.carns[k] in old(cell.Members());
    }

    /** The inner loop of `generate_animals`: the entries of `pop`, each made into an animal of
        the species it names and appended to that species' list of the cell `(x, y)`. */
    method Settle(x: nat, y: nat, cell: Cell, pop: seq<Individual>)
      requires Valid() && Inside(x, y) && cell == grid[x][y] && cell.habitable
      modifies this`owner, cell`herbs, cell`carns
      ensures Valid()
      ensures Grew(old(cell.herbs), cell.herbs, Settlers(pop, Herbivore))
      ensures Grew(old(cell.carns), cell.carns, Settlers(pop, Carnivore))
    {
      for k := 0 to |pop|
        invariant Valid()
        invariant Grew(old(cell.herbs), cell.herbs, Settlers(pop[..k], Herbivore))
        invariant Grew(old(cell.carns), cell.carns, Settlers(pop[..k], Carnivore))
      {
        ghost var h0, c0 := cell.herbs, cell.carns;
        SettleOne(x, y, cell, pop[k]);
        assert pop[..k + 1][..k] == pop[..k];
        GrewTrans(old(cell.herbs), h0, cell.herbs, Settlers(pop[..k], Herbivore), Settlers([pop[k]], Herbivore));
        GrewTrans(old(cell.carns), c0, cell.carns, Settlers(pop[..k], Carnivore), Settlers([pop[k]], Carnivore));
      }
      assert pop[..|pop|] == pop;
    }

    /** One entry: a new animal if the entry names a species, nothing otherwise. */
    method SettleOne(x: nat, y: nat, cell: Cell, ind: Individual)
      requires Valid() && Inside(x, y) && cell == grid[x][y] && cell.habitable
      modifies this`owner, cell`herbs, cell`carns
      ensures Valid()
      ensures Grew(old(cell.herbs), cell.herbs, Settlers([ind], Herbivore))
      ensures Grew(old(cell.carns), cell.carns, Settlers([ind], Carnivore))
      ensures forall a :: a in cell.herbs + cell.carns ==> a in old(cell.herbs + cell.carns) || fresh(a)
    {
      assert [ind][..0] == [];
      var sp := SpeciesNamed(ind.species);
      if sp.Some? {
        var a := new Animal(sp.value, ind.age, ind.weight);
        ghost var own := owner;
        if sp.value == Herbivore {
          cell.herbs := cell.herbs + [a];
          assert cell.herbs[|old(cell.herbs)|..] == [a];
        } else {
          cell.carns := cell.carns + [a];
          assert cell.carns[|old(cell.carns)|..] == [a];
        }
        owner := owner[a := (x, y)];
        forall i, j | Inside(i, j) ensures Placed(owner, i, j) {
          if (i, j) != (x, y) {
            assert grid[i][j] != cell;
            Reowned(own, owner, i, j);
          } else {
            AddOne(old(cell.herbs), old(cell.carns), a, sp.value);
          }
        }
      }
    }

    // -------------------------------------------------------------------------
    // move
    // -------------------------------------------------------------------------

    /** The neighbour of `(x, y)` in direction `d` is on the grid. */
    predicate Beside(x: int, y: int, d: Direction)
    {
      var (i, j) := Neighbour(x, y, d);
      Inside(i, j)
    }

    /** All four neighbours of `(x, y)` are on the grid. */
    predicate Interior(x: int, y: int)
    {
      Beside(x, y, North) && Beside(x, y, East) && Beside(x, y, South) && Beside(x, y, West)
    }

    /** The neighbour of `(x, y)` in direction `d`. */
    function Side(x: int, y: int, d: Direction): Cell
      requires Beside(x, y, d)
    {
      var (i, j) := Neighbour(x, y, d);
      grid[i][j]
    }

    /** The neighbours `move` lets an animal of `(x, y)` walk to: those that are habitable. */
    function Surroundings(x: int, y: int): Around
    {
      Around(Beside(x, y, North) && Side(x, y, North).habitable,
             Beside(x, y, East) && Side(x, y, East).habitable,
             Beside(x, y, South) && Side(x, y, South).habitable,
             Beside(x, y, West) && Side(x, y, West).habitable)
    }

    /** The neighbour cells of `(x, y)`. */
    ghost function Ring(x: int, y: int): set<Cell>
    {
      set c | c in cells && c in where && where[c] != (x, y) && Near(x, y, where[c].0, where[c].1)
    }

    /**
     * The draws and states of `move` after the steps `h` of the first `|h|` animals of
     * `all`, whose states were `bs` and whose first draw was at `pos0`: the steps are those
     * `Wanders` takes, the animals handled are in their states after their step, and those
     * still to come are untouched.
     */
    ghost predicate Drawn(c: Constants, rng: Random, all: seq<Animal>, bs: seq<Beast>, around: Around,
                          pos0: nat, h: seq<Step>)
      reads all, rng
    {
      Walked(c, around, rng.uniform, rng.integer, pos0, bs, h, rng.pos, States(all))
    }

    /** The lists of `move` after the steps `h`: the animals kept back so far, and what the
        neighbours, whose lists were `start`, have received. */
    ghost predicate Sorted(x: int, y: int, all: seq<Animal>, start: Compass<Lists>, h: seq<Step>,
                           stayH: seq<Animal>, stayC: seq<Animal>)
      requires Interior(x, y) && Mapped() && |h| <= |all|
      reads Ring(x, y)
    {
      Shared(Snapshot(x, y), start, all, h, stayH, stayC)
    }

    /** Where the animals live after the steps `h`: each animal of `all` handled so far
        where its step took it, the rest of `all` at `(x, y)`, and every other animal where
        `own0` had it. */
    ghost predicate Housed(x: int, y: int, all: seq<Animal>, own0: map<Animal, (int, int)>, h: seq<Step>)
      requires |h| <= |all|
      reads this
    {
      Homes(x, y, all, own0, h, owner)
    }

    /** One animal of `move` (`biosim/cell_control.py` lines 77-141): `all[k]` takes its
        step `h2[k]`, walks or is kept back in `keptH` or `keptC`. */
    method MoveAt(x: nat, y: nat, c: Constants, rng: Random, all: seq<Animal>, k: nat,
                  stayH: seq<Animal>, stayC: seq<Animal>, ghost bs: seq<Beast>,
                  ghost start: Compass<Lists>, ghost own0: map<Animal, (int, int)>, ghost pos0: nat,
                  ghost h: seq<Step>)
      returns (keptH: seq<Animal>, keptC: seq<Animal>, ghost h2: seq<Step>)
      requires Inside(x, y) && Interior(x, y) && Mapped() && Distinct(all) && k == |h| < |all|
      requires Drawn(c, rng, all, bs, Surroundings(x, y), pos0, h)
      requires Sorted(x, y, all, start, h, stayH, stayC) && Housed(x, y, all, own0, h)
      modifies this`owner, Ring(x, y)`herbs, Ring(x, y)`carns, all[k], rng
      ensures |h2| == |h| + 1 && Drawn(c, rng, all, bs, Surroundings(x, y), pos0, h2)
      ensures Sorted(x, y, all, start, h2, keptH, keptC) && Housed(x, y, all, own0, h2)
    {
      var dest;
      ghost var st;
      dest, st := DecideAt(x, y, c, rng, all, k, stayH, stayC, bs, start, own0, pos0, h);
      h2 := h + [st];
      keptH, keptC := DeliverAt(x, y, c, rng, all, k, dest, stayH, stayC, bs, start, own0, pos0, h, st);
    }

    /** The step of `all[k]` in `move` (`biosim/cell_control.py` lines 77-87): its draws
        and its new state. */
    method DecideAt(x: nat, y: nat, c: Constants, rng: Random, all: seq<Animal>, k: nat,
                    ghost stayH: seq<Animal>, ghost stayC: seq<Animal>, ghost bs: seq<Beast>,
                    ghost start: Compass<Lists>, ghost own0: map<Animal, (int, int)>, ghost pos0: nat,
                    ghost h: seq<Step>)
      returns (dest: Dest, ghost st: Step)
      requires Inside(x, y) && Interior(x, y) && Mapped() && Distinct(all) && k == |h| < |all|
      requires Drawn(c, rng, all, bs, Surroundings(x, y), pos0, h)
      requires Sorted(x, y, all, start, h, stayH, stayC) && Housed(x, y, all, own0, h)
      modifies all[k], rng
      ensures dest == st.dest && st.after.species == all[k].species
      ensures Drawn(c, rng, all, bs, Surroundings(x, y), pos0, h + [st])
      ensures Sorted(x, y, all, start, h, stayH, stayC) && Housed(x, y, all, own0, h)
    {
      var a := all[k];
      ghost var around := Surroundings(x, y);
      st := Wander(c, bs[k], around, rng.uniform, rng.integer, Last(h, pos0));
      ghost var states := States(all);
      WalkedStep(c, around, rng.uniform, rng.integer, pos0, bs, h, rng.pos, states, st);
      dest := Decide(x, y, c, rng, a);
      assert States(all) == states[k := st.after] by {
        forall j | 0 <= j < |all| && j != k ensures all[j].State() == states[j] {
          assert all[j] != a;
        }
      }
    }

    /** Where `all[k]`, whose step is `st`, goes in `move` (`biosim/cell_control.py`
        lines 79-141): a list of a neighbour, or `keptH` or `keptC`. */
    method DeliverAt(x: nat, y: nat, ghost c: Constants, ghost rng: Random, all: seq<Animal>, k: nat, dest: Dest,
                     stayH: seq<Animal>, stayC: seq<Animal>, ghost bs: seq<Beast>, ghost start: Compass<Lists>,
                     ghost own0: map<Animal, (int, int)>, ghost pos0: nat, ghost h: seq<Step>, ghost st: Step)
      returns (keptH: seq<Animal>, keptC: seq<Animal>)
      requires Inside(x, y) && Interior(x, y) && Mapped() && Distinct(all) && k == |h| < |all|
      requires st.dest == dest && st.after.species == all[k].species
      requires Drawn(c, rng, all, bs, Surroundings(x, y), pos0, h + [st])
      requires Sorted(x, y, all, start, h, stayH, stayC) && Housed(x, y, all, own0, h)
      modifies this`owner, Ring(x, y)`herbs, Ring(x, y)`carns
      ensures Drawn(c, rng, all, bs, Surroundings(x, y), pos0, h + [st])
      ensures Sorted(x, y, all, start, h + [st], keptH, keptC) && Housed(x, y, all, own0, h + [st])
    {
      ghost var prev, own := Snapshot(x, y), owner;
      keptH, keptC := Deliver(x, y, all[k], dest, stayH, stayC, st, prev);
      HomesStep(x, y, all, own0, h, own, st);
      SharedStep(prev, start, all, h, stayH, stayC, st, keptH, keptC);
    }

    /** `(i, j)` is the cell `(x, y)` or one of its four neighbours. */
    predicate Near(x: int, y: int, i: int, j: int)
    {
      (i, j) == (x, y) || (i, j) == Neighbour(x, y, North) || (i, j) == Neighbour(x, y, East)
      || (i, j) == Neighbour(x, y, South) || (i, j) == Neighbour(x, y, West)
    }

    /** A cell with animals is habitable, so it is not on the border: all four of its
        neighbours are on the grid. */
    lemma InteriorOf(x: nat, y: nat)
      requires Valid() && Inside(x, y) && grid[x][y].herbs + grid[x][y].carns != []
      ensures Interior(x, y)
    {
      assert Placed(owner, x, y);
      assert |grid[x - 1]| == |grid[x + 1]| == |grid[x]|;
    }

    /** Lists `lay` of every cell, each `Lodged` by `own`: the validity of the grid, stated
        on a record of its lists. */
    ghost predicate Laid(lay: map<(int, int), Lists>, own: map<Animal, (int, int)>)
    {
      forall i, j :: Inside(i, j) ==>
        (i, j) in lay && Lodged(lay[(i, j)].herbs, lay[(i, j)].carns, grid[i][j].habitable, Border(i, j), own, (i, j))
    }

    /** The lists of every cell. */
    ghost function Layout(): (r: map<(int, int), Lists>)
      requires Mapped()
      reads Grid()
      ensures forall i, j :: Inside(i, j) ==> (i, j) in r && r[(i, j)] == Lists(grid[i][j].herbs, grid[i][j].carns)
    {
      map i, j | 0 <= i < |grid| && 0 <= j < |grid[i]| :: (i, j) := Lists(grid[i][j].herbs, grid[i][j].carns)
    }

    /** A grid whose lists are `lay`, laid out by `owner`, is valid. */
    lemma LaidValid(lay: map<(int, int), Lists>)
      requires 0 < |grid| && (forall i :: 0 <= i < |grid| ==> |grid[i]| == |grid[0]|) && Mapped()
      requires Laid(lay, owner)
      requires forall i, j :: Inside(i, j) ==> lay[(i, j)] == Lists(grid[i][j].herbs, grid[i][j].carns)
      ensures Valid()
    {
    }

    /** What `move` needs of a valid grid, recorded on `Layout`. */
    lemma LaidOut(x: nat, y: nat, all: seq<Animal>)
      requires Valid() && Inside(x, y) && Interior(x, y) && all == grid[x][y].herbs + grid[x][y].carns
      ensures Distinct(all) && forall j :: 0 <= j < |all| ==> all[j] in owner && owner[all[j]] == (x, y)
      ensures Laid(Layout(), owner) && all == Layout()[(x, y)].herbs + Layout()[(x, y)].carns
      ensures forall d :: Neighbour(x, y, d) in Layout() && Snapshot(x, y).At(d) == Layout()[Neighbour(x, y, d)]
    {
      assert Placed(owner, x, y);
      Layers(x, y, Layout());
    }

    /** The lists of the neighbours of `(x, y)`, as recorded by `Layout`. */
    lemma Layers(x: int, y: int, lay: map<(int, int), Lists>)
      requires Mapped() && Interior(x, y)
      requires forall i, j :: Inside(i, j) ==> (i, j) in lay && lay[(i, j)] == Lists(grid[i][j].herbs, grid[i][j].carns)
      ensures forall d :: Neighbour(x, y, d) in lay && Snapshot(x, y).At(d) == lay[Neighbour(x, y, d)]
    {
      var now := Snapshot(x, y);
      assert Inside(x - 1, y) && now.north == lay[(x - 1, y)];
      assert Inside(x, y + 1) && now.east == lay[(x, y + 1)];
      assert Inside(x + 1, y) && now.south == lay[(x + 1, y)];
      assert Inside(x, y - 1) && now.west == lay[(x, y - 1)];
    }

    /** A cell that is neither `(x, y)` nor one of its neighbours is none of their cells. */
    lemma Apart(x: int, y: int, i: int, j: int)
      requires Mapped() && Inside(x, y) && Interior(x, y) && Inside(i, j) && !Near(x, y, i, j)
      ensures grid[i][j] !in Ring(x, y) && grid[i][j] != grid[x][y]
    {
    }

    /** The four neighbours of `(x, y)`, valid with the lists `start` before `move`, stay
        valid with the lists `now` after it. */
    lemma SidesLaid(x: nat, y: nat, all: seq<Animal>, h: seq<Step>, keptH: seq<Animal>, keptC: seq<Animal>,
                    start: Compass<Lists>, now: Compass<Lists>, own0: map<Animal, (int, int)>,
                    own: map<Animal, (int, int)>)
      requires Inside(x, y) && Interior(x, y)
      requires Lodged(start.north.herbs, start.north.carns, grid[x - 1][y].habitable, Border(x - 1, y), own0, (x - 1, y))
      requires Lodged(start.east.herbs, start.east.carns, grid[x][y + 1].habitable, Border(x, y + 1), own0, (x, y + 1))
      requires Lodged(start.south.herbs, start.south.carns, grid[x + 1][y].habitable, Border(x + 1, y), own0, (x + 1, y))
      requires Lodged(start.west.herbs, start.west.carns, grid[x][y - 1].habitable, Border(x, y - 1), own0, (x, y - 1))
      requires |h| == |all| && Distinct(all) && forall j :: 0 <= j < |all| ==> h[j].after.species == all[j].species
      requires forall j :: 0 <= j < |h| ==> (h[j].dest.Go? ==> Open(Surroundings(x, y), h[j].dest.dir))
      requires forall j :: 0 <= j < |all| ==> all[j] in own0 && own0[all[j]] == (x, y)
      requires Homes(x, y, all, own0, h, own) && Shared(now, start, all, h, keptH, keptC)
      ensures Lodged(now.north.herbs, now.north.carns, grid[x - 1][y].habitable, Border(x - 1, y), own, (x - 1, y))
      ensures Lodged(now.east.herbs, now.east.carns, grid[x][y + 1].habitable, Border(x, y + 1), own, (x, y + 1))
      ensures Lodged(now.south.herbs, now.south.carns, grid[x + 1][y].habitable, Border(x + 1, y), own, (x + 1, y))
      ensures Lodged(now.west.herbs, now.west.carns, grid[x][y - 1].habitable, Border(x, y - 1), own, (x, y - 1))
    {
      var around := Surroundings(x, y);
      SideLodged(x, y, North, (x - 1, y), start.north, all, h, around, grid[x - 1][y].habitable, Border(x - 1, y), own0, own);
      SideLodged(x, y, East, (x, y + 1), start.east, all, h, around, grid[x][y + 1].habitable, Border(x, y + 1), own0, own);
      SideLodged(x, y, South, (x + 1, y), start.south, all, h, around, grid[x + 1][y].habitable, Border(x + 1, y), own0, own);
      SideLodged(x, y, West, (x, y - 1), start.west, all, h, around, grid[x][y - 1].habitable, Border(x, y - 1), own0, own);
    }


    /** The cells away from `(x, y)` stay valid once `move` on `(x, y)` has rehoused only
        animals of `(x, y)`. */
    lemma FarLaid(x: nat, y: nat, all: seq<Animal>, h: seq<Step>, lay0: map<(int, int), Lists>,
                  own0: map<Animal, (int, int)>, own: map<Animal, (int, int)>)
      requires Laid(lay0, own0) && |h| == |all| && Homes(x, y, all, own0, h, own)
      requires forall j :: 0 <= j < |all| ==> all[j] in own0 && own0[all[j]] == (x, y)
      ensures forall i, j :: Inside(i, j) && !Near(x, y, i, j) ==>
        Lodged(lay0[(i, j)].herbs, lay0[(i, j)].carns, grid[i][j].habitable, Border(i, j), own, (i, j))
    {
      forall i, j | Inside(i, j) && !Near(x, y, i, j)
        ensures Lodged(lay0[(i, j)].herbs, lay0[(i, j)].carns, grid[i][j].habitable, Border(i, j), own, (i, j))
      {
        LodgedReowned(lay0[(i, j)].herbs, lay0[(i, j)].carns, grid[i][j].habitable, Border(i, j), own0, own, (i, j));
      }
    }

    /** The grid laid out as `Relaid` says is valid when each of its cells is. */
    lemma Relodged(x: nat, y: nat, lay0: map<(int, int), Lists>, now: Compass<Lists>,
                   keptH: seq<Animal>, keptC: seq<Animal>, own: map<Animal, (int, int)>)
      requires Inside(x, y) && Interior(x, y) && forall i, j :: Inside(i, j) ==> (i, j) in lay0
      requires Lodged(keptH, keptC, grid[x][y].habitable, Border(x, y), own, (x, y))
      requires Lodged(now.north.herbs, now.north.carns, grid[x - 1][y].habitable, Border(x - 1, y), own, (x - 1, y))
      requires Lodged(now.east.herbs, now.east.carns, grid[x][y + 1].habitable, Border(x, y + 1), own, (x, y + 1))
      requires Lodged(now.south.herbs, now.south.carns, grid[x + 1][y].habitable, Border(x + 1, y), own, (x + 1, y))
      requires Lodged(now.west.herbs, now.west.carns, grid[x][y - 1].habitable, Border(x, y - 1), own, (x, y - 1))
      requires forall i, j :: Inside(i, j) && !Near(x, y, i, j) ==>
        Lodged(lay0[(i, j)].herbs, lay0[(i, j)].carns, grid[i][j].habitable, Border(i, j), own, (i, j))
      ensures Laid(Relaid(lay0, x, y, now, keptH, keptC), own)
    {
      var lay1 := Relaid(lay0, x, y, now, keptH, keptC);
      forall i, j | Inside(i, j)
        ensures (i, j) in lay1 && Lodged(lay1[(i, j)].herbs, lay1[(i, j)].carns, grid[i][j].habitable, Border(i, j), own, (i, j))
      {
        if (i, j) == (x, y) {
          assert lay1[(i, j)] == Lists(keptH, keptC);
        } else if (i, j) == (x - 1, y) {
          assert lay1[(i, j)] == now.north;
        } else if (i, j) == (x, y + 1) {
          assert lay1[(i, j)] == now.east;
        } else if (i, j) == (x + 1, y) {
          assert lay1[(i, j)] == now.south;
        } else if (i, j) == (x, y - 1) {
          assert lay1[(i, j)] == now.west;
        } else {
          assert lay1[(i, j)] == lay0[(i, j)];
        }
      }
    }

    /**
     * After the loop of `move` on the animals `all` of `(x, y)`, with the steps `h`, which
     * keep back `keptH` and `keptC`, leave the neighbours with lists `now` and the animals
     * living by `own`: the grid, laid out as `Relaid` says, is still valid.
     */
    lemma Spilled(x: nat, y: nat, all: seq<Animal>, h: seq<Step>, keptH: seq<Animal>, keptC: seq<Animal>,
                  start: Compass<Lists>, now: Compass<Lists>, lay0: map<(int, int), Lists>,
                  own0: map<Animal, (int, int)>, own: map<Animal, (int, int)>)
      requires Laid(lay0, own0) && Inside(x, y) && Interior(x, y)
      requires all == lay0[(x, y)].herbs + lay0[(x, y)].carns
      requires forall d :: Neighbour(x, y, d) in lay0 && start.At(d) == lay0[Neighbour(x, y, d)]
      requires |h| == |all| && forall j :: 0 <= j < |all| ==> h[j].after.species == all[j].species
      requires forall j :: 0 <= j < |h| ==> (h[j].dest.Go? ==> Open(Surroundings(x, y), h[j].dest.dir))
      requires Homes(x, y, all, own0, h, own) && Shared(now, start, all, h, keptH, keptC)
      ensures Laid(Relaid(lay0, x, y, now, keptH, keptC), own)
    {
      assert start.north == lay0[(x - 1, y)] && start.east == lay0[(x, y + 1)];
      assert start.south == lay0[(x + 1, y)] && start.west == lay0[(x, y - 1)];
      SidesLaid(x, y, all, h, keptH, keptC, start, now, own0, own);
      StayLodged(x, y, all, h, keptH, keptC, grid[x][y].habitable, Border(x, y), own);
      FarLaid(x, y, all, h, lay0, own0, own);
      Relodged(x, y, lay0, now, keptH, keptC, own);
    }

    /**
     * `move(x, y)`: every animal of the cell `(x, y)`, herbivores first, takes its step of
     * `Wanders` in list order; the cell keeps those that stay, in order, and each neighbour
     * has those that walk to it appended to the list their step puts them in. No other cell
     * changes, and the grid stays valid.
     */
    method Move(x: nat, y: nat, c: Constants, rng: Random)
      requires Valid() && Inside(x, y)
      modifies this`owner, Grid()`herbs, Grid()`carns, grid[x][y].Members(), rng
      ensures Valid() && Migration(x, y, c, rng, old(grid[x][y].herbs + grid[x][y].carns))
    {
      var all := grid[x][y].herbs + grid[x][y].carns;
      // An empty cell has nothing to move; a cell with animals is habitable, so it is not on
      // the border and has all four neighbours.
      if all != [] {
        InteriorOf(x, y);
        LaidOut(x, y, all);
        ghost var start := Snapshot(x, y);
        ghost var h, keptH, keptC, now, states, pos := Scatter(x, y, c, rng, all, Layout());
        forall d | Beside(x, y, d)
          ensures Side(x, y, d).herbs == old(Side(x, y, d).herbs) + Pick(all, Where(h, Go(d), true))
          ensures Side(x, y, d).carns == old(Side(x, y, d).carns) + Pick(all, Where(h, Go(d), false))
        {
          SharedAt(now, start, all, h, keptH, keptC, d);
        }
      }
    }

    /**
     * `move` on a cell `(x, y)` with animals `all` of a valid grid whose lists are `lay0`
     * (`biosim/cell_control.py` lines 73-144): what `Disperse` states, and the grid stays valid.
     */
    method Scatter(x: nat, y: nat, c: Constants, rng: Random, all: seq<Animal>, ghost lay0: map<(int, int), Lists>)
      returns (ghost h: seq<Step>, ghost keptH: seq<Animal>, ghost keptC: seq<Animal>, ghost now: Compass<Lists>,
               ghost states: seq<Beast>, ghost pos: nat)
      requires 0 < |grid| && (forall i :: 0 <= i < |grid| ==> |grid[i]| == |grid[0]|) && Mapped()
      requires Inside(x, y) && Interior(x, y) && all == grid[x][y].herbs + grid[x][y].carns
      requires Distinct(all) && forall j :: 0 <= j < |all| ==> all[j] in owner && owner[all[j]] == (x, y)
      requires lay0 == Layout() && Laid(lay0, owner)
      modifies this`owner, Ring(x, y)`herbs, Ring(x, y)`carns, {grid[x][y]}`herbs, {grid[x][y]}`carns, all, rng
      ensures Valid()
      ensures Moved(x, y, c, Surroundings(x, y), rng.uniform, rng.integer, old(rng.pos), all, old(States(all)),
                    old(Snapshot(x, y)), old(owner), h, keptH, keptC, now, owner, pos, states)
      ensures grid[x][y].herbs == keptH && grid[x][y].carns == keptC && Snapshot(x, y) == now
      ensures States(all) == states && rng.pos == pos
      ensures forall i, j :: Inside(i, j) && !Near(x, y, i, j) ==> lay0[(i, j)] == Lists(grid[i][j].herbs, grid[i][j].carns)
    {
      ghost var own0, start, bs, pos0 := owner, Snapshot(x, y), States(all), rng.pos;
      Layers(x, y, lay0);
      var kH, kC;
      ghost var own;
      kH, kC, h, now, own, states, pos := Disperse(x, y, c, rng, all, lay0);
      keptH, keptC := kH, kC;
      Settled(x, y, c, rng.uniform, rng.integer, pos0, all, bs, start, own0, h, keptH, keptC, now, pos, states, lay0);
    }

    /**
     * `move` on a cell `(x, y)` with animals `all`, whose other cells have the lists `lay0`
     * (`biosim/cell_control.py` lines 73-144):
     * the cell keeps `keptH` and `keptC`, its neighbours have the lists `now`, the animals
     * are in the states `states` and live by `own`, and the next draw is at `pos`, as `Moved`
     * relates them to the steps `h`;
     * the cells away from `(x, y)` keep their lists.
     */
    method Disperse(x: nat, y: nat, c: Constants, rng: Random, all: seq<Animal>, ghost lay0: map<(int, int), Lists>)
      returns (keptH: seq<Animal>, keptC: seq<Animal>, ghost h: seq<Step>, ghost now: Compass<Lists>,
               ghost own: map<Animal, (int, int)>, ghost states: seq<Beast>, ghost pos: nat)
      requires Mapped() && Inside(x, y) && Interior(x, y) && all == grid[x][y].herbs + grid[x][y].carns
      requires Distinct(all) && forall j :: 0 <= j < |all| ==> all[j] in owner && owner[all[j]] == (x, y)
      requires forall i, j :: Inside(i, j) && !Near(x, y, i, j) ==>
        (i, j) in lay0 && lay0[(i, j)] == Lists(grid[i][j].herbs, grid[i][j].carns)
      modifies this`owner, Ring(x, y)`herbs, Ring(x, y)`carns, {grid[x][y]}`herbs, {grid[x][y]}`carns, all, rng
      ensures Moved(x, y, c, Surroundings(x, y), rng.uniform, rng.integer, old(rng.pos), all, old(States(all)),
                    old(Snapshot(x, y)), old(owner), h, keptH, keptC, now, own, pos, states)
      ensures grid[x][y].herbs == keptH && grid[x][y].carns == keptC && Snapshot(x, y) == now && owner == own
      ensures States(all) == states && rng.pos == pos
      ensures forall i, j :: Inside(i, j) && !Near(x, y, i, j) ==> lay0[(i, j)] == Lists(grid[i][j].herbs, grid[i][j].carns)
    {
      keptH, keptC, h, now, own := Roam(x, y, c, rng, all, lay0);
      states, pos := States(all), rng.pos;
      Keep(x, y, keptH, keptC, all);
    }

    /**
     * After `move` on `(x, y)` of a valid grid whose lists were `lay0`, whose animals lived
     * by `own0` and were in the states `bs`, the grid is valid.
     */
    lemma Settled(x: nat, y: nat, c: Constants, u: nat -> Unit, raw: nat -> nat, pos0: nat, all: seq<Animal>,
                  bs: seq<Beast>, start: Compass<Lists>, own0: map<Animal, (int, int)>, h: seq<Step>,
                  keptH: seq<Animal>, keptC: seq<Animal>, now: Compass<Lists>, pos: nat, states: seq<Beast>,
                  lay0: map<(int, int), Lists>)
      requires 0 < |grid| && (forall i :: 0 <= i < |grid| ==> |grid[i]| == |grid[0]|) && Mapped()
      requires Inside(x, y) && Interior(x, y) && Laid(lay0, own0)
      requires all == lay0[(x, y)].herbs + lay0[(x, y)].carns && Distinct(all)
      requires forall j :: 0 <= j < |all| ==> all[j] in own0 && own0[all[j]] == (x, y)
      requires forall d :: Neighbour(x, y, d) in lay0 && start.At(d) == lay0[Neighbour(x, y, d)]
      requires |bs| == |all| && forall j :: 0 <= j < |all| ==> bs[j].species == all[j].species
      requires Moved(x, y, c, Surroundings(x, y), u, raw, pos0, all, bs, start, own0, h, keptH, keptC, now, owner, pos,
                     states)
      requires grid[x][y].herbs == keptH && grid[x][y].carns == keptC && Snapshot(x, y) == now
      requires forall i, j :: Inside(i, j) && !Near(x, y, i, j) ==> lay0[(i, j)] == Lists(grid[i][j].herbs, grid[i][j].carns)
      ensures Valid()
    {
      Spilled(x, y, all, h, keptH, keptC, start, now, lay0, own0, owner);
      Matched(x, y, lay0, now, keptH, keptC);
      LaidValid(Relaid(lay0, x, y, now, keptH, keptC));
    }


    /** The lists `Relaid` records are those of the grid once `(x, y)` holds `keptH` and
        `keptC`, its neighbours hold `now` and every other cell holds what `lay0` records. */
    lemma Matched(x: nat, y: nat, lay0: map<(int, int), Lists>, now: Compass<Lists>, keptH: seq<Animal>,
                  keptC: seq<Animal>)
      requires Mapped() && Inside(x, y) && Interior(x, y) && forall i, j :: Inside(i, j) ==> (i, j) in lay0
      requires grid[x][y].herbs == keptH && grid[x][y].carns == keptC && Snapshot(x, y) == now
      requires forall i, j :: Inside(i, j) && !Near(x, y, i, j) ==> lay0[(i, j)] == Lists(grid[i][j].herbs, grid[i][j].carns)
      ensures forall i, j :: Inside(i, j) ==>
        Relaid(lay0, x, y, now, keptH, keptC)[(i, j)] == Lists(grid[i][j].herbs, grid[i][j].carns)
    {
      var lay1 := Relaid(lay0, x, y, now, keptH, keptC);
      forall i, j | Inside(i, j) ensures lay1[(i, j)] == Lists(grid[i][j].herbs, grid[i][j].carns) {
        if (i, j) == (x, y) {
        } else if (i, j) == (x - 1, y) {
          assert now.At(North) == Lists(Side(x, y, North).herbs, Side(x, y, North).carns);
        } else if (i, j) == (x, y + 1) {
          assert now.At(East) == Lists(Side(x, y, East).herbs, Side(x, y, East).carns);
        } else if (i, j) == (x + 1, y) {
          assert now.At(South) == Lists(Side(x, y, South).herbs, Side(x, y, South).carns);
        } else if (i, j) == (x, y - 1) {
          assert now.At(West) == Lists(Side(x, y, West).herbs, Side(x, y, West).carns);
        } else {
          assert !Near(x, y, i, j);
        }
      }
    }

    /** The cell `(x, y)` keeps the animals `keptH` and `keptC` (`biosim/cell_control.py`
        lines 143-144); no other cell and no animal changes. */
    method Keep(x: nat, y: nat, keptH: seq<Animal>, keptC: seq<Animal>, ghost all: seq<Animal>)
      requires Mapped() && Inside(x, y) && Interior(x, y)
      modifies {grid[x][y]}`herbs, {grid[x][y]}`carns
      ensures grid[x][y].herbs == keptH && grid[x][y].carns == keptC
      ensures Snapshot(x, y) == old(Snapshot(x, y)) && States(all) == old(States(all))
      ensures forall i, j :: Inside(i, j) && (i, j) != (x, y) ==>
        grid[i][j].herbs == old(grid[i][j].herbs) && grid[i][j].carns == old(grid[i][j].carns)
    {
      var cell := grid[x][y];
      assert cell !in Ring(x, y);
      cell.herbs := keptH;
      cell.carns := keptC;
    }

    /** `Walk` (`biosim/cell_control.py` lines 76-141), which leaves every cell away from
        `(x, y)`, whose lists are in `lay0`, as it was. */
    method Roam(x: nat, y: nat, c: Constants, rng: Random, all: seq<Animal>, ghost lay0: map<(int, int), Lists>)
      returns (keptH: seq<Animal>, keptC: seq<Animal>, ghost h: seq<Step>, ghost now: Compass<Lists>,
               ghost own: map<Animal, (int, int)>)
      requires Inside(x, y) && Interior(x, y) && Mapped() && Distinct(all)
      requires forall j :: 0 <= j < |all| ==> all[j] in owner && owner[all[j]] == (x, y)
      requires forall i, j :: Inside(i, j) && !Near(x, y, i, j) ==>
        (i, j) in lay0 && lay0[(i, j)] == Lists(grid[i][j].herbs, grid[i][j].carns)
      modifies this`owner, Ring(x, y)`herbs, Ring(x, y)`carns, all, rng
      ensures forall i, j :: Inside(i, j) && !Near(x, y, i, j) ==> lay0[(i, j)] == Lists(grid[i][j].herbs, grid[i][j].carns)
      ensures Snapshot(x, y) == now && owner == own
      ensures Moved(x, y, c, Surroundings(x, y), rng.uniform, rng.integer, old(rng.pos), all, old(States(all)),
                    old(Snapshot(x, y)), old(owner), h, keptH, keptC, now, own, rng.pos, States(all))
    {
      forall i, j | Inside(i, j) && !Near(x, y, i, j) ensures grid[i][j] !in Ring(x, y) {
        Apart(x, y, i, j);
      }
      keptH, keptC, h, now, own := Walk(x, y, c, rng, all);
    }

    /**
     * The loop of `move` over the animals `all` of the cell `(x, y)` (`biosim/cell_control.py`
     * lines 76-141): every animal takes its
     * step of `Wanders`, in list order; those that stay end up in `keptH` and `keptC`, the
     * others at the end of a list of the neighbour they walk to, now `now`, and each lives
     * where it ends up, by `own`.
     */
    method Walk(x: nat, y: nat, c: Constants, rng: Random, all: seq<Animal>)
      returns (keptH: seq<Animal>, keptC: seq<Animal>, ghost h: seq<Step>, ghost now: Compass<Lists>,
               ghost own: map<Animal, (int, int)>)
      requires Inside(x, y) && Interior(x, y) && Mapped() && Distinct(all)
      requires forall j :: 0 <= j < |all| ==> all[j] in owner && owner[all[j]] == (x, y)
      modifies this`owner, Ring(x, y)`herbs, Ring(x, y)`carns, all, rng
      ensures Snapshot(x, y) == now && owner == own
      ensures Moved(x, y, c, Surroundings(x, y), rng.uniform, rng.integer, old(rng.pos), all, old(States(all)),
                    old(Snapshot(x, y)), old(owner), h, keptH, keptC, now, own, rng.pos, States(all))
    {
      ghost var bs, start, own0, pos0 := States(all), Snapshot(x, y), owner, rng.pos;
      keptH, keptC, h := [], [], [];
      assert Sorted(x, y, all, start, h, keptH, keptC) by {
        SameCompass(start, Snapshot(x, y));
      }
      var k := 0;
      while k < |all|
        invariant k == |h| <= |all|
        invariant Drawn(c, rng, all, bs, Surroundings(x, y), pos0, h)
        invariant Sorted(x, y, all, start, h, keptH, keptC) && Housed(x, y, all, own0, h)
      {
        keptH, keptC, h := MoveAt(x, y, c, rng, all, k, keptH, keptC, bs, start, own0, pos0, h);
        k := k + 1;
      }
      ChainedWanders(c, bs, Surroundings(x, y), rng.uniform, rng.integer, pos0, h);
      now, own := Snapshot(x, y), owner;
    }

    /** The lists of the four neighbours of `(x, y)`. */
    ghost function Snapshot(x: int, y: int): (r: Compass<Lists>)
      requires Interior(x, y) && Mapped()
      reads Ring(x, y)
      ensures forall d :: r.At(d) == Lists(Side(x, y, d).herbs, Side(x, y, d).carns)
    {
      Compass(Lists(Side(x, y, North).herbs, Side(x, y, North).carns),
              Lists(Side(x, y, East).herbs, Side(x, y, East).carns),
              Lists(Side(x, y, South).herbs, Side(x, y, South).carns),
              Lists(Side(x, y, West).herbs, Side(x, y, West).carns))
    }

    /** The part of `move` that concerns the animal `a` itself (`biosim/cell_control.py`
        lines 77-87 and 137): a walked animal stays and
        draws nothing; a not-walked one calls `move_dir` and, if it is bound for a habitable
        neighbour, is marked as walked. */
    method Decide(x: nat, y: nat, c: Constants, rng: Random, a: Animal) returns (dest: Dest)
      requires Inside(x, y) && Interior(x, y)
      modifies a`phi, a`notWalked, rng
      ensures var s := Wander(c, old(a.State()), Surroundings(x, y), rng.uniform, rng.integer, old(rng.pos));
        a.State() == s.after && dest == s.dest && rng.pos == s.pos
    {
      dest := Stay;
      if a.notWalked {
        var d := a.MoveDir(c, rng);
        if d.Some? {
          var i, j := Neighbour(x, y, d.value).0, Neighbour(x, y, d.value).1;
          if grid[i][j].habitable {
            a.notWalked := false;
            dest := Go(d.value);
          }
        }
      }
    }

    /** The part of `move` that concerns the lists (`biosim/cell_control.py` lines 79-141):
        the animal `a`, whose step `s` goes to
        `dest`, is appended to a list of that neighbour, or kept back in `stayH` or `stayC`. */
    method Deliver(x: nat, y: nat, a: Animal, dest: Dest, stayH: seq<Animal>, stayC: seq<Animal>, ghost s: Step,
                   ghost prev: Compass<Lists>)
      returns (keptH: seq<Animal>, keptC: seq<Animal>)
      requires Inside(x, y) && Interior(x, y) && Mapped()
      requires s.dest == dest && s.after.species == a.species && prev == Snapshot(x, y)
      modifies this`owner, Ring(x, y)`herbs, Ring(x, y)`carns
      ensures keptH == stayH + (if Lands(s, Stay, true) then [a] else [])
      ensures keptC == stayC + (if Lands(s, Stay, false) then [a] else [])
      ensures Snapshot(x, y) == Received(prev, a, s)
      ensures owner == old(owner)[a := Home(x, y, dest)]
    {
      keptH, keptC := stayH, stayC;
      match dest {
        case Stay =>
          if a.species == Herbivore {
            keptH := stayH + [a];
          } else {
            keptC := stayC + [a];
          }
          forall d ensures Snapshot(x, y).At(d) == Received(prev, a, s).At(d) {
          }
          SameCompass(Snapshot(x, y), Received(prev, a, s));
        case Go(dir) =>
          Send(x, y, a, dir, s, prev);
      }
      owner := owner[a := Home(x, y, dest)];
    }

    /** `a`, whose step `s` takes it in direction `dir`, joins a list of that neighbour
        (`biosim/cell_control.py` lines 88-91, 101-104, 114-117 and 127-130). */
    method Send(x: nat, y: nat, a: Animal, dir: Direction, ghost s: Step, ghost prev: Compass<Lists>)
      requires Inside(x, y) && Interior(x, y) && Mapped()
      requires s.dest == Go(dir) && s.after.species == a.species && prev == Snapshot(x, y)
      modifies Ring(x, y)`herbs, Ring(x, y)`carns
      ensures Snapshot(x, y) == Received(prev, a, s)
    {
      var i, j := Neighbour(x, y, dir).0, Neighbour(x, y, dir).1;
      var target := grid[i][j];
      forall d | d != dir ensures Side(x, y, d) != target {
        assert where[Side(x, y, d)] != where[target];
      }
      // The West branch compares the species with 'herbivore', which never matches.
      if a.species == Herbivore && dir != West {
        target.herbs := target.herbs + [a];
      } else {
        target.carns := target.carns + [a];
      }
      assert Side(x, y, dir) == target;
      forall d | d != dir ensures Snapshot(x, y).At(d) == prev.At(d) {
      }
      ReceivedOne(prev, Snapshot(x, y), a, s, dir);
    }

    // -------------------------------------------------------------------------
    // cell_cycle
    // -------------------------------------------------------------------------

    /** The animals of the cell `(i, j)` are none of those of the cell `(x, y)`. */
    lemma Disjoint(x: nat, y: nat, i: nat, j: nat)
      requires Valid() && Inside(x, y) && Inside(i, j) && (i, j) != (x, y)
      ensures grid[i][j] != grid[x][y]
      ensures forall a :: a in grid[i][j].Members() ==> a !in grid[x][y].Members()
    {
      assert Placed(owner, x, y) && Placed(owner, i, j);
    }

    /** The cell at `at` is placed, and shares neither itself nor an animal with any other cell. */
    lemma Alone(at: (nat, nat))
      requires Valid() && Inside(at.0, at.1)
      ensures Placed(owner, at.0, at.1)
      ensures forall i, j :: Inside(i, j) && (i, j) != at ==>
                grid[i][j] != grid[at.0][at.1] &&
                forall a :: a in grid[i][j].Members() ==> a !in grid[at.0][at.1].Members()
    {
      forall i, j | Inside(i, j) && (i, j) != at
        ensures grid[i][j] != grid[at.0][at.1] &&
                forall a :: a in grid[i][j].Members() ==> a !in grid[at.0][at.1].Members()
      {
        Disjoint(at.0, at.1, i, j);
      }
    }

    /** `feeding_herb()` on the cell `(x, y)` in the first pass of `cell_cycle`. */
    method HerbAt(x: nat, y: nat, c: Constants, alpha: real)
      requires Valid() && AllReady() && Inside(x, y) && c.herbivore.F > 0.0
      modifies {grid[x][y]}`food, {grid[x][y]}`herbs, {grid[x][y]}`carns, grid[x][y].Members()
      ensures Valid() && AllReady() && grid[x][y].HerbFed(c, alpha)
    {
      var cell := grid[x][y];
      Alone((x, y));
      assert cell.Ready();
      ghost var hs, cs := cell.herbs, cell.carns;
      cell.HerbPhase(c, alpha);
      Shrunk(hs, cs, cell.herbs, cell.carns, cell.habitable, Border(x, y), owner, (x, y));
      Kept((x, y));
    }

    /** `feeding_carn()` on the cell `(x, y)` in the first pass of `cell_cycle`. */
    method CarnAt(x: nat, y: nat, c: Constants, rng: Random)
      requires Valid() && AllReady() && Inside(x, y) && KillReady(c.carnivore)
      modifies {grid[x][y]}`herbs, {grid[x][y]}`carns, grid[x][y].Members(), rng
      ensures Valid() && AllReady() && grid[x][y].CarnFed(c, rng)
    {
      var cell := grid[x][y];
      Alone((x, y));
      assert cell.Ready();
      ghost var hs, cs := cell.herbs, cell.carns;
      cell.CarnPhase(c, rng);
      Shrunk(hs, cs, cell.herbs, cell.carns, cell.habitable, Border(x, y), owner, (x, y));
      Kept((x, y));
    }

    /** `birth()` on the cell `(x, y)` in the first pass of `cell_cycle`: every newborn lives
        at `(x, y)`. An empty cell has no parent, so `birth()` leaves it as it is. */
    method BreedAt(x: nat, y: nat, c: Constants, rng: Random)
      requires Valid() && AllReady() && Inside(x, y) && c.herbivore.xi > 0.0 && c.carnivore.xi > 0.0
      modifies this`owner, {grid[x][y]}`herbs, {grid[x][y]}`carns, grid[x][y].Members(), rng
      ensures Valid() && AllReady() && grid[x][y].Littered(c, rng)
      ensures forall a :: a in owner ==> a in old(owner) || fresh(a)
    {
      var cell := grid[x][y];
      if cell.herbs != [] || cell.carns != [] {
        Brood(x, y, c, rng);
      } else {
        assert States(cell.herbs + cell.carns) == [];
        assert Breed(c, [], 0, 0, rng.uniform, rng.normal, rng.pos).pos == rng.pos;
      }
    }

    /** `birth()` on the cell `(x, y)` with animals, in the first pass of `cell_cycle`. */
    method Brood(x: nat, y: nat, c: Constants, rng: Random)
      requires Valid() && AllReady() && Inside(x, y) && c.herbivore.xi > 0.0 && c.carnivore.xi > 0.0
      requires grid[x][y].herbs != [] || grid[x][y].carns != []
      modifies this`owner, {grid[x][y]}`herbs, {grid[x][y]}`carns, grid[x][y].Members(), rng
      ensures Valid() && AllReady() && grid[x][y].Littered(c, rng)
      ensures forall a :: a in owner ==> a in old(owner) || fresh(a)
    {
      Litter(x, y, c, rng);
      Adopt(x, y);
    }

    /** Records every animal of the cell `(x, y)` there, once `birth()` has left the cell
        valid and ready and its animals with a record recorded there. */
    ghost method Adopt(x: nat, y: nat)
      requires 0 < |grid| && (forall i :: 0 <= i < |grid| ==> |grid[i]| == |grid[0]|) && Mapped()
      requires Inside(x, y) && !Border(x, y)
      requires grid[x][y].habitable && grid[x][y].Valid() && grid[x][y].Ready()
      requires forall a :: a in grid[x][y].Members() && a in owner ==> owner[a] == (x, y)
      requires forall i, j :: Inside(i, j) && (i, j) != (x, y) ==> Placed(owner, i, j) && grid[i][j].Ready()
      modifies this`owner
      ensures owner == old(owner) + map a | a in grid[x][y].Members() :: (x, y)
      ensures Valid() && AllReady()
    {
      owner := owner + map a | a in grid[x][y].Members() :: (x, y);
      Born((x, y));
    }

    /** `birth()` on the cell `(x, y)` with animals: the other cells stay placed and ready,
        and an animal of the cell that has a record has it at `(x, y)`. */
    method Litter(x: nat, y: nat, c: Constants, rng: Random)
      requires Valid() && AllReady() && Inside(x, y) && c.herbivore.xi > 0.0 && c.carnivore.xi > 0.0
      requires grid[x][y].herbs != [] || grid[x][y].carns != []
      modifies {grid[x][y]}`herbs, {grid[x][y]}`carns, grid[x][y].Members(), rng
      ensures grid[x][y].habitable && !Border(x, y) && grid[x][y].Valid() && grid[x][y].Ready()
      ensures grid[x][y].Littered(c, rng)
      ensures forall a :: a in grid[x][y].Members() ==> a in old(grid[x][y].Members()) || fresh(a)
      ensures forall a :: a in grid[x][y].Members() && a in owner ==> owner[a] == (x, y)
      ensures forall i, j :: Inside(i, j) && (i, j) != (x, y) ==> Placed(owner, i, j) && grid[i][j].Ready()
    {
      var cell := grid[x][y];
      Alone((x, y));
      assert cell.Ready() && cell.habitable;
      ghost var m := cell.Members();
      assert forall a :: a in m ==> a in owner && owner[a] == (x, y);
      cell.BirthPhase(c, rng);
      Untouched((x, y));
    }

    /** Recording every animal of the cell at `at` there, after `birth()`, makes the grid
        valid and ready again and keeps the records of the other animals. */
    twostate lemma Born(at: (nat, nat))
      requires Inside(at.0, at.1) && !Border(at.0, at.1)
      requires 0 < |grid| && (forall i :: 0 <= i < |grid| ==> |grid[i]| == |grid[0]|) && Mapped()
      requires old(grid[at.0][at.1].habitable && grid[at.0][at.1].Valid() && grid[at.0][at.1].Ready())
      requires old(forall a :: a in grid[at.0][at.1].Members() && a in owner ==> owner[a] == at)
      requires old(forall i, j :: Inside(i, j) && (i, j) != at ==> Placed(owner, i, j) && grid[i][j].Ready())
      requires forall i, j :: Inside(i, j) ==> unchanged(grid[i][j])
      requires forall i, j, a :: Inside(i, j) && a in old(grid[i][j].Members()) ==> unchanged(a)
      requires owner == old(owner) + map a | a in grid[at.0][at.1].Members() :: at
      ensures Valid() && AllReady()
      ensures forall a :: a in owner ==> a in old(owner) || a in grid[at.0][at.1].Members()
    {
      var cell := grid[at.0][at.1];
      forall a | a in cell.herbs + cell.carns ensures a in owner && owner[a] == at {
        assert a in cell.Members();
      }
      forall i, j | Inside(i, j) && (i, j) != at ensures Placed(owner, i, j) {
        assert old(Placed(owner, i, j));
        assert Placed(old(owner), i, j);
        Reowned(old(owner), owner, i, j);
      }
      StillReady();
    }

    /** A step that left every cell and every animal alone keeps the grid ready. */
    twostate lemma StillReady()
      requires old(Mapped() && AllReady())
      requires forall i, j :: Inside(i, j) ==> unchanged(grid[i][j])
      requires forall i, j, a :: Inside(i, j) && a in old(grid[i][j].Members()) ==> unchanged(a)
      ensures AllReady()
    {
      forall i, j | Inside(i, j) ensures grid[i][j].Ready() {
        var cell := grid[i][j];
        assert old(cell.Ready());
        assert forall k :: 0 <= k < |cell.herbs| ==> cell.herbs[k] in old(cell.Members());
        assert forall k :: 0 <= k < |cell.carns| ==> cell.carns[k] in old(cell.Members());
        assert States(cell.herbs) == old(States(cell.herbs));
        assert States(cell.carns) == old(States(cell.carns));
      }
    }

    /**
     * What `move(x, y)` makes of the grid, for the animals `all` of `pop_herb + pop_carn` at
     * `(x, y)`: each takes the step `Wanders` gives it, in list order; the cell keeps the
     * ones that stayed, each neighbour gets those that went there appended, by species and
     * in list order; and no other cell changes.
     */
    twostate predicate Migration(x: nat, y: nat, c: Constants, rng: Random, all: seq<Animal>)
      requires Mapped() && Inside(x, y)
      reads Grid(), rng, all
    {
      var h := Wanders(c, old(States(all)), Surroundings(x, y), rng.uniform, rng.integer, old(rng.pos));
      && all == old(grid[x][y].herbs + grid[x][y].carns)
      && rng.pos == Last(h, old(rng.pos))
      && (forall j :: 0 <= j < |all| ==> all[j].State() == h[j].after)
      && grid[x][y].herbs == Pick(all, Where(h, Stay, true))
      && grid[x][y].carns == Pick(all, Where(h, Stay, false))
      && (forall d :: Beside(x, y, d) ==>
        && Side(x, y, d).herbs == old(Side(x, y, d).herbs) + Pick(all, Where(h, Go(d), true))
        && Side(x, y, d).carns == old(Side(x, y, d).carns) + Pick(all, Where(h, Go(d), false)))
      && forall i, j :: Inside(i, j) && !Near(x, y, i, j) ==>
        grid[i][j].herbs == old(grid[i][j].herbs) && grid[i][j].carns == old(grid[i][j].carns)
    }

    /** `move(x, y)` in the first pass of `cell_cycle`: the grid stays valid and ready, and
        the records kept are of animals recorded before. */
    method MigrateAt(x: nat, y: nat, c: Constants, rng: Random)
      requires Valid() && AllReady() && Inside(x, y)
      modifies this`owner, Grid()`herbs, Grid()`carns, grid[x][y].Members(), rng
      ensures Valid() && AllReady() && Migration(x, y, c, rng, old(grid[x][y].herbs + grid[x][y].carns))
      ensures forall a :: a in owner ==> a in old(owner)
    {
      Travel(x, y, c, rng);
      Restrict(old(owner));
    }

    /** `move(x, y)` on a valid, ready grid: every cell stays ready, and every animal of the
        grid was recorded before. */
    method Travel(x: nat, y: nat, c: Constants, rng: Random)
      requires Valid() && AllReady() && Inside(x, y)
      modifies this`owner, Grid()`herbs, Grid()`carns, grid[x][y].Members(), rng
      ensures Valid() && AllReady() && Migration(x, y, c, rng, old(grid[x][y].herbs + grid[x][y].carns))
      ensures forall i, j, a :: Inside(i, j) && a in grid[i][j].Members() ==> a in old(owner)
    {
      var cell := grid[x][y];
      Alone((x, y));
      ghost var all, around, pos := cell.herbs + cell.carns, Surroundings(x, y), rng.pos;
      ghost var bs := States(all);
      StatesSplit(cell.herbs, cell.carns);
      ReadyJoin(States(cell.herbs), States(cell.carns));
      assert forall a :: a in all ==> a in cell.Members();
      Move(x, y, c, rng);
      ghost var h := Wanders(c, bs, around, rng.uniform, rng.integer, pos);
      forall dest, toHerbs
        ensures Rankable(Pick(Afters(h), Where(h, dest, toHerbs)))
        ensures dest.Go? || !toHerbs ==> HuntersOnly(Pick(Afters(h), Where(h, dest, toHerbs)))
      {
        WandersReady(c, bs, around, rng.uniform, rng.integer, pos, dest, toHerbs);
      }
      Migrated(Trip(x, y, h, North));
    }

    /** After `move(t.x, t.y)`, which took the steps `t.h`: every cell is ready, and every
        animal of the grid was recorded before. */
    twostate lemma Migrated(t: Trip)
      requires old(Valid() && AllReady()) && Valid() && Inside(t.x, t.y)
      requires var all := old(grid[t.x][t.y].herbs + grid[t.x][t.y].carns);
        && |t.h| == |all| && (forall j :: 0 <= j < |all| ==> all[j].State() == t.h[j].after)
        && grid[t.x][t.y].herbs == Pick(all, Where(t.h, Stay, true))
        && grid[t.x][t.y].carns == Pick(all, Where(t.h, Stay, false))
        && forall d :: Beside(t.x, t.y, d) ==>
          && Side(t.x, t.y, d).herbs == old(Side(t.x, t.y, d).herbs) + Pick(all, Where(t.h, Go(d), true))
          && Side(t.x, t.y, d).carns == old(Side(t.x, t.y, d).carns) + Pick(all, Where(t.h, Go(d), false))
      requires forall i, j :: Inside(i, j) && !Near(t.x, t.y, i, j) ==>
        grid[i][j].herbs == old(grid[i][j].herbs) && grid[i][j].carns == old(grid[i][j].carns)
      requires forall i, j, a :: Inside(i, j) && (i, j) != (t.x, t.y) && a in old(grid[i][j].Members()) ==> unchanged(a)
      requires forall dest, toHerbs ::
        && Rankable(Pick(Afters(t.h), Where(t.h, dest, toHerbs)))
        && (dest.Go? || !toHerbs ==> HuntersOnly(Pick(Afters(t.h), Where(t.h, dest, toHerbs))))
      ensures AllReady()
      ensures forall i, j, a :: Inside(i, j) && a in grid[i][j].Members() ==> a in old(owner)
    {
      var all := old(grid[t.x][t.y].herbs + grid[t.x][t.y].carns);
      assert States(all) == Afters(t.h);
      forall i, j | Inside(i, j)
        ensures grid[i][j].Ready() && forall a :: a in grid[i][j].Members() ==> a in old(owner)
      {
        if (i, j) == (t.x, t.y) {
          MovedCentre(t);
        } else if Near(t.x, t.y, i, j) {
          var d :| Beside(t.x, t.y, d) && Neighbour(t.x, t.y, d) == (i, j);
          MovedSide(t.(d := d));
        } else {
          MovedFar((i, j));
        }
      }
    }

    /** After `move(t.x, t.y)`, the cell itself is ready: it keeps the ready animals that
        stayed, each recorded before. */
    twostate lemma MovedCentre(t: Trip)
      requires old(Valid()) && Inside(t.x, t.y)
      requires var all := old(grid[t.x][t.y].herbs + grid[t.x][t.y].carns);
        && |t.h| == |all| && States(all) == Afters(t.h)
        && grid[t.x][t.y].herbs == Pick(all, Where(t.h, Stay, true))
        && grid[t.x][t.y].carns == Pick(all, Where(t.h, Stay, false))
      requires forall toHerbs :: Rankable(Pick(Afters(t.h), Where(t.h, Stay, toHerbs)))
      requires HuntersOnly(Pick(Afters(t.h), Where(t.h, Stay, false)))
      ensures grid[t.x][t.y].Ready()
      ensures forall a :: a in grid[t.x][t.y].Members() ==> a in old(owner)
    {
      var all := old(grid[t.x][t.y].herbs + grid[t.x][t.y].carns);
      var cell := grid[t.x][t.y];
      assert old(Placed(owner, t.x, t.y));
      StatesPick(all, Where(t.h, Stay, true));
      StatesPick(all, Where(t.h, Stay, false));
      PickWithin(all, Where(t.h, Stay, true));
      PickWithin(all, Where(t.h, Stay, false));
      assert forall a :: a in cell.herbs + cell.carns ==> a in all;
    }

    /** A cell `move` neither left nor entered, whose animals it left alone, stays ready, with
        every animal recorded before. */
    twostate lemma MovedFar(at: (nat, nat))
      requires old(Valid() && AllReady()) && Inside(at.0, at.1)
      requires grid[at.0][at.1].herbs == old(grid[at.0][at.1].herbs)
      requires grid[at.0][at.1].carns == old(grid[at.0][at.1].carns)
      requires forall a :: a in old(grid[at.0][at.1].Members()) ==> unchanged(a)
      ensures grid[at.0][at.1].Ready()
      ensures forall a :: a in grid[at.0][at.1].Members() ==> a in old(owner)
    {
      var cell := grid[at.0][at.1];
      assert old(Placed(owner, at.0, at.1) && cell.Ready());
      assert forall k :: 0 <= k < |cell.herbs| ==> cell.herbs[k] in old(cell.Members());
      assert forall k :: 0 <= k < |cell.carns| ==> cell.carns[k] in old(cell.Members());
      assert States(cell.herbs) == old(States(cell.herbs));
      assert States(cell.carns) == old(States(cell.carns));
    }

    /** After `move(t.x, t.y)`, the neighbour in direction `t.d` is ready: its animals are as
        before, followed by the ready ones that walked in; and every animal there was
        recorded before. */
    twostate lemma MovedSide(t: Trip)
      requires old(Valid() && AllReady()) && Inside(t.x, t.y) && Beside(t.x, t.y, t.d)
      requires var all := old(grid[t.x][t.y].herbs + grid[t.x][t.y].carns);
        && |t.h| == |all| && States(all) == Afters(t.h)
        && Side(t.x, t.y, t.d).herbs == old(Side(t.x, t.y, t.d).herbs) + Pick(all, Where(t.h, Go(t.d), true))
        && Side(t.x, t.y, t.d).carns == old(Side(t.x, t.y, t.d).carns) + Pick(all, Where(t.h, Go(t.d), false))
      requires forall a :: a in old(Side(t.x, t.y, t.d).Members()) ==> unchanged(a)
      requires forall toHerbs :: Rankable(Pick(Afters(t.h), Where(t.h, Go(t.d), toHerbs)))
      requires forall toHerbs :: HuntersOnly(Pick(Afters(t.h), Where(t.h, Go(t.d), toHerbs)))
      ensures Side(t.x, t.y, t.d).Ready()
      ensures forall a :: a in Side(t.x, t.y, t.d).Members() ==> a in old(owner)
    {
      var (x, y, h, d) := (t.x, t.y, t.h, t.d);
      var all := old(grid[x][y].herbs + grid[x][y].carns);
      var (i, j) := Neighbour(x, y, d);
      var cell := grid[i][j];
      var hs, cs := old(cell.herbs), old(cell.carns);
      var inH, inC := Where(h, Go(d), true), Where(h, Go(d), false);
      assert old(Placed(owner, x, y) && Placed(owner, i, j) && cell.Ready());
      assert forall k :: 0 <= k < |hs| ==> hs[k] in old(cell.Members());
      assert forall k :: 0 <= k < |cs| ==> cs[k] in old(cell.Members());
      assert States(hs) == old(States(hs)) && States(cs) == old(States(cs));
      StatesSplit(hs, Pick(all, inH));
      StatesSplit(cs, Pick(all, inC));
      StatesPick(all, inH);
      StatesPick(all, inC);
      ReadyJoin(States(hs), States(Pick(all, inH)));
      ReadyJoin(States(cs), States(Pick(all, inC)));
      PickWithin(all, inH);
      PickWithin(all, inC);
    }

    /** Drops the records of the animals not in `keep`, when every animal of the grid is in
        `keep`: the grid stays valid and ready. */
    ghost method Restrict(keep: map<Animal, (int, int)>)
      requires Valid() && AllReady()
      requires forall i, j, a :: Inside(i, j) && a in grid[i][j].Members() ==> a in keep
      modifies this`owner
      ensures owner == Narrow(old(owner), keep)
      ensures Valid() && AllReady()
    {
      Narrowed(owner, keep);
      owner := Narrow(owner, keep);
      Reheld();
    }

    /** Keeping only the records of the animals in `keep` leaves every cell placed when every
        animal of the grid is in `keep`. */
    lemma Narrowed(own: map<Animal, (int, int)>, keep: map<Animal, (int, int)>)
      requires forall i, j :: Inside(i, j) ==> Placed(own, i, j)
      requires forall i, j, a :: Inside(i, j) && a in grid[i][j].Members() ==> a in keep
      ensures forall i, j :: Inside(i, j) ==> Placed(Narrow(own, keep), i, j)
    {
      forall i, j | Inside(i, j) ensures Placed(Narrow(own, keep), i, j) {
        var cell := grid[i][j];
        assert forall a :: a in cell.herbs + cell.carns ==> a in cell.Members();
      }
    }

    /** A step that changed no cell and no animal, only the records, keeps the grid valid and
        ready when every cell is placed by the new records. */
    twostate lemma Reheld()
      requires old(0 < |grid| && (forall i :: 0 <= i < |grid| ==> |grid[i]| == |grid[0]|) && Mapped() && AllReady())
      requires forall i, j :: Inside(i, j) ==> unchanged(grid[i][j])
      requires forall i, j, a :: Inside(i, j) && a in old(grid[i][j].Members()) ==> unchanged(a)
      requires var o := owner; old(allocated(o)) && forall i, j :: Inside(i, j) ==> old(Placed(o, i, j))
      ensures Valid() && AllReady()
    {
      StillReady();
      var o := owner;
      forall i, j | Inside(i, j) ensures Placed(o, i, j) {
        assert old(Placed(o, i, j));
      }
    }

    /** A phase that changed only the cell `(x, y)` and its animals, and left that cell
        placed and ready, leaves the whole grid valid and ready. */
    twostate lemma Kept(at: (nat, nat))
      requires old(Valid()) && old(AllReady()) && Inside(at.0, at.1) && owner == old(owner)
      requires forall i, j :: Inside(i, j) && (i, j) != at ==> unchanged(grid[i][j])
      requires forall i, j, a :: Inside(i, j) && (i, j) != at && a in old(grid[i][j].Members()) ==> unchanged(a)
      requires Placed(owner, at.0, at.1) && grid[at.0][at.1].Ready()
      ensures Valid() && AllReady()
    {
      Untouched(at);
    }

    /** A phase that changed only the cell at `at` and its animals leaves every other cell
        placed and ready. */
    twostate lemma Untouched(at: (nat, nat))
      requires old(Valid()) && old(AllReady()) && Inside(at.0, at.1) && owner == old(owner)
      requires forall i, j :: Inside(i, j) && (i, j) != at ==> unchanged(grid[i][j])
      requires forall i, j, a :: Inside(i, j) && (i, j) != at && a in old(grid[i][j].Members()) ==> unchanged(a)
      ensures forall i, j :: Inside(i, j) && (i, j) != at ==> Placed(owner, i, j) && grid[i][j].Ready()
    {
      forall i, j | Inside(i, j) && (i, j) != at ensures Placed(owner, i, j) && grid[i][j].Ready() {
        var cell := grid[i][j];
        assert old(Placed(owner, i, j) && cell.Ready());
        assert forall k :: 0 <= k < |cell.herbs| ==> cell.herbs[k] in old(cell.Members());
        assert forall k :: 0 <= k < |cell.carns| ==> cell.carns[k] in old(cell.Members());
        assert States(cell.herbs) == old(States(cell.herbs));
        assert States(cell.carns) == old(States(cell.carns));
      }
    }

    /** A phase that changed only the cell at `at` and its animals leaves every other cell
        placed, and rested if it was rested before. */
    twostate lemma Spared(at: (nat, nat))
      requires old(Valid()) && Inside(at.0, at.1) && owner == old(owner)
      requires forall i, j :: Inside(i, j) && (i, j) != at ==> unchanged(grid[i][j])
      requires forall i, j, a :: Inside(i, j) && (i, j) != at && a in old(grid[i][j].Members()) ==> unchanged(a)
      ensures forall i, j :: Inside(i, j) && (i, j) != at ==>
                Placed(owner, i, j) && (old(grid[i][j].Rested()) ==> grid[i][j].Rested())
    {
      forall i, j | Inside(i, j) && (i, j) != at
        ensures Placed(owner, i, j) && (old(grid[i][j].Rested()) ==> grid[i][j].Rested())
      {
        var cell := grid[i][j];
        assert old(Placed(owner, i, j));
        assert forall k :: 0 <= k < |cell.herbs| ==> cell.herbs[k] in old(cell.Members());
        assert forall k :: 0 <= k < |cell.carns| ==> cell.carns[k] in old(cell.Members());
        assert States(cell.herbs) == old(States(cell.herbs));
        assert States(cell.carns) == old(States(cell.carns));
      }
    }

    /** Every animal of the cell at `at` is recorded. */
    lemma Owned(at: (nat, nat))
      requires Valid() && Inside(at.0, at.1)
      ensures forall a :: a in grid[at.0][at.1].Members() ==> a in owner
    {
      assert Placed(owner, at.0, at.1);
    }

    /** The second-pass step of `cell_cycle` on the cell `(x, y)`: `set_not_walked_true()`,
        `age()`, `weight_loss()` and `survive()`. The other cells keep their animals, so a
        rested one stays rested. */
    method RestAt(x: nat, y: nat, c: Constants, rng: Random)
      requires Valid() && Inside(x, y)
      modifies {grid[x][y]}`herbs, {grid[x][y]}`carns, grid[x][y].Members(), rng
      ensures Valid() && grid[x][y].Rested() && grid[x][y].YearEnded(c, rng)
      ensures forall i, j :: Inside(i, j) && (i, j) != (x, y) && old(grid[i][j].Rested()) ==> grid[i][j].Rested()
    {
      var cell := grid[x][y];
      Alone((x, y));
      ghost var hs, cs := cell.herbs, cell.carns;
      cell.RestPhase(c, rng);
      Shrunk(hs, cs, cell.herbs, cell.carns, cell.habitable, Border(x, y), owner, (x, y));
      Spared((x, y));
    }

    /** The first-pass step of `cell_cycle` on the cell `(x, y)`: `feeding_herb()`,
        `feeding_carn()`, `birth()` and then `move(x, y)`. */
    method YearAt(x: nat, y: nat, c: Constants, alpha: real, rng: Random)
      requires Valid() && AllReady() && Inside(x, y) && Yearly(c)
      modifies this`owner, Grid()`food, Grid()`herbs, Grid()`carns, owner.Keys, rng
      ensures Valid() && AllReady()
      ensures forall a :: a in owner ==> a in old(owner) || fresh(a)
    {
      FeedAt(x, y, c, alpha, rng);
      BreedMove(x, y, c, rng);
    }

    /** `feeding_herb()` and then `feeding_carn()` on the cell `(x, y)`
        (`biosim/cell_control.py` lines 152-153). */
    method FeedAt(x: nat, y: nat, c: Constants, alpha: real, rng: Random)
      requires Valid() && AllReady() && Inside(x, y) && Yearly(c)
      modifies Grid()`food, Grid()`herbs, Grid()`carns, owner.Keys, rng
      ensures Valid() && AllReady()
    {
      Owned((x, y));
      HerbAt(x, y, c, alpha);
      Owned((x, y));
      CarnAt(x, y, c, rng);
    }

    /** `birth()` and then `move(x, y)` on the cell `(x, y)` (`biosim/cell_control.py`
        lines 154-155). */
    method BreedMove(x: nat, y: nat, c: Constants, rng: Random)
      requires Valid() && AllReady() && Inside(x, y) && Yearly(c)
      modifies this`owner, Grid()`herbs, Grid()`carns, owner.Keys, rng
      ensures Valid() && AllReady()
      ensures forall a :: a in owner ==> a in old(owner) || fresh(a)
    {
      Owned((x, y));
      BreedAt(x, y, c, rng);
      ghost var bred := owner;
      Owned((x, y));
      MigrateAt(x, y, c, rng);
      assert forall a :: a in owner ==> a in bred;
    }

    /** The first pass of `cell_cycle`: every cell in row-major order feeds, breeds and moves
        its animals, and the grid stays valid and ready throughout. */
    method FirstPass(c: Constants, alpha: real, rng: Random)
      requires Valid() && AllReady() && Yearly(c)
      modifies this`owner, Grid()`food, Grid()`herbs, Grid()`carns, owner.Keys, rng
      ensures Valid() && AllReady()
      ensures forall a :: a in owner ==> a in old(owner) || fresh(a)
    {
      for x := 0 to |grid|
        invariant Valid() && AllReady()
        invariant forall a :: a in owner ==> a in old(owner) || fresh(a)
      {
        for y := 0 to |grid[x]|
          invariant Valid() && AllReady()
          invariant forall a :: a in owner ==> a in old(owner) || fresh(a)
        {
          YearAt(x, y, c, alpha, rng);
        }
      }
    }

    /** The second pass of `cell_cycle`: every cell in row-major order ages, loses weight and
        culls its animals, which leaves every cell rested. */
    method SecondPass(c: Constants, rng: Random)
      requires Valid()
      modifies Grid()`herbs, Grid()`carns, owner.Keys, rng
      ensures Valid() && AllRested()
    {
      for x := 0 to |grid|
        invariant Valid()
        invariant forall i, j :: Inside(i, j) && i < x ==> grid[i][j].Rested()
      {
        RestRow(x, c, rng);
      }
    }

    /** The second pass of `cell_cycle` on the row `x`: its cells end rested, and the other
        rows keep their rested cells. */
    method RestRow(x: nat, c: Constants, rng: Random)
      requires Valid() && x < |grid|
      modifies Grid()`herbs, Grid()`carns, owner.Keys, rng
      ensures Valid()
      ensures forall j :: Inside(x, j) ==> grid[x][j].Rested()
      ensures forall i, j :: Inside(i, j) && i != x && old(grid[i][j].Rested()) ==> grid[i][j].Rested()
    {
      for y := 0 to |grid[x]|
        invariant Valid()
        invariant forall j :: Inside(x, j) && j < y ==> grid[x][j].Rested()
        invariant forall i, j :: Inside(i, j) && i != x && old(grid[i][j].Rested()) ==> grid[i][j].Rested()
      {
        Owned((x, y));
        label before:
        RestAt(x, y, c, rng);
        forall j | Inside(x, j) && j <= y ensures grid[x][j].Rested() {
          if j < y {
            assert old@before(grid[x][j].Rested());
          }
        }
      }
    }

    /** `cell_cycle()`: one year of the island. The grid stays valid, and every cell ends
        rested, so ready for the next year. */
    method CellCycle(c: Constants, alpha: real, rng: Random)
      requires Valid() && AllReady() && Yearly(c)
      modifies this`owner, Grid()`food, Grid()`herbs, Grid()`carns, owner.Keys, rng
      ensures Valid() && AllRested() && AllReady()
    {
      FirstPass(c, alpha, rng);
      SecondPass(c, rng);
      forall i, j | Inside(i, j) ensures grid[i][j].Ready() {
        grid[i][j].RestedReady();
      }
    }
  }

  /** The records of `own` for the animals that `keep` records. */
  function Narrow(own: map<Animal, (int, int)>, keep: map<Animal, (int, int)>): map<Animal, (int, int)>
  {
    map a | a in own && a in keep :: own[a]
  }

  /** A cell whose lists lose animals stays lodged. */
  lemma Shrunk(herbs0: seq<Animal>, carns0: seq<Animal>, herbs: seq<Animal>, carns: seq<Animal>,
               habitable: bool, border: bool, own: map<Animal, (int, int)>, at: (int, int))
    requires Lodged(herbs0, carns0, habitable, border, own, at)
    requires Distinct(herbs + carns) && forall k :: 0 <= k < |herbs| ==> herbs[k].species == Herbivore
    requires forall a :: a in herbs + carns ==> a in herbs0 + carns0
    ensures Lodged(herbs, carns, habitable, border, own, at)
  {
    if herbs + carns != [] {
      assert (herbs + carns)[0] in herbs0 + carns0;
    }
  }

  /** A new animal appended to the list of its species keeps a cell's lists valid. */
  lemma AddOne(herbs: seq<Animal>, carns: seq<Animal>, a: Animal, sp: Species)
    requires Distinct(herbs + carns) && a !in herbs + carns
    ensures sp == Herbivore ==> Distinct(herbs + [a] + carns)
    ensures sp == Carnivore ==> Distinct(herbs + (carns + [a]))
  {
    BirthValid(herbs, carns, if sp == Herbivore then [a] else [], if sp == Herbivore then [] else [a]);
    assert herbs + [] == herbs && carns + [] == carns;
  }

  /** A non-empty sequence is its front followed by its last element. */
  lemma SplitLast<T>(s: seq<T>)
    requires |s| > 0
    ensures s == s[..|s| - 1] + [s[|s| - 1]]
  {
  }

  /** Extending a prefix by one element. */
  lemma PrefixSnoc<T>(s: seq<T>, r: nat)
    requires r < |s|
    ensures s[..r + 1] == s[..r] + [s[r]] && s[..r + 1][..r] == s[..r]
  {
  }

  /** Where `move` puts an animal of the cell `(x, y)` whose step goes to `dest`. */
  function Home(x: int, y: int, dest: Dest): (int, int)
  {
    match dest
    case Stay => (x, y)
    case Go(d) => Neighbour(x, y, d)
  }

  /** The animals of `all` whose steps `h` keep them at `(x, y)` make valid lists of that
      cell, whatever else `move` did. */
  lemma StayLodged(x: int, y: int, all: seq<Animal>, h: seq<Step>, keptH: seq<Animal>, keptC: seq<Animal>,
                   habitable: bool, border: bool, own: map<Animal, (int, int)>)
    requires |h| == |all| && Distinct(all)
    requires forall j :: 0 <= j < |all| ==> h[j].after.species == all[j].species
    requires (border ==> !habitable) && (!habitable ==> all == [])
    requires keptH == Pick(all, Where(h, Stay, true)) && keptC == Pick(all, Where(h, Stay, false))
    requires forall j :: 0 <= j < |all| ==> all[j] in own && own[all[j]] == Home(x, y, h[j].dest)
    ensures Lodged(keptH, keptC, habitable, border, own, (x, y))
  {
    var wH, wC := Where(h, Stay, true), Where(h, Stay, false);
    WhereSpec(h, Stay, true);
    WhereSpec(h, Stay, false);
    PickApart(all, wH, wC);
    forall a | a in keptH + keptC ensures a in own && own[a] == (x, y) {
      if a in keptH {
        var k :| 0 <= k < |keptH| && keptH[k] == a;
        assert Lands(h[wH[k]], Stay, true);
      } else {
        var k :| 0 <= k < |keptC| && keptC[k] == a;
        assert Lands(h[wC[k]], Stay, false);
      }
    }
    forall k | 0 <= k < |keptH| ensures keptH[k].species == Herbivore {
      assert Lands(h[wH[k]], Stay, true);
    }
  }

  /** The neighbour at `at`, in direction `d` of `(x, y)`, with valid lists `prev`, stays
      valid when the animals of `all` that `h` sends there are appended. */
  lemma SideLodged(x: int, y: int, d: Direction, at: (int, int), prev: Lists, all: seq<Animal>, h: seq<Step>,
                   around: Around, habitable: bool, border: bool,
                   own0: map<Animal, (int, int)>, own: map<Animal, (int, int)>)
    requires at == Neighbour(x, y, d) && (Open(around, d) ==> habitable)
    requires Lodged(prev.herbs, prev.carns, habitable, border, own0, at)
    requires |h| == |all| && Distinct(all)
    requires forall j :: 0 <= j < |all| ==> h[j].after.species == all[j].species
    requires forall j :: 0 <= j < |h| ==> (h[j].dest.Go? ==> Open(around, h[j].dest.dir))
    requires forall j :: 0 <= j < |all| ==> all[j] in own0 && own0[all[j]] == (x, y)
    requires Homes(x, y, all, own0, h, own)
    ensures Lodged(prev.herbs + Pick(all, Where(h, Go(d), true)), prev.carns + Pick(all, Where(h, Go(d), false)),
                   habitable, border, own, at)
  {
    var wH, wC := Where(h, Go(d), true), Where(h, Go(d), false);
    var newH, newC := Pick(all, wH), Pick(all, wC);
    WhereSpec(h, Go(d), true);
    WhereSpec(h, Go(d), false);
    PickApart(all, wH, wC);
    Sent(x, y, d, all, h, around, own0, own, true);
    Sent(x, y, d, all, h, around, own0, own, false);
    assert at != (x, y) by {
      match d
      case North =>
      case East =>
      case South =>
      case West =>
    }
    forall j | 0 <= j < |all| ensures all[j] !in prev.herbs + prev.carns {
    }
    BirthValid(prev.herbs, prev.carns, newH, newC);
    forall k | 0 <= k < |newH| ensures newH[k].species == Herbivore {
      assert Lands(h[wH[k]], Go(d), true);
    }
    assert prev.herbs + newH + (prev.carns + newC) == (prev.herbs + newH) + (prev.carns + newC);
  }

  /** The animals `h` sends into one list of the neighbour in direction `d` came from
      `(x, y)`, now live at that neighbour, and went there because it was open. */
  lemma Sent(x: int, y: int, d: Direction, all: seq<Animal>, h: seq<Step>, around: Around,
             own0: map<Animal, (int, int)>, own: map<Animal, (int, int)>, toHerbs: bool)
    requires |h| == |all|
    requires forall j :: 0 <= j < |h| ==> (h[j].dest.Go? ==> Open(around, h[j].dest.dir))
    requires forall j :: 0 <= j < |all| ==> all[j] in own0 && own0[all[j]] == (x, y)
    requires Homes(x, y, all, own0, h, own)
    ensures forall a :: a in Pick(all, Where(h, Go(d), toHerbs)) ==>
      && a in own0 && own0[a] == (x, y) && a in own && own[a] == Neighbour(x, y, d) && Open(around, d)
    ensures !Open(around, d) ==> Where(h, Go(d), toHerbs) == []
  {
    var w := Where(h, Go(d), toHerbs);
    WhereSpec(h, Go(d), toHerbs);
    forall k | 0 <= k < |w|
      ensures var a := Pick(all, w)[k];
        a in own0 && own0[a] == (x, y) && a in own && own[a] == Neighbour(x, y, d) && Open(around, d)
    {
      assert Lands(h[w[k]], Go(d), toHerbs);
    }
    if |w| > 0 {
      assert Lands(h[w[0]], Go(d), toHerbs);
    }
  }

  /** Moving animals that do not live at `at` leaves the lists there valid. */
  lemma LodgedReowned(herbs: seq<Animal>, carns: seq<Animal>, habitable: bool, border: bool,
                      own: map<Animal, (int, int)>, own2: map<Animal, (int, int)>, at: (int, int))
    requires Lodged(herbs, carns, habitable, border, own, at)
    requires forall a :: a in own && own[a] == at ==> a in own2 && own2[a] == at
    ensures Lodged(herbs, carns, habitable, border, own2, at)
  {
  }

  /** A cell's two lists. */
  datatype Lists = Lists(herbs: seq<Animal>, carns: seq<Animal>)

  /** One `move`: the cell `(x, y)` it ran on, the steps `h` its animals took, and a
      direction `d` of interest. */
  datatype Trip = Trip(x: nat, y: nat, h: seq<Step>, d: Direction)

  /** One value for each direction. */
  datatype Compass<T> = Compass(north: T, east: T, south: T, west: T)
  {
    function At(d: Direction): T
    {
      match d
      case North => north
      case East => east
      case South => south
      case West => west
    }
  }

  /** If only the neighbour in direction `dir`, where the step `s` of `a` goes, changed, and
      by `Gain`, the neighbours are those `Received` gives. */
  lemma ReceivedOne(prev: Compass<Lists>, now: Compass<Lists>, a: Animal, s: Step, dir: Direction)
    requires s.dest == Go(dir) && now.At(dir) == Gain(prev.At(dir), a, s, dir)
    requires forall d :: d != dir ==> now.At(d) == prev.At(d)
    ensures now == Received(prev, a, s)
  {
    forall d ensures now.At(d) == Received(prev, a, s).At(d) {
      if d != dir {
        assert !Lands(s, Go(d), true) && !Lands(s, Go(d), false);
      }
    }
    SameCompass(now, Received(prev, a, s));
  }

  /**
   * The outcome of the loop of `move` on the animals `all` of `(x, y)`, whose states were
   * `bs`, whose first draw was at `pos0`, whose neighbours had the lists `start` and whose
   * animals lived by `own0`: the steps `h` are those of `Wanders`, the draws stopped at `pos`,
   * the animals are in the states `states` their steps left them in, the cell keeps `keptH`
   * and `keptC`, the neighbours have the lists `now`, and the animals live by `own`.
   */
  ghost predicate Moved(x: int, y: int, c: Constants, around: Around, u: nat -> Unit, raw: nat -> nat, pos0: nat,
                        all: seq<Animal>, bs: seq<Beast>, start: Compass<Lists>, own0: map<Animal, (int, int)>,
                        h: seq<Step>, keptH: seq<Animal>, keptC: seq<Animal>, now: Compass<Lists>,
                        own: map<Animal, (int, int)>, pos: nat, states: seq<Beast>)
  {
    && |all| == |bs| == |states|
    && h == Wanders(c, bs, around, u, raw, pos0)
    && pos == Last(h, pos0)
    && (forall j :: 0 <= j < |all| ==> states[j] == h[j].after)
    && Shared(now, start, all, h, keptH, keptC)
    && Homes(x, y, all, own0, h, own)
  }

  /** The lists `lay` of the grid after `move` on `(x, y)`: the cell keeps `keptH` and
      `keptC`, and its neighbours have the lists `now`. */
  function Relaid(lay: map<(int, int), Lists>, x: int, y: int, now: Compass<Lists>,
                  keptH: seq<Animal>, keptC: seq<Animal>): map<(int, int), Lists>
  {
    map k | k in lay ::
      if k == (x, y) then Lists(keptH, keptC)
      else if k == Neighbour(x, y, North) then now.north
      else if k == Neighbour(x, y, East) then now.east
      else if k == Neighbour(x, y, South) then now.south
      else if k == Neighbour(x, y, West) then now.west
      else lay[k]
  }

  /** Two compasses that agree in every direction are equal. */
  lemma SameCompass<T>(p: Compass<T>, q: Compass<T>)
    requires forall d :: p.At(d) == q.At(d)
    ensures p == q
  {
    assert p.At(North) == q.At(North) && p.At(East) == q.At(East);
    assert p.At(South) == q.At(South) && p.At(West) == q.At(West);
  }

  /** The draws and states of `move` after the steps `h`: the steps are those `Wanders`
      takes from the states `bs` and the draw `pos0`, the draws went up to `pos`, and the
      animals in states `states` are in their states after their steps, or untouched. */
  ghost predicate Walked(c: Constants, around: Around, u: nat -> Unit, raw: nat -> nat, pos0: nat,
                         bs: seq<Beast>, h: seq<Step>, pos: nat, states: seq<Beast>)
  {
    && |h| <= |states| == |bs|
    && Chained(c, bs, around, u, raw, pos0, h)
    && pos == Last(h, pos0)
    && (forall j :: 0 <= j < |h| ==> states[j] == h[j].after)
    && (forall j :: |h| <= j < |states| ==> states[j] == bs[j])
  }

  /** One more step of `move` keeps `Walked`. */
  lemma WalkedStep(c: Constants, around: Around, u: nat -> Unit, raw: nat -> nat, pos0: nat,
                   bs: seq<Beast>, h: seq<Step>, pos: nat, states: seq<Beast>, st: Step)
    requires Walked(c, around, u, raw, pos0, bs, h, pos, states) && |h| < |bs|
    requires st == Wander(c, bs[|h|], around, u, raw, pos)
    ensures Walked(c, around, u, raw, pos0, bs, h + [st], st.pos, states[|h| := st.after])
  {
    var k, h2, states2 := |h|, h + [st], states[|h| := st.after];
    forall j | 0 <= j < k + 1
      ensures h2[j] == Wander(c, bs[j], around, u, raw, Before(h2, j, pos0))
    {
      if j < k {
        assert h2[j] == h[j] && (j > 0 ==> h2[j - 1] == h[j - 1]);
      } else if k > 0 {
        assert h2[k - 1] == h[k - 1];
      }
    }
    forall j | 0 <= j < k + 1 ensures states2[j] == h2[j].after {
      if j < k {
        assert h2[j] == h[j];
      }
    }
  }

  /** Where the animals live after the steps `h` of `move` at `(x, y)`, by the map `own`. */
  ghost predicate Homes(x: int, y: int, all: seq<Animal>, own0: map<Animal, (int, int)>, h: seq<Step>,
                        own: map<Animal, (int, int)>)
    requires |h| <= |all|
  {
    && (forall j :: 0 <= j < |all| ==> all[j] in own && own[all[j]] == Home(x, y, if j < |h| then h[j].dest else Stay))
    && (forall a :: a in own0 && a !in all ==> a in own && own[a] == own0[a])
  }

  /** Moving the next animal of `move` to where its step takes it keeps `Homes`. */
  lemma HomesStep(x: int, y: int, all: seq<Animal>, own0: map<Animal, (int, int)>, h: seq<Step>,
                  own: map<Animal, (int, int)>, st: Step)
    requires Distinct(all) && |h| < |all| && Homes(x, y, all, own0, h, own)
    ensures Homes(x, y, all, own0, h + [st], own[all[|h|] := Home(x, y, st.dest)])
  {
    forall j | 0 <= j < |all| && j != |h| ensures all[j] != all[|h|] {
    }
  }

  /** The lists of the neighbours after the step `s` of the animal `a`: each neighbour,
      whose lists were `prev`, has `a` appended to the list `s` puts it in, if any. */
  function Received(prev: Compass<Lists>, a: Animal, s: Step): (r: Compass<Lists>)
    ensures forall d :: r.At(d) == Gain(prev.At(d), a, s, d)
  {
    Compass(Gain(prev.north, a, s, North), Gain(prev.east, a, s, East),
            Gain(prev.south, a, s, South), Gain(prev.west, a, s, West))
  }

  /** The lists `l` of the neighbour in direction `d` after the step `s` of `a`. */
  function Gain(l: Lists, a: Animal, s: Step, d: Direction): Lists
  {
    Lists(l.herbs + (if Lands(s, Go(d), true) then [a] else []),
          l.carns + (if Lands(s, Go(d), false) then [a] else []))
  }

  /** The lists `now` of the neighbour in direction `d` are those of `start`, followed by
      the animals of `all` that `steps` send there, in list order. */
  ghost predicate Spread(now: Lists, start: Lists, all: seq<Animal>, steps: seq<Step>, d: Direction)
    requires |steps| <= |all|
  {
    && now.herbs == start.herbs + Pick(all, Where(steps, Go(d), true))
    && now.carns == start.carns + Pick(all, Where(steps, Go(d), false))
  }

  /** The lists of `move` after the steps `h`: the animals kept back so far, and the
      neighbours' lists `now`, which were `start`. */
  ghost predicate Shared(now: Compass<Lists>, start: Compass<Lists>, all: seq<Animal>, h: seq<Step>,
                         stayH: seq<Animal>, stayC: seq<Animal>)
    requires |h| <= |all|
  {
    && stayH == Pick(all, Where(h, Stay, true)) && stayC == Pick(all, Where(h, Stay, false))
    && Spread(now.north, start.north, all, h, North) && Spread(now.east, start.east, all, h, East)
    && Spread(now.south, start.south, all, h, South) && Spread(now.west, start.west, all, h, West)
  }

  /** `Shared` in the terms of one direction. */
  lemma SharedAt(now: Compass<Lists>, start: Compass<Lists>, all: seq<Animal>, h: seq<Step>,
                 stayH: seq<Animal>, stayC: seq<Animal>, d: Direction)
    requires |h| <= |all| && Shared(now, start, all, h, stayH, stayC)
    ensures Spread(now.At(d), start.At(d), all, h, d)
  {
    match d
    case North =>
    case East =>
    case South =>
    case West =>
  }

  /** `Spread` one step further. */
  lemma {:induction false} SpreadStep(now: Lists, start: Lists, all: seq<Animal>, steps: seq<Step>,
                                      d: Direction, s: Step)
    requires |steps| < |all| && Spread(now, start, all, steps, d)
    ensures Spread(Gain(now, all[|steps|], s, d), start, all, steps + [s], d)
  {
    var l := Gain(now, all[|steps|], s, d);
    PickStep(l.herbs, now.herbs, start.herbs, all, steps, s, Go(d), true);
    PickStep(l.carns, now.carns, start.carns, all, steps, s, Go(d), false);
  }

  /** One more step of `move`, the animal kept back or sent to a neighbour, keeps `Shared`. */
  lemma {:induction false} SharedStep(now: Compass<Lists>, start: Compass<Lists>, all: seq<Animal>,
                                      h: seq<Step>, stayH: seq<Animal>, stayC: seq<Animal>, s: Step,
                                      keptH: seq<Animal>, keptC: seq<Animal>)
    requires |h| < |all| && Shared(now, start, all, h, stayH, stayC)
    requires keptH == stayH + (if Lands(s, Stay, true) then [all[|h|]] else [])
    requires keptC == stayC + (if Lands(s, Stay, false) then [all[|h|]] else [])
    ensures Shared(Received(now, all[|h|], s), start, all, h + [s], keptH, keptC)
  {
    PickStep(keptH, stayH, [], all, h, s, Stay, true);
    PickStep(keptC, stayC, [], all, h, s, Stay, false);
    var a := all[|h|];
    SpreadStep(now.north, start.north, all, h, North, s);
    SpreadStep(now.east, start.east, all, h, East, s);
    SpreadStep(now.south, start.south, all, h, South, s);
    SpreadStep(now.west, start.west, all, h, West, s);
  }

  /** `Where` one step at a time. */
  lemma WhereSnoc(steps: seq<Step>, s: Step, dest: Dest, toHerbs: bool)
    ensures Where(steps + [s], dest, toHerbs)
      == Where(steps, dest, toHerbs) + if Lands(s, dest, toHerbs) then [|steps|] else []
  {
    assert (steps + [s])[..|steps|] == steps;
  }

  /** One more step of `move`: the list that had the animals `steps` sent to it gets the
      next animal if its step `s` sends it there too. */
  lemma PickStep(now: seq<Animal>, before: seq<Animal>, base: seq<Animal>, all: seq<Animal>,
                 steps: seq<Step>, s: Step, dest: Dest, toHerbs: bool)
    requires |steps| < |all|
    requires before == base + Pick(all, Where(steps, dest, toHerbs))
    requires now == before + if Lands(s, dest, toHerbs) then [all[|steps|]] else []
    ensures now == base + Pick(all, Where(steps + [s], dest, toHerbs))
  {
    WhereSnoc(steps, s, dest, toHerbs);
    if Lands(s, dest, toHerbs) {
      PickSnoc(all, Where(steps, dest, toHerbs), |steps|);
    }
  }
}
