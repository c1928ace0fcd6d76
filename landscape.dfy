/**
 * The cells of biosim/landscape.py. A cell owns a list of herbivores, a list of carnivores
 * and an amount of food, and runs the phases of the year over them: sorting by fitness,
 * feeding, birth, ageing, weight loss, culling and the reset of the migration flag.
 *
 * Each phase is a method of `Cell` whose postcondition ties the new lists, the new food
 * and the new state of every animal to a pure function of the old ones and of the random
 * stream; what the source promises about a phase is proved of that function.
 */
module Landscape {
  import opened Util
  import opened RandomSource
  import opened Animals
  import opened Sorting

  datatype Terrain = Jungle | Savannah | Desert | Mountain | Ocean

  /** `Mountain` and `Ocean` cells set `habitable = False`; the others keep `True`. */
  predicate Habitable(t: Terrain)
  {
    t != Mountain && t != Ocean
  }

  // ---------------------------------------------------------------------------
  // Landscape class attributes
  // ---------------------------------------------------------------------------

  /** The two names `set_parameters` accepts. */
  datatype LandParam = FMax | Alpha

  function LandKey(p: LandParam): string
  {
    match p
    case FMax => "f_max"
    case Alpha => "alpha"
  }

  function LandParamNamed(key: string): (r: Option<LandParam>)
    ensures r.Some? ==> LandKey(r.value) == key
    ensures r.None? ==> key != "f_max" && key != "alpha"
  {
    if key == "f_max" then Some(FMax) else if key == "alpha" then Some(Alpha) else None
  }

  /** `param_landscape_limits`: `f_max` in (0, infinity), `alpha` in (0, 1). */
  predicate LandWithin(p: LandParam, v: real)
  {
    0.0 < v && (p == Alpha ==> v < 1.0)
  }

  /** The class attributes `f_max` and `alpha` of one landscape class; None where the class
      has no such attribute. */
  datatype LandParams = LandParams(fMax: Option<real>, alpha: Option<real>)

  /** `Jungle.f_max = 800`, `Savannah.f_max = 300`, `Savannah.alpha = 0.3`. */
  function LandDefaults(t: Terrain): LandParams
  {
    match t
    case Jungle => LandParams(Some(800.0), None)
    case Savannah => LandParams(Some(300.0), Some(0.3))
    case _ => LandParams(None, None)
  }

  predicate ValidLand(lp: LandParams)
  {
    (lp.fMax.Some? ==> LandWithin(FMax, lp.fMax.value)) &&
    (lp.alpha.Some? ==> LandWithin(Alpha, lp.alpha.value))
  }

  function LandAssign(lp: LandParams, p: LandParam, v: real): LandParams
  {
    match p
    case FMax => lp.(fMax := Some(v))
    case Alpha => lp.(alpha := Some(v))
  }

  /** The batch with its keys resolved, or the first key that is neither name. */
  datatype LandResolution = LandKnown(writes: seq<(LandParam, real)>) | LandUnknown(key: string)

  function LandResolve(batch: seq<(string, real)>): (r: LandResolution)
    ensures r.LandUnknown? ==> exists i :: 0 <= i < |batch| && batch[i].0 == r.key && LandParamNamed(r.key).None?
    ensures r.LandKnown? ==> |r.writes| == |batch|
    ensures r.LandKnown? ==>
      forall i :: 0 <= i < |batch| ==> LandKey(r.writes[i].0) == batch[i].0 && r.writes[i].1 == batch[i].1
    decreases |batch|
  {
    if batch == [] then LandKnown([])
    else match LandParamNamed(batch[0].0)
      case None => LandUnknown(batch[0].0)
      case Some(p) =>
        match LandResolve(batch[1..])
        case LandUnknown(k) => LandUnknown(k)
        case LandKnown(w) => LandKnown([(p, batch[0].1)] + w)
  }

  /** The reported key is the first one that is neither `f_max` nor `alpha`. */
  lemma {:induction false} LandResolveStopsAt(batch: seq<(string, real)>, i: nat)
    requires i < |batch| && LandParamNamed(batch[i].0).None?
    requires forall k :: 0 <= k < i ==> LandParamNamed(batch[k].0).Some?
    ensures LandResolve(batch) == LandUnknown(batch[i].0)
    decreases i
  {
    if i > 0 {
      LandResolveStopsAt(batch[1..], i - 1);
    }
  }

  /** How many writes happen before the first value outside its limits. */
  function LandValidPrefix(writes: seq<(LandParam, real)>): (n: nat)
    ensures n <= |writes|
    ensures forall i :: 0 <= i < n ==> LandWithin(writes[i].0, writes[i].1)
    ensures n < |writes| ==> !LandWithin(writes[n].0, writes[n].1)
  {
    if writes == [] || !LandWithin(writes[0].0, writes[0].1) then 0
    else 1 + LandValidPrefix(writes[1..])
  }

  lemma {:induction false} LandValidPrefixAt(writes: seq<(LandParam, real)>, n: nat)
    requires n <= |writes|
    requires forall k :: 0 <= k < n ==> LandWithin(writes[k].0, writes[k].1)
    requires n < |writes| ==> !LandWithin(writes[n].0, writes[n].1)
    ensures LandValidPrefix(writes) == n
    decreases n
  {
    if n > 0 {
      LandValidPrefixAt(writes[1..], n - 1);
    }
  }

  /** The writes in order, the last write of a name winning. */
  function LandApply(lp: LandParams, writes: seq<(LandParam, real)>): LandParams
    decreases |writes|
  {
    if writes == [] then lp
    else LandApply(LandAssign(lp, writes[0].0, writes[0].1), writes[1..])
  }

  /** Writes within the limits keep the attributes within the limits, and an `alpha` once
      present stays present. */
  lemma {:induction false} LandApplyKeepsValid(lp: LandParams, writes: seq<(LandParam, real)>)
    requires ValidLand(lp)
    requires forall i :: 0 <= i < |writes| ==> LandWithin(writes[i].0, writes[i].1)
    ensures ValidLand(LandApply(lp, writes))
    ensures lp.alpha.Some? ==> LandApply(lp, writes).alpha.Some?
    decreases |writes|
  {
    if writes != [] {
      LandApplyKeepsValid(LandAssign(lp, writes[0].0, writes[0].1), writes[1..]);
    }
  }

  /** A name the batch does not write keeps its value. */
  lemma {:induction false} LandApplyUntouched(lp: LandParams, writes: seq<(LandParam, real)>)
    ensures (forall i :: 0 <= i < |writes| ==> writes[i].0 != FMax) ==> LandApply(lp, writes).fMax == lp.fMax
    ensures (forall i :: 0 <= i < |writes| ==> writes[i].0 != Alpha) ==> LandApply(lp, writes).alpha == lp.alpha
    decreases |writes|
  {
    if writes != [] {
      LandApplyUntouched(LandAssign(lp, writes[0].0, writes[0].1), writes[1..]);
      assert forall i :: 1 <= i < |writes| ==> writes[1..][i - 1] == writes[i];
    }
  }

  lemma {:induction false} LandApplySnoc(lp: LandParams, writes: seq<(LandParam, real)>, n: nat)
    requires n < |writes|
    ensures LandApply(lp, writes[..n + 1]) == LandAssign(LandApply(lp, writes[..n]), writes[n].0, writes[n].1)
    decreases n
  {
    if n > 0 {
      assert writes[..n + 1][1..] == writes[1..][..n];
      assert writes[..n][1..] == writes[1..][..n - 1];
      LandApplySnoc(LandAssign(lp, writes[0].0, writes[0].1), writes[1..], n - 1);
    } else {
      assert writes[..1][1..] == [];
    }
  }

  /** The class attributes of every landscape class. `Savannah.alpha` is the only one a cell
      ever reads: every cell hides `f_max` behind its own instance attribute. */
  class TerrainParameters {
    var table: map<Terrain, LandParams>

    ghost predicate Valid()
      reads this
    {
      (forall t :: t in table && ValidLand(table[t])) && table[Savannah].alpha.Some?
    }

    constructor ()
      ensures Valid()
      ensures forall t :: t in table && table[t] == LandDefaults(t)
    {
      table := map[Jungle := LandDefaults(Jungle), Savannah := LandDefaults(Savannah),
                   Desert := LandDefaults(Desert), Mountain := LandDefaults(Mountain),
                   Ocean := LandDefaults(Ocean)];
      new;
      forall t ensures t in table && table[t] == LandDefaults(t) {
        match t
        case Jungle =>
        case Savannah =>
        case Desert =>
        case Mountain =>
        case Ocean =>
      }
    }

    /**
     * `Jungle.set_parameters(batch)` and its siblings: every key is checked before any
     * write, then the values are written in order until the first one outside its limits.
     */
    method SetParameters(terrain: Terrain, batch: seq<(string, real)>) returns (err: Option<ConfigError>)
      requires Valid()
      modifies this
      ensures Valid()
      ensures LandResolve(batch).LandUnknown? ==>
        err == Some(KeyError(LandResolve(batch).key)) && table == old(table)
      ensures LandResolve(batch).LandKnown? ==>
        var w := LandResolve(batch).writes;
        var n := LandValidPrefix(w);
        && err == (if n < |w| then Some(ValueError) else None)
        && table == old(table)[terrain := LandApply(old(table[terrain]), w[..n])]
    {
      match LandResolve(batch)
      case LandUnknown(key) =>
        err := Some(KeyError(key));
      case LandKnown(w) =>
        err := ApplyWrites(terrain, w);
    }

    /** The second loop of `set_parameters`: writes in order, stopping with a `ValueError`
        at the first value outside its limits; earlier writes stay. */
    method ApplyWrites(terrain: Terrain, w: seq<(LandParam, real)>) returns (err: Option<ConfigError>)
      requires Valid()
      modifies this
      ensures Valid()
      ensures var n := LandValidPrefix(w);
        && err == (if n < |w| then Some(ValueError) else None)
        && table == old(table)[terrain := LandApply(old(table[terrain]), w[..n])]
    {
      var lp := table[terrain];
      ghost var lp0 := lp;
      var n := 0;
      while n < |w| && LandWithin(w[n].0, w[n].1)
        modifies {}
        invariant 0 <= n <= |w|
        invariant forall k :: 0 <= k < n ==> LandWithin(w[k].0, w[k].1)
        invariant lp == LandApply(lp0, w[..n])
      {
        LandApplySnoc(lp0, w, n);
        lp := LandAssign(lp, w[n].0, w[n].1);
        n := n + 1;
      }
      LandValidPrefixAt(w, n);
      LandApplyKeepsValid(lp0, w[..n]);
      table := table[terrain := lp];
      err := if n < |w| then Some(ValueError) else None;
    }
  }

  // ---------------------------------------------------------------------------
  // Phases of a cell, as functions of the animals' states
  // ---------------------------------------------------------------------------

  /** An animal's state after `fitness()`. */
  function Refreshed(c: Constants, b: Beast): (r: Beast)
  {
    b.(phi := CachedFitness(c.For(b.species), c.logistic, b.age, b.weight, b.phi))
  }

  /** `regrow()`: the food moves the fraction `alpha` of the way towards `f_max`. */
  function Regrown(food: real, fMax: real, alpha: real): (r: real)
  {
    food + alpha * (fMax - food)
  }

  /** With food in [0, f_max], regrowth stays within [food, f_max]; at `f_max` it is a fixed point. */
  lemma RegrowBounds(food: real, fMax: real, alpha: real)
    requires 0.0 <= food <= fMax && 0.0 < alpha < 1.0
    ensures food <= Regrown(food, fMax, alpha) <= fMax
    ensures food == fMax ==> Regrown(food, fMax, alpha) == fMax
  {
    var gap := fMax - food;
    ScaleWithin(alpha, gap);
    assert Regrown(food, fMax, alpha) == food + alpha * gap;
  }

  lemma ScaleWithin(alpha: real, gap: real)
    requires 0.0 < alpha < 1.0 && gap >= 0.0
    ensures 0.0 <= alpha * gap <= gap
  {
    assert gap - alpha * gap == (1.0 - alpha) * gap;
  }

  /** Food after the not-walked herbivores, flagged in `grazers`, have eaten in turn. */
  function FoodAfter(food: real, grazers: seq<bool>, appetite: real): real
    requires appetite > 0.0
    decreases |grazers|
  {
    if grazers == [] then food
    else
      var before := FoodAfter(food, grazers[..|grazers| - 1], appetite);
      if grazers[|grazers| - 1] then GrazeLeft(before, appetite) else before
  }

  /** Grazing never makes food negative and never adds any: food decreases along the pass. */
  lemma {:induction false} FoodAfterBounds(food: real, grazers: seq<bool>, appetite: real, i: nat)
    requires appetite > 0.0 && food >= 0.0 && i <= |grazers|
    ensures 0.0 <= FoodAfter(food, grazers, appetite) <= FoodAfter(food, grazers[..i], appetite) <= food
    decreases |grazers|
  {
    if i < |grazers| {
      var init := grazers[..|grazers| - 1];
      assert init[..i] == grazers[..i];
      FoodAfterBounds(food, init, appetite, i);
    } else {
      assert grazers[..i] == grazers;
      if grazers != [] {
        var init := grazers[..|grazers| - 1];
        FoodAfterBounds(food, init, appetite, |init|);
        assert init[..|init|] == init;
      }
    }
  }

  /** With no food in the cell, every grazer finds none: each gains the full appetite. */
  lemma {:induction false} FoodAfterEmpty(grazers: seq<bool>, appetite: real)
    requires appetite > 0.0
    ensures FoodAfter(0.0, grazers, appetite) == 0.0
    decreases |grazers|
  {
    if grazers != [] {
      FoodAfterEmpty(grazers[..|grazers| - 1], appetite);
    }
  }

  // ---------------------------------------------------------------------------
  // Sorting by fitness
  // ---------------------------------------------------------------------------

  /** The states of the animals of `s`, in order. */
  ghost function States(s: seq<Animal>): (r: seq<Beast>)
    reads s
    ensures |r| == |s| && forall k :: 0 <= k < |s| ==> r[k] == s[k].State()
  {
    seq(|s|, k requires 0 <= k < |s| reads s => s[k].State())
  }

  lemma StatesSplit(a: seq<Animal>, b: seq<Animal>)
    ensures States(a + b) == States(a) + States(b)
  {
  }

  /** Every state of `bs` will have a cached fitness after `fitness()`. */
  predicate Rankable(bs: seq<Beast>)
  {
    forall k :: 0 <= k < |bs| ==> bs[k].weight > 0.0 || bs[k].phi.Some?
  }

  /** Every state of `bs` has a cached fitness. */
  predicate Cached(bs: seq<Beast>)
  {
    forall k :: 0 <= k < |bs| ==> bs[k].phi.Some?
  }

  /** The states after `fitness()` on each animal. */
  function Refreshes(c: Constants, bs: seq<Beast>): (r: seq<Beast>)
    ensures |r| == |bs| && forall k :: 0 <= k < |bs| ==> r[k] == Refreshed(c, bs[k])
    ensures Rankable(bs) ==> Cached(r)
  {
    seq(|bs|, k requires 0 <= k < |bs| => Refreshed(c, bs[k]))
  }

  /** An animal after `set_not_walked_true()`: free to migrate again. */
  function Freed(b: Beast): (r: Beast)
  {
    b.(notWalked := true)
  }

  /** The states after `set_not_walked_true()` on each animal. */
  function Frees(bs: seq<Beast>): (r: seq<Beast>)
    ensures |r| == |bs| && forall k :: 0 <= k < |bs| ==> r[k] == Freed(bs[k])
  {
    seq(|bs|, k requires 0 <= k < |bs| => Freed(bs[k]))
  }

  /** What the second pass of `cell_cycle` makes of the states `bs` before `survive()`:
      each is freed to migrate, one year older and slimmer. */
  function Unwound(c: Constants, bs: seq<Beast>): (r: seq<Beast>)
  {
    Slims(c, Olders(Frees(bs)))
  }

  /** The states before `survive()` are every animal's free to migrate, of positive weight
      when it was, and of the same species; and the unwinding of two lists is that of each. */
  lemma UnwoundSpec(c: Constants, a: seq<Beast>, b: seq<Beast>)
    ensures |Unwound(c, a)| == |a|
    ensures forall k :: 0 <= k < |a| ==>
      && Unwound(c, a)[k].notWalked && Unwound(c, a)[k].species == a[k].species
      && Unwound(c, a)[k].age == a[k].age + 1
    ensures Unwound(c, a + b) == Unwound(c, a) + Unwound(c, b)
  {
    assert forall k :: 0 <= k < |a| ==> Unwound(c, a)[k] == Slimmed(c, Older(Freed(a[k])));
    var l, r := Unwound(c, a + b), Unwound(c, a) + Unwound(c, b);
    assert |l| == |r|;
    forall k | 0 <= k < |l| ensures l[k] == r[k] {
      if k < |a| {
        assert (a + b)[k] == a[k];
      } else {
        assert (a + b)[k] == b[k - |a|];
      }
    }
  }

  /** An animal after `aging()`: one year older. */
  function Older(b: Beast): (r: Beast)
  {
    b.(age := b.age + 1)
  }

  /** The states after `aging()` on each animal. */
  function Olders(bs: seq<Beast>): (r: seq<Beast>)
    ensures |r| == |bs| && forall k :: 0 <= k < |bs| ==> r[k] == Older(bs[k])
  {
    seq(|bs|, k requires 0 <= k < |bs| => Older(bs[k]))
  }

  /** An animal after `loose_weight()`: it has lost the fraction `eta` of its species. */
  function Slimmed(c: Constants, b: Beast): (r: Beast)
  {
    b.(weight := b.weight - c.For(b.species).eta * b.weight)
  }

  /** With a loss fraction strictly between 0 and 1, `loose_weight()` leaves a positive weight
      positive and strictly smaller, and changes nothing but the weight. */
  lemma SlimmedBounds(c: Constants, b: Beast)
    requires 0.0 < c.For(b.species).eta < 1.0 && b.weight > 0.0
    ensures 0.0 < Slimmed(c, b).weight < b.weight
    ensures Slimmed(c, b) == b.(weight := Slimmed(c, b).weight)
  {
    Shrinks(c.For(b.species).eta, b.weight, Slimmed(c, b).weight);
  }

  /** Taking away a fraction `eta` strictly between 0 and 1 of a positive amount `w` leaves
      a positive amount `left`, strictly smaller than `w`. */
  lemma Shrinks(eta: real, w: real, left: real)
    requires 0.0 < eta < 1.0 && w > 0.0 && left == w - eta * w
    ensures 0.0 < left < w
  {
    assert left == (1.0 - eta) * w;
    assert (1.0 - eta) * w > 0.0;
  }

  /** The states after `loose_weight()` on each animal. */
  function Slims(c: Constants, bs: seq<Beast>): (r: seq<Beast>)
    ensures |r| == |bs| && forall k :: 0 <= k < |bs| ==> r[k] == Slimmed(c, bs[k])
  {
    seq(|bs|, k requires 0 <= k < |bs| => Slimmed(c, bs[k]))
  }

  /** The cached fitnesses of the states `bs`, in order. */
  function PhiValues(bs: seq<Beast>): (r: seq<real>)
    requires Cached(bs)
    ensures |r| == |bs| && forall k :: 0 <= k < |bs| ==> bs[k].phi == Some(r[k])
  {
    seq(|bs|, k requires 0 <= k < |bs| && Cached(bs) => bs[k].phi.value)
  }

  /** Every animal of `s` has a cached fitness. */
  ghost predicate AllCached(s: seq<Animal>)
    reads s
  {
    forall k :: 0 <= k < |s| ==> s[k].phi.Some?
  }

  /** The cached fitnesses of the animals of `s`, in order: the key `sort_fitness` sorts by. */
  function Phis(s: seq<Animal>): (r: seq<real>)
    reads s
    requires AllCached(s)
    ensures |r| == |s| && forall k :: 0 <= k < |s| ==> s[k].phi == Some(r[k])
  {
    seq(|s|, k requires 0 <= k < |s| && s[k].phi.Some? reads s => s[k].phi.value)
  }

  /** Each animal paired with its sort key. */
  function Zip(s: seq<Animal>, keys: seq<real>): (r: seq<(Animal, real)>)
    requires |keys| == |s|
    ensures |r| == |s| && forall k :: 0 <= k < |s| ==> r[k] == (s[k], keys[k])
  {
    seq(|s|, k requires 0 <= k < |s| => (s[k], keys[k]))
  }

  /** `s.sort(key=..., reverse=True)` where the key of `s[k]` is `keys[k]`. */
  function Ranked(s: seq<Animal>, keys: seq<real>): (r: seq<Animal>)
    requires |keys| == |s|
  {
    Firsts(SortDesc(Zip(s, keys)))
  }

  /** The sorted list holds the same animals, and animals with equal keys keep their
      relative order. */
  lemma RankedSpec(s: seq<Animal>, keys: seq<real>)
    requires |keys| == |s|
    ensures multiset(Ranked(s, keys)) == multiset(s)
    ensures forall v :: Firsts(WithKey(SortDesc(Zip(s, keys)), v)) == Firsts(WithKey(Zip(s, keys), v))
  {
    var t := Zip(s, keys);
    SortDescFirsts(t);
    assert Firsts(t) == s;
    forall v ensures Firsts(WithKey(SortDesc(t), v)) == Firsts(WithKey(t, v)) {
      SortDescStable(t, v);
    }
  }

  /** Sorting both lists keeps them duplicate-free and the herbivore list herbivores only. */
  lemma SortKeepsValid(h: seq<Animal>, hk: seq<real>, cs: seq<Animal>, ck: seq<real>)
    requires |hk| == |h| && |ck| == |cs|
    requires Distinct(h + cs) && forall k :: 0 <= k < |h| ==> h[k].species == Herbivore
    ensures Distinct(Ranked(h, hk) + Ranked(cs, ck))
    ensures forall k :: 0 <= k < |Ranked(h, hk)| ==> Ranked(h, hk)[k].species == Herbivore
  {
    RankedSpec(h, hk);
    RankedSpec(cs, ck);
    var h', cs' := Ranked(h, hk), Ranked(cs, ck);
    assert multiset(h' + cs') == multiset(h + cs);
    DistinctSubMultiset(h' + cs', h + cs);
    forall k | 0 <= k < |h'| ensures h'[k].species == Herbivore {
      assert h'[k] in multiset(h);
    }
  }

  /** An animal together with its state. */
  type Entry = (Animal, Beast)

  /** Each animal with its state, keyed by the state's cached fitness. */
  function Entries(s: seq<Animal>, bs: seq<Beast>): (r: seq<(Entry, real)>)
    requires |bs| == |s| && Cached(bs)
    ensures |r| == |s| && forall k :: 0 <= k < |s| ==> r[k] == ((s[k], bs[k]), bs[k].phi.value)
  {
    seq(|s|, k requires 0 <= k < |s| && Cached(bs) => ((s[k], bs[k]), bs[k].phi.value))
  }

  /** The animals and states of `s` sorted fittest first, as `sort_fitness` leaves them after
      refreshing states `pre` of the animals `s`. */
  function FitnessOrder(c: Constants, s: seq<Animal>, pre: seq<Beast>): (r: seq<(Entry, real)>)
    requires |pre| == |s| && Rankable(pre)
    ensures |r| == |s| && Cached(BeastsOf(r))
  {
    FitnessOrderSpec(s, Refreshes(c, pre));
    SortDesc(Entries(s, Refreshes(c, pre)))
  }

  function AnimalsOf(e: seq<(Entry, real)>): (r: seq<Animal>)
    ensures |r| == |e| && forall k :: 0 <= k < |e| ==> r[k] == e[k].0.0
  {
    seq(|e|, k requires 0 <= k < |e| => e[k].0.0)
  }

  function BeastsOf(e: seq<(Entry, real)>): (r: seq<Beast>)
    ensures |r| == |e| && forall k :: 0 <= k < |e| ==> r[k] == e[k].0.1
  {
    seq(|e|, k requires 0 <= k < |e| => e[k].0.1)
  }

  function AnimalOf(x: Entry): Animal
  {
    x.0
  }

  /**
   * What sorting by fitness means: the sorted list is a rearrangement of the (animal, state)
   * pairs, in which every animal keeps its own state; the cached fitnesses descend along
   * it; and pairs of equal fitness keep their input order.
   */
  lemma FitnessOrderSpec(s: seq<Animal>, bs: seq<Beast>)
    requires |bs| == |s| && Cached(bs)
    ensures var e := SortDesc(Entries(s, bs));
      && multiset(Firsts(e)) == multiset(Firsts(Entries(s, bs)))
      && multiset(AnimalsOf(e)) == multiset(s)
      && Cached(BeastsOf(e))
      && (forall i, j :: 0 <= i < j < |e| ==> BeastsOf(e)[i].phi.value >= BeastsOf(e)[j].phi.value)
      && forall v :: Firsts(WithKey(e, v)) == Firsts(WithKey(Entries(s, bs), v))
  {
    var t := Entries(s, bs);
    var e := SortDesc(t);
    SortDescFirsts(t);
    SortDescPermutes(t);
    SortDescSorted(t);
    forall v ensures Firsts(WithKey(e, v)) == Firsts(WithKey(t, v)) {
      SortDescStable(t, v);
    }
    forall i | 0 <= i < |e| ensures e[i].0.1.phi == Some(e[i].1) {
      assert e[i] in multiset(t);
    }
    SortDescMap(AnimalOf, t);
    SortDescFirsts(MapFirst(AnimalOf, t));
    assert Firsts(MapFirst(AnimalOf, e)) == AnimalsOf(e);
    assert Firsts(MapFirst(AnimalOf, t)) == s;
  }

  /** The compiled sort of the animals by their cached fitness picks the same order as the
      sort of (animal, state) pairs, and then every animal carries its own state. */
  lemma RankedEntries(s: seq<Animal>, bs: seq<Beast>)
    requires |bs| == |s| && Cached(bs)
    ensures Ranked(s, PhiValues(bs)) == AnimalsOf(SortDesc(Entries(s, bs)))
  {
    var t := Entries(s, bs);
    assert MapFirst(AnimalOf, t) == Zip(s, PhiValues(bs));
    SortDescMap(AnimalOf, t);
    assert Firsts(MapFirst(AnimalOf, SortDesc(t))) == AnimalsOf(SortDesc(t));
  }

  /** When the animals of `s` are in states `bs`, after sorting each is still in its own. */
  lemma SortedStates(s: seq<Animal>, bs: seq<Beast>)
    requires |bs| == |s| && Cached(bs) && States(s) == bs
    ensures var e := SortDesc(Entries(s, bs)); States(AnimalsOf(e)) == BeastsOf(e)
  {
    var t := Entries(s, bs);
    var e := SortDesc(t);
    SortDescPermutes(t);
    forall i | 0 <= i < |e| ensures e[i].0.0.State() == e[i].0.1 {
      assert e[i] in multiset(t);
      var m :| 0 <= m < |t| && t[m] == e[i];
    }
  }

  /** The `not_walked` flags of a list of animal states, in order. */
  function NotWalked(bs: seq<Beast>): (r: seq<bool>)
    ensures |r| == |bs| && forall k :: 0 <= k < |bs| ==> r[k] == bs[k].notWalked
  {
    seq(|bs|, k requires 0 <= k < |bs| => bs[k].notWalked)
  }

  /** A herbivore's state after its turn at `food`: only a not-walked one eats. */
  function Grazed(c: Constants, b: Beast, food: real): Beast
    requires c.herbivore.F > 0.0
  {
    if b.notWalked then b.(weight := b.weight + c.herbivore.beta * GrazeGain(food, c.herbivore.F)) else b
  }

  /** The herbivores' states after they have grazed in list order from `food`. */
  function GrazeStates(c: Constants, food: real, bs: seq<Beast>): (r: seq<Beast>)
    requires c.herbivore.F > 0.0
    ensures |r| == |bs|
    ensures forall k :: 0 <= k < |bs| ==> r[k] == bs[k].(weight := r[k].weight)
    ensures forall k :: 0 <= k < |bs| ==> !bs[k].notWalked ==> r[k] == bs[k]
  {
    seq(|bs|, k requires 0 <= k < |bs| => Grazed(c, bs[k], FoodAfter(food, NotWalked(bs)[..k], c.herbivore.F)))
  }

  /** The per-animal outcome of the grazing loop, collected into one list of states. */
  lemma GrazeStatesOf(c: Constants, food: real, hs: seq<Animal>, pre: seq<Beast>)
    requires c.herbivore.F > 0.0 && |pre| == |hs|
    requires forall k :: 0 <= k < |hs| ==>
      hs[k].State() == Grazed(c, pre[k], FoodAfter(food, NotWalked(pre)[..k], c.herbivore.F))
    ensures States(hs) == GrazeStates(c, food, pre)
  {
  }

  /** A cell without fodder (as every jungle is, its `f_max` being 0): each herbivore that has
      not walked gains `beta` times its full appetite, and the fodder stays at 0. */
  lemma GrazeBarren(c: Constants, bs: seq<Beast>)
    requires c.herbivore.F > 0.0
    ensures FoodAfter(0.0, NotWalked(bs), c.herbivore.F) == 0.0
    ensures var r := GrazeStates(c, 0.0, bs);
      forall k :: 0 <= k < |bs| ==> bs[k].notWalked ==>
        r[k].weight == bs[k].weight + c.herbivore.beta * c.herbivore.F
  {
    FoodAfterEmpty(NotWalked(bs), c.herbivore.F);
    forall k | 0 <= k < |bs| {
      FoodAfterEmpty(NotWalked(bs)[..k], c.herbivore.F);
    }
  }

  // ---------------------------------------------------------------------------
  // Carnivore feeding
  // ---------------------------------------------------------------------------

  /** The positions 0, 1, ..., n - 1. */
  function Indices(n: nat): (r: seq<nat>)
    ensures |r| == n && forall k :: 0 <= k < n ==> r[k] == k
  {
    seq(n, k requires 0 <= k < n => k)
  }

  /** The elements of `s` at the positions `idx`, in that order. */
  function Pick<T>(s: seq<T>, idx: seq<nat>): (r: seq<T>)
    requires forall k :: 0 <= k < |idx| ==> idx[k] < |s|
    ensures |r| == |idx| && forall k :: 0 <= k < |idx| ==> r[k] == s[idx[k]]
  {
    seq(|idx|, k requires 0 <= k < |idx| && idx[k] < |s| => s[idx[k]])
  }

  /** Whatever is picked from `s` is an element of `s`. */
  lemma PickWithin<T>(s: seq<T>, idx: seq<nat>)
    requires forall k :: 0 <= k < |idx| ==> idx[k] < |s|
    ensures forall x :: x in Pick(s, idx) ==> x in s
  {
  }

  lemma PickSnoc<T>(s: seq<T>, idx: seq<nat>, j: nat)
    requires (forall k :: 0 <= k < |idx| ==> idx[k] < |s|) && j < |s|
    ensures Pick(s, idx + [j]) == Pick(s, idx) + [s[j]]
  {
  }

  /** Every position in `idx` is a position of a herbivore with a cached fitness. */
  predicate Huntable(idx: seq<nat>, prey: seq<Beast>)
  {
    forall k :: 0 <= k < |idx| ==> idx[k] < |prey| && prey[idx[k]].phi.Some?
  }

  /** `kill(phi_herb)` with draw `draw`: the draw falls below the kill probability. */
  predicate Kills(c: Constants, carn: Beast, herb: Beast, draw: real)
    requires KillReady(c.carnivore) && carn.phi.Some? && herb.phi.Some?
  {
    draw < KillProbability(carn.phi.value, herb.phi.value, c.carnivore.deltaPhiMax.value)
  }

  /** The carnivore after `carn_eating(herb.w, eat)` and `fitness()`: it keeps a cached
      fitness. */
  function Feast(c: Constants, carn: Beast, herb: Beast, eat: real): (r: Beast)
    requires carn.phi.Some?
    ensures r.phi.Some? && r.species == carn.species && r.age == carn.age && r.notWalked == carn.notWalked
  {
    Refreshed(c, carn.(weight := carn.weight + c.carnivore.beta * MealEaten(herb.weight, eat)))
  }

  /** `Feast` is the carnivore fed by `carn_eating`, then refreshed by `fitness()`. */
  lemma FedFeast(c: Constants, carn: Beast, herb: Beast, eat: real, fed: Beast)
    requires carn.phi.Some?
    requires fed == carn.(weight := carn.weight + c.carnivore.beta * MealEaten(herb.weight, eat))
    ensures Feast(c, carn, herb, eat) == Refreshed(c, fed)
  {
    assert Feast(c, carn, herb, eat) == Refreshed(c, carn.(weight := carn.weight + c.carnivore.beta * MealEaten(herb.weight, eat)));
  }

  /** One carnivore's hunt: the carnivore afterwards, its appetite left, the herbivores it let
      go (in the order it let them go), and the number of draws made by then. */
  datatype Hunt = Hunt(carn: Beast, left: real, survived: seq<nat>, pos: nat)

  /**
   * The `while` loop of `feeding_carn` for one carnivore in state `carn` with appetite `eat`
   * left. The herbivores still to be tried are the positions `hunted` of `prey`, tried from
   * the END of the list; `survived` are those it has let go so far. Each try draws one
   * number; a kill below the kill probability feeds the carnivore and refreshes its fitness,
   * otherwise the herbivore joins `survived`. The loop stops when the appetite is met or the
   * list is exhausted, and the herbivores it has not tried by then are not in the result.
   */
  function HuntFrom(c: Constants, carn: Beast, eat: real, hunted: seq<nat>, survived: seq<nat>,
                    prey: seq<Beast>, u: nat -> Unit, pos: nat): Hunt
    requires KillReady(c.carnivore) && carn.phi.Some? && Huntable(hunted, prey)
    decreases |hunted|
  {
    if eat <= 0.0 || hunted == [] then Hunt(carn, eat, survived, pos)
    else
      var j := hunted[|hunted| - 1];
      var rest := hunted[..|hunted| - 1];
      if Kills(c, carn, prey[j], u(pos)) then
        HuntFrom(c, Feast(c, carn, prey[j], eat), MealLeft(prey[j].weight, eat), rest, survived, prey, u, pos + 1)
      else
        HuntFrom(c, carn, eat, rest, survived + [j], prey, u, pos + 1)
  }

  /** Only carnivores can hunt: every not-walked animal of the carnivore list is one. (A
      herbivore that moved west sits in the carnivore list, but marked as walked.) */
  predicate HuntersOnly(bs: seq<Beast>)
  {
    forall k :: 0 <= k < |bs| ==> bs[k].notWalked ==> bs[k].species == Carnivore
  }

  /** Refreshing the fitness keeps the species and the walked flag, so the carnivore list
      after `sort_fitness` still has only carnivores among its not-walked animals. */
  lemma RefreshedHunters(c: Constants, s: seq<Animal>, pre: seq<Beast>)
    requires |pre| == |s| && Rankable(pre) && HuntersOnly(pre)
    ensures HuntersOnly(BeastsOf(FitnessOrder(c, s, pre)))
  {
    var t := Entries(s, Refreshes(c, pre));
    var e := FitnessOrder(c, s, pre);
    FitnessOrderSpec(s, Refreshes(c, pre));
    forall k | 0 <= k < |e| ensures BeastsOf(e)[k].notWalked ==> BeastsOf(e)[k].species == Carnivore {
      assert Firsts(e)[k] in multiset(Firsts(t));
      var m :| 0 <= m < |t| && Firsts(t)[m] == Firsts(e)[k];
    }
  }

  /** Picking, at distinct positions of the herbivore list, the survivors of a hunt keeps a
      cell's lists free of duplicates, and its herbivore list free of carnivores. */
  lemma PickValid(hs: seq<Animal>, cs: seq<Animal>, idx: seq<nat>)
    requires Distinct(hs + cs) && forall k :: 0 <= k < |hs| ==> hs[k].species == Herbivore
    requires Distinct(idx) && forall k :: 0 <= k < |idx| ==> idx[k] < |hs|
    ensures Distinct(Pick(hs, idx) + cs)
    ensures forall k :: 0 <= k < |idx| ==> Pick(hs, idx)[k].species == Herbivore
  {
    DistinctConcat(hs, cs);
    PickDistinct(hs, idx);
    var p := Pick(hs, idx);
    forall x, y | 0 <= x < y < |p + cs| ensures (p + cs)[x] != (p + cs)[y] {
      if x < |p| <= y {
        assert p[x] in hs;
      }
    }
    forall k | 0 <= k < |idx| ensures p[k].species == Herbivore {
      assert p[k] in hs;
    }
  }

  /** The elements picked at distinct positions of a duplicate-free list are duplicate-free,
      and each is an element of the list. */
  lemma PickDistinct<T>(s: seq<T>, idx: seq<nat>)
    requires Distinct(s) && Distinct(idx) && forall k :: 0 <= k < |idx| ==> idx[k] < |s|
    ensures Distinct(Pick(s, idx)) && forall k :: 0 <= k < |idx| ==> Pick(s, idx)[k] in s
  {
  }

  /** The state of the carnivore loop of `feeding_carn` after some of the carnivores: the
      herbivores still hunted, `herb_survived`, the draws made and the carnivores' states. */
  datatype Stalking = Stalking(hunted: seq<nat>, survived: seq<nat>, pos: nat, fed: seq<Beast>)

  /** The carnivore loop of `feeding_carn` over carnivores `carns` (in list order) and the
      sorted herbivores `prey`: each not-walked carnivore hunts, with a fresh `herb_survived`,
      what the one before it let go. */
  function Stalk(c: Constants, carns: seq<Beast>, prey: seq<Beast>, u: nat -> Unit, pos: nat): (r: Stalking)
    requires KillReady(c.carnivore) && Cached(prey) && Cached(carns)
    ensures |r.fed| == |carns| && Huntable(r.hunted, prey) && Huntable(r.survived, prey)
    ensures Distinct(r.hunted) && Distinct(r.survived)
    decreases |carns|
  {
    if carns == [] then
      assert Huntable([], prey);
      Stalking(Indices(|prey|), [], pos, [])
    else
      var h := Stalk(c, carns[..|carns| - 1], prey, u, pos);
      var b := carns[|carns| - 1];
      if b.notWalked then
        var r := HuntFrom(c, b, c.carnivore.F, h.hunted, [], prey, u, h.pos);
        HuntKeeps(c, b, c.carnivore.F, h.hunted, [], prey, u, h.pos);
        HuntSurvivors(c, b, c.carnivore.F, h.hunted, [], prey, u, h.pos);
        DistinctSubMultiset(r.survived, h.hunted);
        Stalking(r.survived, r.survived, r.pos, h.fed + [r.carn])
      else
        Stalking(h.hunted, h.survived, h.pos, h.fed + [b])
  }

  /** A hunt only adds to the list of herbivores let go, only with hunted ones, and leaves
      the carnivore with a cached fitness. */
  lemma {:induction false} HuntKeeps(c: Constants, carn: Beast, eat: real, hunted: seq<nat>, survived: seq<nat>,
                                     prey: seq<Beast>, u: nat -> Unit, pos: nat)
    requires KillReady(c.carnivore) && carn.phi.Some? && Huntable(hunted, prey) && Huntable(survived, prey)
    ensures var r := HuntFrom(c, carn, eat, hunted, survived, prey, u, pos);
      r.carn.phi.Some? && Huntable(r.survived, prey) && survived <= r.survived
    decreases |hunted|
  {
    if eat > 0.0 && hunted != [] {
      var j := hunted[|hunted| - 1];
      var rest := hunted[..|hunted| - 1];
      if Kills(c, carn, prey[j], u(pos)) {
        HuntKeeps(c, Feast(c, carn, prey[j], eat), MealLeft(prey[j].weight, eat), rest, survived, prey, u, pos + 1);
      } else {
        HuntKeeps(c, carn, eat, rest, survived + [j], prey, u, pos + 1);
      }
    }
  }

  /** Every herbivore let go was hunted or already let go: nobody is let go twice, and no
      herbivore appears that was not there. */
  lemma {:induction false} HuntSurvivors(c: Constants, carn: Beast, eat: real, hunted: seq<nat>, survived: seq<nat>,
                                         prey: seq<Beast>, u: nat -> Unit, pos: nat)
    requires KillReady(c.carnivore) && carn.phi.Some? && Huntable(hunted, prey)
    ensures multiset(HuntFrom(c, carn, eat, hunted, survived, prey, u, pos).survived) <= multiset(survived) + multiset(hunted)
    decreases |hunted|
  {
    if eat > 0.0 && hunted != [] {
      var j := hunted[|hunted| - 1];
      var rest := hunted[..|hunted| - 1];
      assert hunted == rest + [j];
      if Kills(c, carn, prey[j], u(pos)) {
        HuntSurvivors(c, Feast(c, carn, prey[j], eat), MealLeft(prey[j].weight, eat), rest, survived, prey, u, pos + 1);
      } else {
        HuntSurvivors(c, carn, eat, rest, survived + [j], prey, u, pos + 1);
      }
    }
  }

  /**
   * The meal of one hunt: with herbivores of non-negative weight and a non-negative
   * appetite, the appetite left lies between 0 and the appetite at the start, and a
   * carnivore still hungry at the end has tried every herbivore, with one draw each.
   */
  lemma {:induction false} HuntAppetite(c: Constants, carn: Beast, eat: real, hunted: seq<nat>, survived: seq<nat>,
                                        prey: seq<Beast>, u: nat -> Unit, pos: nat)
    requires KillReady(c.carnivore) && carn.phi.Some? && Huntable(hunted, prey) && eat >= 0.0
    requires forall k :: 0 <= k < |hunted| ==> prey[hunted[k]].weight >= 0.0
    ensures var r := HuntFrom(c, carn, eat, hunted, survived, prey, u, pos);
      && 0.0 <= r.left <= eat
      && pos <= r.pos <= pos + |hunted|
      && (r.left > 0.0 ==> r.pos == pos + |hunted|)
    decreases |hunted|
  {
    if eat > 0.0 && hunted != [] {
      var j := hunted[|hunted| - 1];
      var rest := hunted[..|hunted| - 1];
      if Kills(c, carn, prey[j], u(pos)) {
        HuntAppetite(c, Feast(c, carn, prey[j], eat), MealLeft(prey[j].weight, eat), rest, survived, prey, u, pos + 1);
      } else {
        HuntAppetite(c, carn, eat, rest, survived + [j], prey, u, pos + 1);
      }
    }
  }

  /** The hunt `r` of carnivore `carn`, with appetite `eat` at the start, fed it `beta` times
      the appetite it used up. */
  ghost predicate Gained(c: Constants, carn: Beast, eat: real, r: Hunt)
  {
    r.carn.weight == carn.weight + c.carnivore.beta * (eat - r.left)
  }

  /** What one hunt feeds the carnivore: `beta` times the appetite it used up. */
  lemma {:induction false} HuntGain(c: Constants, carn: Beast, eat: real, hunted: seq<nat>, survived: seq<nat>,
                                    prey: seq<Beast>, u: nat -> Unit, pos: nat)
    requires KillReady(c.carnivore) && carn.phi.Some? && Huntable(hunted, prey)
    ensures Gained(c, carn, eat, HuntFrom(c, carn, eat, hunted, survived, prey, u, pos))
    decreases |hunted|
  {
    if eat > 0.0 && hunted != [] {
      var j := hunted[|hunted| - 1];
      var rest := hunted[..|hunted| - 1];
      if Kills(c, carn, prey[j], u(pos)) {
        HuntGain(c, Feast(c, carn, prey[j], eat), MealLeft(prey[j].weight, eat), rest, survived, prey, u, pos + 1);
        KillGain(c, carn, eat, hunted, survived, prey, u, pos);
      } else {
        HuntGain(c, carn, eat, rest, survived + [j], prey, u, pos + 1);
        SpareGain(c, carn, eat, hunted, survived, prey, u, pos);
      }
    } else {
      StopGain(c, carn, eat, hunted, survived, prey, u, pos);
    }
  }

  /** The step of `HuntGain` for a herbivore let go: nothing is eaten. */
  lemma SpareGain(c: Constants, carn: Beast, eat: real, hunted: seq<nat>, survived: seq<nat>,
                  prey: seq<Beast>, u: nat -> Unit, pos: nat)
    requires KillReady(c.carnivore) && carn.phi.Some? && Huntable(hunted, prey) && eat > 0.0 && hunted != []
    requires !Kills(c, carn, prey[hunted[|hunted| - 1]], u(pos))
    requires Gained(c, carn, eat, HuntFrom(c, carn, eat, hunted[..|hunted| - 1], survived + [hunted[|hunted| - 1]], prey, u, pos + 1))
    ensures Gained(c, carn, eat, HuntFrom(c, carn, eat, hunted, survived, prey, u, pos))
  {
  }

  /** The end of a hunt: nothing is eaten any more. */
  lemma StopGain(c: Constants, carn: Beast, eat: real, hunted: seq<nat>, survived: seq<nat>,
                 prey: seq<Beast>, u: nat -> Unit, pos: nat)
    requires KillReady(c.carnivore) && carn.phi.Some? && Huntable(hunted, prey) && (eat <= 0.0 || hunted == [])
    ensures Gained(c, carn, eat, HuntFrom(c, carn, eat, hunted, survived, prey, u, pos))
  {
    assert c.carnivore.beta * (eat - eat) == 0.0;
  }

  /** The step of `HuntGain` for a kill: the meal of the kill and the meals after it add up. */
  lemma KillGain(c: Constants, carn: Beast, eat: real, hunted: seq<nat>, survived: seq<nat>,
                 prey: seq<Beast>, u: nat -> Unit, pos: nat)
    requires KillReady(c.carnivore) && carn.phi.Some? && Huntable(hunted, prey) && eat > 0.0 && hunted != []
    requires Kills(c, carn, prey[hunted[|hunted| - 1]], u(pos))
    requires var j := hunted[|hunted| - 1];
      var fed := Feast(c, carn, prey[j], eat);
      var after := MealLeft(prey[j].weight, eat);
      Gained(c, fed, after, HuntFrom(c, fed, after, hunted[..|hunted| - 1], survived, prey, u, pos + 1))
    ensures Gained(c, carn, eat, HuntFrom(c, carn, eat, hunted, survived, prey, u, pos))
  {
    var j := hunted[|hunted| - 1];
    var after := MealLeft(prey[j].weight, eat);
    var fed := Feast(c, carn, prey[j], eat);
    assert fed.weight == carn.weight + c.carnivore.beta * (eat - after);
    var r := HuntFrom(c, fed, after, hunted[..|hunted| - 1], survived, prey, u, pos + 1);
    assert HuntFrom(c, carn, eat, hunted, survived, prey, u, pos) == r;
    Gains(carn.weight, c.carnivore.beta, eat, after, r.left);
  }

  /** Weight gained over two meals adds up: `beta` per unit of appetite spent. */
  lemma Gains(w: real, beta: real, eat: real, after: real, left: real)
    ensures w + beta * (eat - after) + beta * (after - left) == w + beta * (eat - left)
  {
    assert beta * (eat - after) + beta * (after - left) == beta * ((eat - after) + (after - left));
  }

  /** A kill whose prey weighs at least the appetite left ends the hunt at once: the
      herbivores not yet tried are lost to the cell, as are those the carnivore spared
      before it began. */
  lemma SatedDrops(c: Constants, carn: Beast, eat: real, hunted: seq<nat>, survived: seq<nat>,
                   prey: seq<Beast>, u: nat -> Unit, pos: nat)
    requires KillReady(c.carnivore) && carn.phi.Some? && Huntable(hunted, prey) && eat > 0.0 && hunted != []
    requires Kills(c, carn, prey[hunted[|hunted| - 1]], u(pos)) && prey[hunted[|hunted| - 1]].weight >= eat
    ensures var r := HuntFrom(c, carn, eat, hunted, survived, prey, u, pos);
      r.survived == survived && r.left == 0.0 && r.pos == pos + 1
  {
  }

  /** When no carnivore of the list is free to hunt, no number is drawn and no herbivore
      survives: `herb_survived` stays the empty list the cell's herbivores are replaced by. */
  lemma {:induction false} NoHunters(c: Constants, carns: seq<Beast>, prey: seq<Beast>, u: nat -> Unit, pos: nat)
    requires KillReady(c.carnivore) && Cached(prey) && Cached(carns)
    requires forall k :: 0 <= k < |carns| ==> !carns[k].notWalked
    ensures var r := Stalk(c, carns, prey, u, pos);
      r.survived == [] && r.hunted == Indices(|prey|) && r.pos == pos && r.fed == carns
    decreases |carns|
  {
    if carns != [] {
      var init := carns[..|carns| - 1];
      NoHunters(c, init, prey, u, pos);
      assert init + [carns[|carns| - 1]] == carns;
    }
  }

  /** Every hunter keeps its species, age and walked flag, and leaves with a cached fitness;
      the animals that do not hunt are left as they were. */
  lemma {:induction false} StalkFed(c: Constants, carns: seq<Beast>, prey: seq<Beast>, u: nat -> Unit, pos: nat)
    requires KillReady(c.carnivore) && Cached(prey) && Cached(carns)
    ensures var r := Stalk(c, carns, prey, u, pos);
      && Cached(r.fed)
      && forall k :: 0 <= k < |carns| ==>
           && r.fed[k].species == carns[k].species && r.fed[k].age == carns[k].age
           && r.fed[k].notWalked == carns[k].notWalked
           && (!carns[k].notWalked ==> r.fed[k] == carns[k])
    decreases |carns|
  {
    if carns != [] {
      var init := carns[..|carns| - 1];
      var b := carns[|carns| - 1];
      StalkFed(c, init, prey, u, pos);
      var h := Stalk(c, init, prey, u, pos);
      if b.notWalked {
        HuntKeeps(c, b, c.carnivore.F, h.hunted, [], prey, u, h.pos);
        HuntCarn(c, b, c.carnivore.F, h.hunted, [], prey, u, h.pos);
      }
    }
  }

  /** The hunter's species, age and walked flag survive the hunt. */
  lemma {:induction false} HuntCarn(c: Constants, carn: Beast, eat: real, hunted: seq<nat>, survived: seq<nat>,
                                    prey: seq<Beast>, u: nat -> Unit, pos: nat)
    requires KillReady(c.carnivore) && carn.phi.Some? && Huntable(hunted, prey)
    ensures var r := HuntFrom(c, carn, eat, hunted, survived, prey, u, pos);
      r.carn.species == carn.species && r.carn.age == carn.age && r.carn.notWalked == carn.notWalked
    decreases |hunted|
  {
    if eat > 0.0 && hunted != [] {
      var j := hunted[|hunted| - 1];
      var rest := hunted[..|hunted| - 1];
      if Kills(c, carn, prey[j], u(pos)) {
        HuntCarn(c, Feast(c, carn, prey[j], eat), MealLeft(prey[j].weight, eat), rest, survived, prey, u, pos + 1);
      } else {
        HuntCarn(c, carn, eat, rest, survived + [j], prey, u, pos + 1);
      }
    }
  }

  // ---------------------------------------------------------------------------
  // Birth and culling
  // ---------------------------------------------------------------------------

  /** The state of a newborn of weight `w`: age 0, no cached fitness, free to move. */
  function Newborn(species: Species, w: real): Beast
  {
    Beast(species, 0, w, None, true)
  }

  /** The birth pass over the animals in states `bs`: the parents afterwards, the newborns'
      weights by species in the order they were born, and the draws made by then. */
  datatype Breeding = Breeding(parents: seq<Beast>, herbBabies: seq<real>, carnBabies: seq<real>, pos: nat)

  /**
   * `birth()` on one animal in state `b`: a not-walked animal calls `give_birth` with the
   * length of its own species' list (`nh` or `nc`), any other is skipped. The parent keeps
   * its species, age and walked flag; it stays positive if it was, and with a positive `xi`
   * it is no heavier; a newborn has a positive weight.
   */
  function Bear(c: Constants, b: Beast, nh: int, nc: int, u: nat -> Unit, z: nat -> real, pos: nat): (s: BirthResult)
    ensures s.parent.species == b.species && s.parent.age == b.age && s.parent.notWalked == b.notWalked
    ensures b.weight > 0.0 ==> s.parent.weight > 0.0
    ensures c.For(b.species).xi > 0.0 ==> s.parent.weight <= b.weight
    ensures !b.notWalked ==> s == BirthResult(b, None, 0)
    ensures s.baby.Some? ==> s.baby.value > 0.0
    ensures s.draws <= 2
    ensures b.phi.Some? ==> s.parent.phi.Some?
  {
    if b.notWalked && b.species == Herbivore then BirthStep(c.For(b.species), c.logistic, b, nh, u, z, pos)
    else if b.notWalked && b.species == Carnivore then BirthStep(c.For(b.species), c.logistic, b, nc, u, z, pos)
    else BirthResult(b, None, 0)
  }

  /**
   * The loop of `birth()` over `pop_herb + pop_carn`, in states `bs`, with `nh` and `nc`
   * the lengths of the two lists: one `Bear` per animal in list order, each newborn
   * collected for its parent's species.
   */
  function Breed(c: Constants, bs: seq<Beast>, nh: int, nc: int, u: nat -> Unit, z: nat -> real, pos: nat): (r: Breeding)
    ensures |r.parents| == |bs|
    decreases |bs|
  {
    if bs == [] then Breeding([], [], [], pos)
    else
      var h := Breed(c, bs[..|bs| - 1], nh, nc, u, z, pos);
      var b := bs[|bs| - 1];
      var s := Bear(c, b, nh, nc, u, z, h.pos);
      if b.species == Herbivore then
        Breeding(h.parents + [s.parent], h.herbBabies + Born(s), h.carnBabies, h.pos + s.draws)
      else
        Breeding(h.parents + [s.parent], h.herbBabies, h.carnBabies + Born(s), h.pos + s.draws)
  }

  /** One more animal at the end of the pass: `Breed` one step at a time. */
  lemma BreedSnoc(c: Constants, bs: seq<Beast>, b: Beast, nh: int, nc: int, u: nat -> Unit, z: nat -> real, pos: nat)
    ensures var h := Breed(c, bs, nh, nc, u, z, pos);
      var s := Bear(c, b, nh, nc, u, z, h.pos);
      Breed(c, bs + [b], nh, nc, u, z, pos) ==
        if b.species == Herbivore then Breeding(h.parents + [s.parent], h.herbBabies + Born(s), h.carnBabies, h.pos + s.draws)
        else Breeding(h.parents + [s.parent], h.herbBabies, h.carnBabies + Born(s), h.pos + s.draws)
  {
    assert (bs + [b])[..|bs|] == bs;
  }

  /** The states of newborns of species `sp` with weights `ws`. */
  function Newborns(sp: Species, ws: seq<real>): (r: seq<Beast>)
    ensures |r| == |ws| && forall k :: 0 <= k < |ws| ==> r[k] == Newborn(sp, ws[k])
  {
    seq(|ws|, k requires 0 <= k < |ws| => Newborn(sp, ws[k]))
  }

  /** The first `i` animals of `all`, which were in the states `pre`, have taken their turn
      in `birth()`, and the pass so far is `h`; the others are untouched. */
  ghost predicate Bred(c: Constants, all: seq<Animal>, i: nat, nh: int, nc: int, u: nat -> Unit, z: nat -> real,
                       pos0: nat, pre: seq<Beast>, h: Breeding)
    reads all
  {
    && i <= |all| == |pre| && h == Breed(c, pre[..i], nh, nc, u, z, pos0)
    && (forall k :: 0 <= k < i ==> all[k].State() == h.parents[k])
    && (forall k :: i <= k < |all| ==> all[k].State() == pre[k])
  }

  /** The newborns of a birth pass so far, `herbs` and `carns`, are distinct animals in the
      states `Newborn` gives for the weights `hw` and `cw`. */
  ghost predicate Nursery(herbs: seq<Animal>, carns: seq<Animal>, hw: seq<real>, cw: seq<real>)
    reads herbs, carns
  {
    && |herbs| == |hw| && (forall k :: 0 <= k < |herbs| ==> herbs[k].State() == Newborn(Herbivore, hw[k]))
    && |carns| == |cw| && (forall k :: 0 <= k < |carns| ==> carns[k].State() == Newborn(Carnivore, cw[k]))
    && Distinct(herbs + carns)
  }

  /** The newborns are in the states `Newborns` gives for their weights. */
  lemma NurseryStates(herbs: seq<Animal>, carns: seq<Animal>, hw: seq<real>, cw: seq<real>)
    requires Nursery(herbs, carns, hw, cw)
    ensures States(herbs) == Newborns(Herbivore, hw) && States(carns) == Newborns(Carnivore, cw)
  {
  }

  /** A new animal in a newborn's state joins the newborns of its species. */
  lemma NurseryAdd(herbs: seq<Animal>, carns: seq<Animal>, hw: seq<real>, cw: seq<real>, baby: Animal, sp: Species, w: real)
    requires Nursery(herbs, carns, hw, cw) && baby !in herbs + carns && baby.State() == Newborn(sp, w)
    ensures sp == Herbivore ==> Nursery(herbs + [baby], carns, hw + [w], cw)
    ensures sp == Carnivore ==> Nursery(herbs, carns + [baby], hw, cw + [w])
  {
    var s := herbs + carns;
    if sp == Herbivore {
      var t := herbs + [baby] + carns;
      forall i, j | 0 <= i < j < |t| ensures t[i] != t[j] {
        if j == |herbs| {
          assert t[i] == s[i];
        } else if i == |herbs| {
          assert t[j] == s[j - 1];
        } else {
          assert t[i] == s[if i < |herbs| then i else i - 1] && t[j] == s[if j < |herbs| then j else j - 1];
        }
      }
    } else {
      assert herbs + (carns + [baby]) == s + [baby];
    }
  }

  /** Appending newborns, fresh and of the right species, keeps a cell's lists valid. */
  lemma BirthValid(herbs: seq<Animal>, carns: seq<Animal>, newH: seq<Animal>, newC: seq<Animal>)
    requires Distinct(herbs + carns) && Distinct(newH + newC)
    requires forall a :: a in newH + newC ==> a !in herbs + carns
    ensures Distinct(herbs + newH + (carns + newC))
  {
    var s := herbs + newH + (carns + newC);
    forall x, y | 0 <= x < y < |s| ensures s[x] != s[y] {
      var old_ := herbs + carns;
      var new_ := newH + newC;
      var ix := if x < |herbs| then Some(x) else if x < |herbs| + |newH| then None
                else if x < |herbs| + |newH| + |carns| then Some(x - |newH|) else None;
      var iy := if y < |herbs| then Some(y) else if y < |herbs| + |newH| then None
                else if y < |herbs| + |newH| + |carns| then Some(y - |newH|) else None;
      var jx := if x < |herbs| then 0 else if x < |herbs| + |newH| then x - |herbs|
                else if x < |herbs| + |newH| + |carns| then 0 else x - |herbs| - |carns|;
      var jy := if y < |herbs| then 0 else if y < |herbs| + |newH| then y - |herbs|
                else if y < |herbs| + |newH| + |carns| then 0 else y - |herbs| - |carns|;
      if ix.Some? && iy.Some? {
        assert s[x] == old_[ix.value] && s[y] == old_[iy.value];
      } else if ix.None? && iy.None? {
        assert s[x] == new_[jx] && s[y] == new_[jy];
      } else if ix.Some? {
        assert s[x] == old_[ix.value] && s[y] == new_[jy];
        assert s[y] in new_;
      } else {
        assert s[y] == old_[iy.value] && s[x] == new_[jx];
        assert s[x] in new_;
      }
    }
  }

  /** The newborn of one `give_birth` call, as a list of zero or one weights. */
  function Born(s: BirthResult): (r: seq<real>)
    ensures |r| <= 1 && (r == [] <==> s.baby.None?)
    ensures forall k :: 0 <= k < |r| ==> r[k] == s.baby.value
  {
    if s.baby.Some? then [s.baby.value] else []
  }

  /** The number of not-walked animals of species `sp` among `bs`. */
  function Breeders(bs: seq<Beast>, sp: Species): nat
    decreases |bs|
  {
    if bs == [] then 0
    else Breeders(bs[..|bs| - 1], sp) + if bs[|bs| - 1].notWalked && bs[|bs| - 1].species == sp then 1 else 0
  }

  /**
   * What `birth()` promises of the animals already there: each is replaced by a parent of
   * the same species, age and walked flag, no heavier, still positive if it was and with a
   * cached fitness if it had one; a walked animal takes no part at all.
   */
  lemma {:induction false} BreedParents(c: Constants, bs: seq<Beast>, nh: int, nc: int, u: nat -> Unit, z: nat -> real, pos: nat)
    requires c.herbivore.xi > 0.0 && c.carnivore.xi > 0.0
    ensures var r := Breed(c, bs, nh, nc, u, z, pos);
      forall k :: 0 <= k < |bs| ==>
        && r.parents[k].species == bs[k].species && r.parents[k].age == bs[k].age
        && r.parents[k].notWalked == bs[k].notWalked
        && r.parents[k].weight <= bs[k].weight
        && (bs[k].weight > 0.0 ==> r.parents[k].weight > 0.0)
        && (bs[k].phi.Some? ==> r.parents[k].phi.Some?)
        && (!bs[k].notWalked ==> r.parents[k] == bs[k])
    decreases |bs|
  {
    if bs != [] {
      var init := bs[..|bs| - 1];
      BreedParents(c, init, nh, nc, u, z, pos);
      var h := Breed(c, init, nh, nc, u, z, pos);
      var r := Breed(c, bs, nh, nc, u, z, pos);
      assert r.parents == h.parents + [Bear(c, bs[|bs| - 1], nh, nc, u, z, h.pos).parent];
    }
  }

  /** What `birth()` promises of the newborns: at most one per not-walked animal of the
      species, each of positive weight, with at most two draws per not-walked animal. */
  lemma {:induction false} BreedBabies(c: Constants, bs: seq<Beast>, nh: int, nc: int, u: nat -> Unit, z: nat -> real, pos: nat)
    ensures var r := Breed(c, bs, nh, nc, u, z, pos);
      && |r.herbBabies| <= Breeders(bs, Herbivore) && |r.carnBabies| <= Breeders(bs, Carnivore)
      && (forall k :: 0 <= k < |r.herbBabies| ==> r.herbBabies[k] > 0.0)
      && (forall k :: 0 <= k < |r.carnBabies| ==> r.carnBabies[k] > 0.0)
      && pos <= r.pos <= pos + 2 * (Breeders(bs, Herbivore) + Breeders(bs, Carnivore))
    decreases |bs|
  {
    if bs != [] {
      BreedBabies(c, bs[..|bs| - 1], nh, nc, u, z, pos);
    }
  }

  /** A single herbivore has birth probability `min(1, gamma * phi * 0) = 0`, yet `random()`
      can return 0.0 and `0.0 <= 0` holds: it gives birth only on a draw of exactly 0. */
  lemma LoneParent(c: Constants, b: Beast, u: nat -> Unit, z: nat -> real, pos: nat)
    requires b.notWalked && b.species == Herbivore
    ensures var r := Breed(c, [b], 1, 0, u, z, pos);
      r.herbBabies != [] ==> u(pos) == 0.0
  {
    assert [b][..0] == [];
  }

  /** The converse of `LoneParent`: a heavy enough lone herbivore, on a draw of exactly 0, gives
      birth whenever the drawn newborn weight is positive and leaves the mother a positive
      weight. */
  lemma LoneParentBirth(c: Constants, b: Beast, u: nat -> Unit, z: nat -> real, pos: nat)
    requires b.notWalked && b.species == Herbivore && b.weight >= BirthThreshold(c.herbivore) && u(pos) == 0.0
    requires var wb := GaussValue(c.herbivore.wBirth, c.herbivore.sigmaBirth, z(pos + 1));
      wb > 0.0 && b.weight - c.herbivore.xi * wb > 0.0
    ensures Breed(c, [b], 1, 0, u, z, pos).herbBabies != []
  {
    assert [b][..0] == [];
  }

  /** The culling pass's verdicts: the positions of the animals kept as herbivores and as
      carnivores, and the draws made by then. */
  datatype Culling = Culling(herbs: seq<nat>, carns: seq<nat>, pos: nat)

  /** Positions listed in increasing order: picking them keeps the order of the list. */
  predicate Increasing(idx: seq<nat>)
  {
    forall i, j :: 0 <= i < j < |idx| ==> idx[i] < idx[j]
  }

  /** `survival()` with draw `draw` spares the animal in state `b`. */
  predicate Spared(c: Constants, b: Beast, draw: real)
    ensures Spared(c, b, draw) ==> b.weight > 0.0
  {
    Survives(c.For(b.species), c.logistic, b.age, b.weight, draw)
  }

  /** The `fitness() != 0` test of `survive()`. */
  predicate Viable(c: Constants, b: Beast)
  {
    FitnessOf(c.For(b.species), c.logistic, b.age, b.weight) != 0.0
  }

  /** The verdict of `survive()` on one animal: the list it is kept in, if any, and the
      number of `survival()` draws it cost. */
  datatype Verdict = Verdict(keep: Option<Species>, draws: nat)

  /**
   * `survive()` on one animal in state `b`, whose first draw is `u(pos)`. A first
   * `survival()` keeps a herbivore (if its fitness is not 0); on every other outcome a second
   * `survival()` decides, which keeps only a carnivore. So a carnivore always costs two draws
   * and a surviving herbivore one, and an animal is kept by its species, whichever list it
   * came from.
   */
  function Judge(c: Constants, b: Beast, u: nat -> Unit, pos: nat): (v: Verdict)
    ensures v.keep.Some? ==> v.keep.value == b.species && b.weight > 0.0
    ensures v.draws == 1 || v.draws == 2
    ensures b.species == Carnivore ==> v.draws == 2
  {
    if Spared(c, b, u(pos)) && b.species == Herbivore then
      Verdict(if Viable(c, b) then Some(Herbivore) else None, 1)
    else if Spared(c, b, u(pos + 1)) && b.species == Carnivore then
      Verdict(if Viable(c, b) then Some(Carnivore) else None, 2)
    else Verdict(None, 2)
  }

  /** The loop of `survive()` over `pop_herb + pop_carn` in states `bs`, one `Judge` per
      animal in list order. */
  function Cull(c: Constants, bs: seq<Beast>, u: nat -> Unit, pos: nat): (r: Culling)
    ensures forall k :: 0 <= k < |r.herbs| ==> r.herbs[k] < |bs|
    ensures forall k :: 0 <= k < |r.carns| ==> r.carns[k] < |bs|
    decreases |bs|
  {
    if bs == [] then Culling([], [], pos)
    else
      var h := Cull(c, bs[..|bs| - 1], u, pos);
      var k := |bs| - 1;
      var v := Judge(c, bs[k], u, h.pos);
      if v.keep == Some(Herbivore) then Culling(h.herbs + [k], h.carns, h.pos + v.draws)
      else if v.keep == Some(Carnivore) then Culling(h.herbs, h.carns + [k], h.pos + v.draws)
      else Culling(h.herbs, h.carns, h.pos + v.draws)
  }

  /** One more animal at the end of the pass: `Cull` one step at a time. */
  lemma CullSnoc(c: Constants, bs: seq<Beast>, b: Beast, u: nat -> Unit, pos: nat)
    ensures var h := Cull(c, bs, u, pos);
      var v := Judge(c, b, u, h.pos);
      Cull(c, bs + [b], u, pos) ==
        if v.keep == Some(Herbivore) then Culling(h.herbs + [|bs|], h.carns, h.pos + v.draws)
        else if v.keep == Some(Carnivore) then Culling(h.herbs, h.carns + [|bs|], h.pos + v.draws)
        else Culling(h.herbs, h.carns, h.pos + v.draws)
  {
    assert (bs + [b])[..|bs|] == bs;
  }

  /** `survive()` keeps animals in their old order. */
  lemma {:induction false} CullOrdered(c: Constants, bs: seq<Beast>, u: nat -> Unit, pos: nat)
    ensures var r := Cull(c, bs, u, pos);
      Increasing(r.herbs) && Increasing(r.carns)
    decreases |bs|
  {
    if bs != [] {
      var init := bs[..|bs| - 1];
      CullOrdered(c, init, u, pos);
      CullSnoc(c, init, bs[|bs| - 1], u, pos);
      assert init + [bs[|bs| - 1]] == bs;
    }
  }

  /** `survive()` sorts the animals it keeps by species, and each has a positive weight. */
  lemma {:induction false} CullKinds(c: Constants, bs: seq<Beast>, u: nat -> Unit, pos: nat)
    ensures var r := Cull(c, bs, u, pos);
      && (forall k :: 0 <= k < |r.herbs| ==> bs[r.herbs[k]].species == Herbivore && bs[r.herbs[k]].weight > 0.0)
      && (forall k :: 0 <= k < |r.carns| ==> bs[r.carns[k]].species == Carnivore && bs[r.carns[k]].weight > 0.0)
    decreases |bs|
  {
    if bs != [] {
      var init := bs[..|bs| - 1];
      CullKinds(c, init, u, pos);
      CullSnoc(c, init, bs[|bs| - 1], u, pos);
      assert init + [bs[|bs| - 1]] == bs;
      var h := Cull(c, init, u, pos);
      assert forall k :: 0 <= k < |h.herbs| ==> bs[h.herbs[k]] == init[h.herbs[k]];
      assert forall k :: 0 <= k < |h.carns| ==> bs[h.carns[k]] == init[h.carns[k]];
    }
  }

  /** `survive()` draws once or twice per animal. */
  lemma {:induction false} CullDraws(c: Constants, bs: seq<Beast>, u: nat -> Unit, pos: nat)
    ensures pos + |bs| <= Cull(c, bs, u, pos).pos <= pos + 2 * |bs|
    decreases |bs|
  {
    if bs != [] {
      CullDraws(c, bs[..|bs| - 1], u, pos);
    }
  }

  /** With a logistic function strictly between 0 and 1, the `fitness() != 0` test of
      `survive()` never rejects an animal that `survival()` spared: the kept herbivores are
      exactly those whose first draw spared them. */
  lemma {:induction false} CullKeepsSpared(c: Constants, bs: seq<Beast>, u: nat -> Unit, pos: nat, k: nat)
    requires IsLogistic(c.logistic) && k < |bs|
    ensures var h := Cull(c, bs[..k], u, pos);
      (k in Cull(c, bs, u, pos).herbs <==> bs[k].species == Herbivore && Spared(c, bs[k], u(h.pos)))
    decreases |bs|
  {
    var init := bs[..|bs| - 1];
    var h := Cull(c, init, u, pos);
    var b := bs[|bs| - 1];
    FitnessBounds(c.For(b.species), c.logistic, b.age, b.weight);
    assert Spared(c, b, u(h.pos)) ==> Viable(c, b);
    if k < |bs| - 1 {
      assert init[..k] == bs[..k];
      CullKeepsSpared(c, init, u, pos, k);
      assert |bs| - 1 !in h.herbs;
    } else {
      assert bs[..k] == init;
      assert k !in h.herbs;
    }
  }

  /** Picking positions in increasing order from two disjoint groups of a duplicate-free list
      gives two lists that together are duplicate-free. */
  lemma PickApart<T>(s: seq<T>, a: seq<nat>, b: seq<nat>)
    requires Distinct(s) && Increasing(a) && Increasing(b)
    requires forall k :: 0 <= k < |a| ==> a[k] < |s|
    requires forall k :: 0 <= k < |b| ==> b[k] < |s|
    requires forall i, j :: 0 <= i < |a| && 0 <= j < |b| ==> a[i] != b[j]
    ensures Distinct(Pick(s, a) + Pick(s, b))
  {
    var p := Pick(s, a) + Pick(s, b);
    forall x, y | 0 <= x < y < |p| ensures p[x] != p[y] {
      if y < |a| {
      } else if x >= |a| {
      } else {
        assert p[y] == s[b[y - |a|]];
      }
    }
  }

  // ---------------------------------------------------------------------------
  // What the phases of a year keep
  // ---------------------------------------------------------------------------

  /** Every state of `bs` may migrate and has a positive weight. */
  predicate Rests(bs: seq<Beast>)
  {
    forall k :: 0 <= k < |bs| ==> bs[k].notWalked && bs[k].weight > 0.0
  }

  /** Every state of `bs` is a carnivore's. */
  predicate Carnivores(bs: seq<Beast>)
  {
    forall k :: 0 <= k < |bs| ==> bs[k].species == Carnivore
  }

  /** Two lists put together can be sorted, and only carnivores among them can hunt, exactly
      when that holds of each. */
  lemma ReadyJoin(a: seq<Beast>, b: seq<Beast>)
    ensures Rankable(a + b) <==> Rankable(a) && Rankable(b)
    ensures HuntersOnly(a + b) <==> HuntersOnly(a) && HuntersOnly(b)
  {
    assert forall k :: 0 <= k < |a| ==> (a + b)[k] == a[k];
    assert forall k :: 0 <= k < |b| ==> (a + b)[|a| + k] == b[k];
  }

  /** The states of the animals picked from `s` are the states picked from those of `s`. */
  lemma StatesPick(s: seq<Animal>, idx: seq<nat>)
    requires forall k :: 0 <= k < |idx| ==> idx[k] < |s|
    ensures States(Pick(s, idx)) == Pick(States(s), idx)
  {
  }

  /** After the hunt of `feeding_carn()` the herbivores left and the carnivores all have a
      cached fitness, and only carnivores among them can hunt. */
  lemma StalkReady(c: Constants, carns: seq<Beast>, prey: seq<Beast>, u: nat -> Unit, pos: nat)
    requires KillReady(c.carnivore) && Cached(prey) && Cached(carns) && HuntersOnly(carns)
    ensures var r := Stalk(c, carns, prey, u, pos);
      Cached(Pick(prey, r.survived)) && Cached(r.fed) && HuntersOnly(r.fed)
  {
    StalkFed(c, carns, prey, u, pos);
  }

  /** After `birth()` on lists in states `hs` and `cs`, each list (parents, then newborns)
      can still be sorted, and only carnivores in the carnivore list can hunt. */
  lemma BreedReady(c: Constants, hs: seq<Beast>, cs: seq<Beast>, u: nat -> Unit, z: nat -> real, pos: nat)
    requires c.herbivore.xi > 0.0 && c.carnivore.xi > 0.0
    requires Rankable(hs) && Rankable(cs) && HuntersOnly(cs)
    ensures var r := Breed(c, hs + cs, |hs|, |cs|, u, z, pos);
      && Rankable(r.parents[..|hs|] + Newborns(Herbivore, r.herbBabies))
      && Rankable(r.parents[|hs|..] + Newborns(Carnivore, r.carnBabies))
      && HuntersOnly(r.parents[|hs|..] + Newborns(Carnivore, r.carnBabies))
  {
    var r := Breed(c, hs + cs, |hs|, |cs|, u, z, pos);
    BreedParents(c, hs + cs, |hs|, |cs|, u, z, pos);
    BreedBabies(c, hs + cs, |hs|, |cs|, u, z, pos);
    ReadyJoin(hs, cs);
    ReadyJoin(r.parents[..|hs|], Newborns(Herbivore, r.herbBabies));
    ReadyJoin(r.parents[|hs|..], Newborns(Carnivore, r.carnBabies));
  }

  /** `survive()` on animals that may all migrate keeps, in each list, animals that may
      migrate and have a positive weight, and only carnivores in the carnivore list. */
  lemma CullRests(c: Constants, bs: seq<Beast>, u: nat -> Unit, pos: nat)
    requires forall k :: 0 <= k < |bs| ==> bs[k].notWalked
    ensures var r := Cull(c, bs, u, pos);
      && Rests(Pick(Refreshes(c, bs), r.herbs))
      && Rests(Pick(Refreshes(c, bs), r.carns)) && Carnivores(Pick(Refreshes(c, bs), r.carns))
  {
    var r := Cull(c, bs, u, pos);
    var after := Refreshes(c, bs);
    CullKinds(c, bs, u, pos);
    assert forall k :: 0 <= k < |r.herbs| ==> Pick(after, r.herbs)[k] == Refreshed(c, bs[r.herbs[k]]);
    assert forall k :: 0 <= k < |r.carns| ==> Pick(after, r.carns)[k] == Refreshed(c, bs[r.carns[k]]);
  }

  /** What the phases of a year need of the constants, all implied by valid tables: the
      herbivores have an appetite, a carnivore's kill chance is defined, and a birth costs
      the parent weight. */
  predicate Yearly(c: Constants)
  {
    c.herbivore.F > 0.0 && KillReady(c.carnivore) && c.herbivore.xi > 0.0 && c.carnivore.xi > 0.0
  }

  lemma ValidYearly(c: Constants)
    requires c.Valid()
    ensures Yearly(c)
  {
  }

  // ---------------------------------------------------------------------------
  // Cells
  // ---------------------------------------------------------------------------

  class Cell {
    const terrain: Terrain
    const habitable: bool
    /** The instance attribute `f_max`, which `Landscape.__init__` sets to 0 and which hides
        the class attribute of every subclass. */
    const fMax: real
    var food: real
    var herbs: seq<Animal>
    var carns: seq<Animal>

    /** `Jungle()`, `Savannah()`, `Desert()`, `Mountain()` or `Ocean()`. */
    constructor (terrain: Terrain)
      ensures this.terrain == terrain && habitable == Habitable(terrain)
      ensures fMax == 0.0 && food == fMax && herbs == [] && carns == []
    {
      this.terrain := terrain;
      habitable := Habitable(terrain);
      fMax := 0.0;
      food := 0.0;
      herbs := [];
      carns := [];
    }

    /** No animal is listed twice, and the herbivore list holds herbivores only. */
    ghost predicate Valid()
      reads this
    {
      Distinct(herbs + carns) && forall k :: 0 <= k < |herbs| ==> herbs[k].species == Herbivore
    }

    /** The animals of the cell, as a set of objects a method may change. */
    ghost function Members(): set<Animal>
      reads this
    {
      set a | a in herbs + carns
    }

    /** The animals of the cell can be sorted by fitness, and only carnivores can hunt. */
    ghost predicate Ready()
      reads this, Members()
    {
      Rankable(States(herbs)) && Rankable(States(carns)) && HuntersOnly(States(carns))
    }

    /** The state `cell_cycle` leaves a cell in: every animal may move again and has a
        positive weight, and the carnivore list holds carnivores only. */
    ghost predicate Rested()
      reads this, Members()
    {
      Rests(States(herbs)) && Rests(States(carns)) && Carnivores(States(carns))
    }

    /** A rested cell is ready for the next year. */
    lemma RestedReady()
      requires Rested()
      ensures Ready()
    {
    }

    /** `sort_fitness()`: refreshes every animal's fitness, then sorts both lists by it,
        fittest first; see `FitnessOrderSpec` for what the order is. */
    method SortFitness(c: Constants)
      requires Valid() && Rankable(States(herbs)) && Rankable(States(carns))
      modifies this`herbs, this`carns, herbs, carns
      ensures Valid()
      ensures var e := FitnessOrder(c, old(herbs), old(States(herbs)));
        herbs == AnimalsOf(e) && States(herbs) == BeastsOf(e)
      ensures var e := FitnessOrder(c, old(carns), old(States(carns)));
        carns == AnimalsOf(e) && States(carns) == BeastsOf(e)
      ensures multiset(herbs) == multiset(old(herbs)) && multiset(carns) == multiset(old(carns))
    {
      Refresh(c);
      Sort();
    }

    /** The two `sort` calls of `sort_fitness()`, each keyed on the cached fitness. */
    method Sort()
      requires Valid() && Cached(States(herbs)) && Cached(States(carns))
      modifies this`herbs, this`carns
      ensures Valid()
      ensures var e := SortDesc(Entries(old(herbs), old(States(herbs))));
        herbs == AnimalsOf(e) && States(herbs) == BeastsOf(e)
      ensures var e := SortDesc(Entries(old(carns), old(States(carns))));
        carns == AnimalsOf(e) && States(carns) == BeastsOf(e)
      ensures multiset(herbs) == multiset(old(herbs)) && multiset(carns) == multiset(old(carns))
    {
      var h, cs := herbs, carns;
      ghost var hs, css := States(h), States(cs);
      var hk, ck := Phis(h), Phis(cs);
      assert hk == PhiValues(hs) && ck == PhiValues(css);
      RankedEntries(h, hs);
      RankedEntries(cs, css);
      SortedStates(h, hs);
      SortedStates(cs, css);
      SortKeepsValid(h, hk, cs, ck);
      RankedSpec(h, hk);
      RankedSpec(cs, ck);
      herbs := Ranked(h, hk);
      carns := Ranked(cs, ck);
    }

    /** The first loop of `sort_fitness()`: `fitness()` on every animal. */
    method Refresh(c: Constants)
      requires Valid()
      modifies herbs, carns
      ensures States(herbs) == Refreshes(c, old(States(herbs)))
      ensures States(carns) == Refreshes(c, old(States(carns)))
    {
      ghost var ph, pc := States(herbs), States(carns);
      StatesSplit(herbs, carns);
      RefreshAll(c, herbs + carns);
      StatesSplit(herbs, carns);
      assert Refreshes(c, ph + pc) == Refreshes(c, ph) + Refreshes(c, pc);
      SplitEqual(States(herbs), States(carns), Refreshes(c, ph), Refreshes(c, pc));
    }

    /** The loop of `sort_fitness()` that calls `fitness()` on each animal of `all`. */
    static method RefreshAll(c: Constants, all: seq<Animal>)
      requires Distinct(all)
      modifies all
      ensures States(all) == Refreshes(c, old(States(all)))
    {
      ghost var pre := States(all);
      for i := 0 to |all|
        invariant forall k :: 0 <= k < i ==> all[k].State() == Refreshed(c, pre[k])
        invariant forall k :: i <= k < |all| ==> all[k].State() == pre[k]
      {
        assert forall k :: 0 <= k < |all| && k != i ==> all[k] != all[i];
        var _ := all[i].Fitness(c);
      }
    }

    /**
     * The feeding loop of `feeding_herb()`: the herbivores eat in list order, each
     * not-walked one from what the previous ones left; the carnivores are not touched.
     */
    method Graze(c: Constants, start: real)
      requires Valid() && c.herbivore.F > 0.0
      modifies this`food, herbs
      ensures States(herbs) == GrazeStates(c, start, old(States(herbs)))
      ensures food == FoodAfter(start, NotWalked(old(States(herbs))), c.herbivore.F)
      ensures States(carns) == old(States(carns))
    {
      var hs := herbs;
      DistinctConcat(hs, carns);
      ghost var pre := States(hs);
      food := GrazeList(c, hs, start);
      GrazeStatesOf(c, start, hs, pre);
    }

    /** The loop itself, over the list `hs`. */
    static method GrazeList(c: Constants, hs: seq<Animal>, food: real) returns (left: real)
      requires c.herbivore.F > 0.0 && Distinct(hs)
      requires forall k :: 0 <= k < |hs| ==> hs[k].species == Herbivore
      modifies hs
      ensures var flags := NotWalked(old(States(hs)));
        && left == FoodAfter(food, flags, c.herbivore.F)
        && forall k :: 0 <= k < |hs| ==>
             hs[k].State() == Grazed(c, old(hs[k].State()), FoodAfter(food, flags[..k], c.herbivore.F))
    {
      ghost var pre := States(hs);
      ghost var flags := NotWalked(pre);
      left := food;
      for i := 0 to |hs|
        invariant left == FoodAfter(food, flags[..i], c.herbivore.F)
        invariant forall k :: 0 <= k < i ==> hs[k].State() == Grazed(c, pre[k], FoodAfter(food, flags[..k], c.herbivore.F))
        invariant forall k :: i <= k < |hs| ==> hs[k].State() == pre[k]
      {
        assert flags[..i + 1][..i] == flags[..i];
        left := GrazeOne(c, hs[i], left);
      }
      assert flags[..|hs|] == flags;
    }

    /** One herbivore's turn at the fodder: it eats only when it has not walked. */
    static method GrazeOne(c: Constants, a: Animal, food: real) returns (left: real)
      requires a.species == Herbivore && c.herbivore.F > 0.0
      modifies a`weight
      ensures a.State() == Grazed(c, old(a.State()), food)
      ensures left == if old(a.notWalked) then GrazeLeft(food, c.herbivore.F) else food
    {
      left := food;
      if a.notWalked {
        left := a.HerbEating(c, food);
      }
    }

    /**
     * What `feeding_herb()` makes of the cell. A jungle or savannah with herbivores has its
     * lists sorted by fitness (see `FitnessOrderSpec`) and its herbivores graze, fittest
     * first, on the fodder the terrain starts from: `f_max` in a jungle, the regrown fodder
     * in a savannah. Otherwise the animals are as they were, and only a savannah's fodder
     * regrows.
     */
    twostate predicate HerbFed(c: Constants, alpha: real)
      requires old(Rankable(States(herbs)) && Rankable(States(carns))) && c.herbivore.F > 0.0
      reads this, Members()
    {
      var start := if terrain == Jungle then fMax else Regrown(old(food), fMax, alpha);
      if (terrain == Jungle || terrain == Savannah) && old(herbs) != [] then
        var e := FitnessOrder(c, old(herbs), old(States(herbs)));
        var ec := FitnessOrder(c, old(carns), old(States(carns)));
        && herbs == AnimalsOf(e) && States(herbs) == GrazeStates(c, start, BeastsOf(e))
        && food == FoodAfter(start, NotWalked(BeastsOf(e)), c.herbivore.F)
        && carns == AnimalsOf(ec) && States(carns) == BeastsOf(ec)
      else
        && herbs == old(herbs) && carns == old(carns)
        && States(herbs) == old(States(herbs)) && States(carns) == old(States(carns))
        && food == (if terrain == Savannah then start else old(food))
    }

    /**
     * `feeding_herb()`. A jungle with herbivores sorts them by fitness, resets its fodder
     * to `f_max` and lets them graze; a savannah first regrows its fodder (with `alpha`, the
     * class attribute `Savannah.alpha`) and then does the same without the reset; the other
     * terrains inherit the base method, which does nothing.
     */
    method FeedingHerb(c: Constants, alpha: real)
      requires Valid() && c.herbivore.F > 0.0 && Rankable(States(herbs)) && Rankable(States(carns))
      modifies this`food, this`herbs, this`carns, Members()
      ensures Valid() && Members() <= old(Members())
      ensures HerbFed(c, alpha)
    {
      if terrain == Jungle {
        if herbs != [] {
          FeedHerbivores(c, fMax);
        }
      } else if terrain == Savannah {
        food := Regrown(food, fMax, alpha);
        if herbs != [] {
          FeedHerbivores(c, food);
        }
      }
    }

    /** The common part of the two `feeding_herb` overrides, from the sort onwards, with
        `start` the fodder at the first bite. */
    method FeedHerbivores(c: Constants, start: real)
      requires Valid() && c.herbivore.F > 0.0 && Rankable(States(herbs)) && Rankable(States(carns))
      modifies this`food, this`herbs, this`carns, Members()
      ensures Valid() && Members() <= old(Members())
      ensures var e := FitnessOrder(c, old(herbs), old(States(herbs)));
        && herbs == AnimalsOf(e) && States(herbs) == GrazeStates(c, start, BeastsOf(e))
        && food == FoodAfter(start, NotWalked(BeastsOf(e)), c.herbivore.F)
      ensures var e := FitnessOrder(c, old(carns), old(States(carns)));
        carns == AnimalsOf(e) && States(carns) == BeastsOf(e)
    {
      ghost var h0, m0 := herbs, Members();
      SortFitness(c);
      forall a | a in herbs + carns ensures a in m0 {
        assert a in multiset(herbs) || a in multiset(carns);
      }
      assert Members() <= m0;
      Graze(c, start);
    }

    /**
     * What `feeding_carn()` makes of the cell. With both lists non-empty, both are sorted by
     * fitness and the carnivores hunt in that order, as `Stalk` describes: the herbivore
     * list is the sorted one less the animals eaten, and the carnivores are fed. Otherwise
     * nothing changes and no number is drawn.
     */
    twostate predicate CarnFed(c: Constants, rng: Random)
      requires old(Ready()) && KillReady(c.carnivore)
      reads *
    {
      if old(carns) != [] && old(herbs) != [] then
        var eh := FitnessOrder(c, old(herbs), old(States(herbs)));
        var ec := FitnessOrder(c, old(carns), old(States(carns)));
        var h := Stalk(c, BeastsOf(ec), BeastsOf(eh), rng.uniform, old(rng.pos));
        && herbs == Pick(AnimalsOf(eh), h.survived) && States(AnimalsOf(eh)) == BeastsOf(eh)
        && carns == AnimalsOf(ec) && States(carns) == h.fed
        && rng.pos == h.pos
      else
        && herbs == old(herbs) && carns == old(carns)
        && States(herbs) == old(States(herbs)) && States(carns) == old(States(carns))
        && rng.pos == old(rng.pos)
    }

    /**
     * `feeding_carn()`. With both lists non-empty, the cell sorts both by fitness and lets
     * the carnivores hunt in that order, as `Stalk` describes with the sorted states; the
     * herbivore list becomes the survivors of the last carnivore that hunted, in the order it
     * passed them by. Otherwise nothing happens and no number is drawn.
     */
    method FeedingCarn(c: Constants, rng: Random)
      requires Valid() && KillReady(c.carnivore)
      requires Rankable(States(herbs)) && Rankable(States(carns)) && HuntersOnly(States(carns))
      modifies this`herbs, this`carns, Members(), rng
      ensures Valid() && Members() <= old(Members())
      ensures CarnFed(c, rng)
    {
      if carns != [] && herbs != [] {
        ghost var h0, c0 := herbs, carns;
        RefreshedHunters(c, carns, States(carns));
        SortFitness(c);
        forall a | a in herbs + carns ensures a in h0 + c0 {
          assert a in multiset(herbs) || a in multiset(carns);
        }
        HuntAll(c, rng);
      }
    }

    /** The hunting part of `feeding_carn()`, on lists already sorted by fitness. */
    method HuntAll(c: Constants, rng: Random)
      requires Valid() && KillReady(c.carnivore)
      requires Cached(States(herbs)) && Cached(States(carns)) && HuntersOnly(States(carns))
      modifies this`herbs, Members(), rng
      ensures Valid() && carns == old(carns) && Members() <= old(Members())
      ensures var h := Stalk(c, old(States(carns)), old(States(herbs)), rng.uniform, old(rng.pos));
        && herbs == Pick(old(herbs), h.survived) && States(old(herbs)) == old(States(herbs))
        && States(carns) == h.fed && rng.pos == h.pos
    {
      var hs := herbs;
      DistinctConcat(hs, carns);
      ghost var si;
      herbs, si := HuntList(c, hs, carns, rng);
      PickValid(hs, carns, si);
      PickWithin(hs, si);
    }

    /** The carnivore loop of `feeding_carn()`: the carnivores of `cs` take their turns in
        list order, each hunting the herbivores of `hs` the previous hunter spared. */
    static method HuntList(c: Constants, hs: seq<Animal>, cs: seq<Animal>, rng: Random)
      returns (survived: seq<Animal>, ghost si: seq<nat>)
      requires KillReady(c.carnivore) && Distinct(cs) && forall a :: a in cs ==> a !in hs
      requires Cached(States(hs)) && Cached(States(cs)) && HuntersOnly(States(cs))
      modifies cs, rng
      ensures var h := Stalk(c, old(States(cs)), old(States(hs)), rng.uniform, old(rng.pos));
        && si == h.survived && survived == Pick(hs, si) && States(hs) == old(States(hs))
        && States(cs) == h.fed && rng.pos == h.pos
    {
      ghost var prey := States(hs);
      ghost var pre := States(cs);
      ghost var pos0 := rng.pos;
      var hunted := hs;
      survived := [];
      ghost var hi := Indices(|hs|);
      si := [];
      for i := 0 to |cs|
        invariant var h := Stalk(c, pre[..i], prey, rng.uniform, pos0);
          && hi == h.hunted && si == h.survived && rng.pos == h.pos && States(cs[..i]) == h.fed
        invariant hunted == Pick(hs, hi) && survived == Pick(hs, si)
        invariant forall k :: i <= k < |cs| ==> cs[k].State() == pre[k]
        invariant States(hs) == prey
      {
        assert pre[..i + 1][..i] == pre[..i];
        ghost var before := States(cs[..i]);
        var a := cs[i];
        if a.notWalked {
          assert a.State() == pre[i];
          survived, si := HuntOne(c, a, hs, hunted, hi, prey, rng);
          hunted, hi := survived, si;
        }
        assert States(cs[..i]) == before;
        assert States(cs[..i + 1]) == States(cs[..i]) + [a.State()];
      }
      assert pre[..|cs|] == pre && cs[..|cs|] == cs;
    }

    /** The inner `while` loop of `feeding_carn()` for the carnivore `a`: it hunts the list
        `hunted` (the entries `hi` of `hs`) from its end, and returns those it spared. */
    static method HuntOne(c: Constants, a: Animal, hs: seq<Animal>, hunted: seq<Animal>, ghost hi: seq<nat>,
                          ghost prey: seq<Beast>, rng: Random)
      returns (survived: seq<Animal>, ghost si: seq<nat>)
      requires KillReady(c.carnivore) && a.species == Carnivore && a.phi.Some? && a !in hs
      requires States(hs) == prey && Cached(prey) && Huntable(hi, prey) && hunted == Pick(hs, hi)
      modifies a, rng
      ensures var r := HuntFrom(c, old(a.State()), c.carnivore.F, hi, [], prey, rng.uniform, old(rng.pos));
        && a.State() == r.carn && si == r.survived && rng.pos == r.pos
      ensures States(hs) == prey && Huntable(si, prey) && survived == Pick(hs, si)
    {
      ghost var goal := HuntFrom(c, a.State(), c.carnivore.F, hi, [], prey, rng.uniform, rng.pos);
      var eat := c.carnivore.F;
      var left := hunted;
      ghost var li := hi;
      survived, si := [], [];
      while eat > 0.0 && |left| > 0
        invariant Huntable(li, prey) && Huntable(si, prey) && left == Pick(hs, li) && survived == Pick(hs, si)
        invariant a.species == Carnivore && a.phi.Some?
        invariant HuntFrom(c, a.State(), eat, li, si, prey, rng.uniform, rng.pos) == goal
        invariant States(hs) == prey
        decreases |left|
      {
        var herb := left[|left| - 1];
        ghost var j := li[|li| - 1];
        assert herb.State() == prey[j];
        var killed := a.Kill(c, herb.phi.value, rng);
        if killed {
          eat := Devour(c, a, herb, eat);
        } else {
          survived, si := survived + [herb], si + [j];
        }
        left, li := left[..|left| - 1], li[..|li| - 1];
      }
    }

    /** A kill: `carn_eating` on the prey's weight, then `fitness()`. */
    static method Devour(c: Constants, a: Animal, herb: Animal, eat: real) returns (left: real)
      requires a.species == Carnivore && a.phi.Some? && herb != a
      modifies a`weight, a`phi
      ensures a.State() == Feast(c, old(a.State()), herb.State(), eat)
      ensures left == MealLeft(herb.weight, eat)
    {
      ghost var before, prey := a.State(), herb.State();
      left := a.CarnEating(c, herb.weight, eat);
      ghost var fed := a.State();
      assert fed == before.(weight := before.weight + c.carnivore.beta * MealEaten(prey.weight, eat));
      var _ := a.Fitness(c);
      FedFeast(c, before, prey, eat, fed);
    }

    /**
     * What `birth()` makes of the cell, as `Breed` describes from the states of
     * `pop_herb + pop_carn`: the parents are in their states after giving birth, and each
     * list is the old one followed by the newborns of its species, in the order born.
     */
    twostate predicate Littered(c: Constants, rng: Random)
      reads this, herbs, carns, rng
    {
      var r := Breed(c, old(States(herbs + carns)), |old(herbs)|, |old(carns)|, rng.uniform, rng.normal, old(rng.pos));
      && |herbs| == |old(herbs)| + |r.herbBabies| && |carns| == |old(carns)| + |r.carnBabies|
      && herbs[..|old(herbs)|] == old(herbs) && carns[..|old(carns)|] == old(carns)
      && States(herbs[|old(herbs)|..]) == Newborns(Herbivore, r.herbBabies)
      && States(carns[|old(carns)|..]) == Newborns(Carnivore, r.carnBabies)
      && (assert forall a :: a in old(herbs + carns) ==> a in herbs[..|old(herbs)|] + carns[..|old(carns)|];
          States(old(herbs + carns)) == r.parents)
      && rng.pos == r.pos
    }

    /**
     * `birth()`: every not-walked animal of `pop_herb + pop_carn` tries to give birth, as
     * `Breed` describes; the newborns, fresh animals, are appended to the list of their
     * species after the pass, in the order they were born.
     */
    method Birth(c: Constants, rng: Random)
      requires Valid()
      modifies this`herbs, this`carns, Members(), rng
      ensures Valid() && Littered(c, rng)
      ensures forall a :: a in herbs + carns ==> a in old(herbs + carns) || fresh(a)
    {
      var all := herbs + carns;
      ghost var pre := States(all);
      ghost var pos0 := rng.pos;
      var newH, newC := BirthPass(c, all, |herbs|, |carns|, rng);
      ghost var r := Breed(c, pre, |herbs|, |carns|, rng.uniform, rng.normal, pos0);
      ghost var parents, bornH, bornC := States(all), States(newH), States(newC);
      assert parents == r.parents;
      assert bornH == Newborns(Herbivore, r.herbBabies) && bornC == Newborns(Carnivore, r.carnBabies);
      BirthValid(herbs, carns, newH, newC);
      Append(newH, newC, all);
    }

    /** Appends the newborns `newH` and `newC` to the lists of their species; no animal, of
        these or of the parents `all`, changes. */
    method Append(newH: seq<Animal>, newC: seq<Animal>, ghost all: seq<Animal>)
      modifies this`herbs, this`carns
      ensures herbs == old(herbs) + newH && carns == old(carns) + newC
      ensures States(newH) == old(States(newH)) && States(newC) == old(States(newC))
      ensures States(all) == old(States(all))
      ensures herbs[..|old(herbs)|] == old(herbs) && carns[..|old(carns)|] == old(carns)
      ensures herbs[|old(herbs)|..] == newH && carns[|old(carns)|..] == newC
    {
      herbs := herbs + newH;
      carns := carns + newC;
    }

    /** The loop of `birth()` over the list `all`, with `nh` and `nc` the list lengths it
        passes to `give_birth`. */
    static method BirthPass(c: Constants, all: seq<Animal>, nh: int, nc: int, rng: Random)
      returns (newH: seq<Animal>, newC: seq<Animal>)
      requires Distinct(all)
      modifies all, rng
      ensures var r := Breed(c, old(States(all)), nh, nc, rng.uniform, rng.normal, old(rng.pos));
        && States(all) == r.parents && rng.pos == r.pos
        && States(newH) == Newborns(Herbivore, r.herbBabies) && States(newC) == Newborns(Carnivore, r.carnBabies)
      ensures forall k :: 0 <= k < |newH| ==> fresh(newH[k])
      ensures forall k :: 0 <= k < |newC| ==> fresh(newC[k])
      ensures Distinct(newH + newC)
    {
      ghost var pre := States(all);
      ghost var h;
      newH, newC, h := BirthLoop(c, all, nh, nc, rng);
      assert pre[..|all|] == pre;
      assert forall k :: 0 <= k < |all| ==> all[k].State() == h.parents[k];
      NurseryStates(newH, newC, h.herbBabies, h.carnBabies);
    }

    /** The loop of `BirthPass`, with the pass `h` it makes. */
    static method BirthLoop(c: Constants, all: seq<Animal>, nh: int, nc: int, rng: Random)
      returns (newH: seq<Animal>, newC: seq<Animal>, ghost h: Breeding)
      requires Distinct(all)
      modifies all, rng
      ensures Bred(c, all, |all|, nh, nc, rng.uniform, rng.normal, old(rng.pos), old(States(all)), h) && rng.pos == h.pos
      ensures Nursery(newH, newC, h.herbBabies, h.carnBabies)
      ensures forall k :: 0 <= k < |newH| ==> fresh(newH[k])
      ensures forall k :: 0 <= k < |newC| ==> fresh(newC[k])
    {
      ghost var pre := States(all);
      h := Breeding([], [], [], rng.pos);
      newH, newC := [], [];
      for i := 0 to |all|
        invariant Bred(c, all, i, nh, nc, rng.uniform, rng.normal, old(rng.pos), pre, h) && rng.pos == h.pos
        invariant Nursery(newH, newC, h.herbBabies, h.carnBabies)
        invariant forall k :: 0 <= k < |newH| ==> fresh(newH[k])
        invariant forall k :: 0 <= k < |newC| ==> fresh(newC[k])
      {
        assert all[i] !in newH + newC;
        newH, newC, h := BirthAt(c, all, i, nh, nc, rng, newH, newC, pre, old(rng.pos), h);
      }
    }

    /** Step `i` of the loop of `birth()`: the animal `all[i]` takes its turn, and the pass
        so far, `h0`, grows by one `Breed` step. */
    static method BirthAt(c: Constants, all: seq<Animal>, i: nat, nh: int, nc: int, rng: Random,
                          herbs: seq<Animal>, carns: seq<Animal>, ghost pre: seq<Beast>, ghost pos0: nat, ghost h0: Breeding)
      returns (newH: seq<Animal>, newC: seq<Animal>, ghost h: Breeding)
      requires Distinct(all) && i < |all|
      requires Bred(c, all, i, nh, nc, rng.uniform, rng.normal, pos0, pre, h0) && rng.pos == h0.pos
      requires Nursery(herbs, carns, h0.herbBabies, h0.carnBabies) && all[i] !in herbs + carns
      modifies all[i], rng
      ensures Bred(c, all, i + 1, nh, nc, rng.uniform, rng.normal, pos0, pre, h) && rng.pos == h.pos
      ensures Nursery(newH, newC, h.herbBabies, h.carnBabies)
      ensures |herbs| <= |newH| && forall k :: 0 <= k < |newH| ==> if k < |herbs| then newH[k] == herbs[k] else fresh(newH[k])
      ensures |carns| <= |newC| && forall k :: 0 <= k < |newC| ==> if k < |carns| then newC[k] == carns[k] else fresh(newC[k])
    {
      var a := all[i];
      ghost var s;
      var baby;
      baby, h, s := BirthTurn(c, all, i, nh, nc, rng, pre, pos0, h0);
      if baby != null {
        assert baby !in herbs + carns;
      }
      newH, newC := Deliver(herbs, carns, baby, a.species, h0.herbBabies, h0.carnBabies);
    }

    /** The turn of the animal `all[i]` in `birth()`: it takes the `Bear` step that follows
        the pass so far, `h0`, and `baby` is the newborn, if any. */
    static method BirthTurn(c: Constants, all: seq<Animal>, i: nat, nh: int, nc: int, rng: Random,
                            ghost pre: seq<Beast>, ghost pos0: nat, ghost h0: Breeding)
      returns (baby: Animal?, ghost h: Breeding, ghost s: BirthResult)
      requires Distinct(all) && i < |all|
      requires Bred(c, all, i, nh, nc, rng.uniform, rng.normal, pos0, pre, h0) && rng.pos == h0.pos
      modifies all[i], rng
      ensures Bred(c, all, i + 1, nh, nc, rng.uniform, rng.normal, pos0, pre, h) && rng.pos == h.pos
      ensures s == Bear(c, pre[i], nh, nc, rng.uniform, rng.normal, h0.pos)
      ensures h.herbBabies == if all[i].species == Herbivore then h0.herbBabies + Born(s) else h0.herbBabies
      ensures h.carnBabies == if all[i].species == Herbivore then h0.carnBabies else h0.carnBabies + Born(s)
      ensures baby == null <==> s.baby.None?
      ensures baby != null ==> fresh(baby) && baby.State() == Newborn(all[i].species, s.baby.value)
    {
      var a := all[i];
      s := Bear(c, pre[i], nh, nc, rng.uniform, rng.normal, h0.pos);
      BreedSnoc(c, pre[..i], pre[i], nh, nc, rng.uniform, rng.normal, pos0);
      assert pre[..i + 1] == pre[..i] + [pre[i]];
      assert forall k :: 0 <= k < |all| && k != i ==> all[k] != a;
      baby := BirthOne(c, a, nh, nc, rng);
      ghost var parents := h0.parents + [s.parent];
      assert forall k :: 0 <= k <= i ==> all[k].State() == parents[k];
      h := if pre[i].species == Herbivore then Breeding(parents, h0.herbBabies + Born(s), h0.carnBabies, h0.pos + s.draws)
        else Breeding(parents, h0.herbBabies, h0.carnBabies + Born(s), h0.pos + s.draws);
    }

    /** The end of a turn in `birth()`: a newborn joins the newborns of its parent's species. */
    static method Deliver(herbs: seq<Animal>, carns: seq<Animal>, baby: Animal?, sp: Species, ghost hw: seq<real>, ghost cw: seq<real>)
      returns (newH: seq<Animal>, newC: seq<Animal>)
      requires Nursery(herbs, carns, hw, cw)
      requires baby != null ==> baby !in herbs + carns && baby.State() == Newborn(sp, baby.weight)
      ensures |herbs| <= |newH| && forall k :: 0 <= k < |newH| ==> if k < |herbs| then newH[k] == herbs[k] else newH[k] == baby
      ensures |carns| <= |newC| && forall k :: 0 <= k < |newC| ==> if k < |carns| then newC[k] == carns[k] else newC[k] == baby
      ensures baby == null ==> newH == herbs && newC == carns
      ensures baby != null && sp == Herbivore ==>
        newH == herbs + [baby] && newC == carns && Nursery(newH, newC, hw + [baby.weight], cw)
      ensures baby != null && sp == Carnivore ==>
        newH == herbs && newC == carns + [baby] && Nursery(newH, newC, hw, cw + [baby.weight])
    {
      newH, newC := herbs, carns;
      if baby != null {
        NurseryAdd(herbs, carns, hw, cw, baby, sp, baby.weight);
        if sp == Herbivore {
          newH := herbs + [baby];
        } else {
          newC := carns + [baby];
        }
      }
    }

    /** One animal's turn in `birth()`: `give_birth` with its own species' list length if it
        has not walked. */
    static method BirthOne(c: Constants, a: Animal, nh: int, nc: int, rng: Random) returns (baby: Animal?)
      modifies a, rng
      ensures var s := Bear(c, old(a.State()), nh, nc, rng.uniform, rng.normal, old(rng.pos));
        && a.State() == s.parent && rng.pos == old(rng.pos) + s.draws
        && (baby == null <==> s.baby.None?)
        && (baby != null ==> fresh(baby) && baby.State() == Newborn(a.species, s.baby.value))
    {
      baby := null;
      if a.notWalked && a.species == Herbivore {
        baby := a.GiveBirth(c, nh, rng);
      } else if a.notWalked && a.species == Carnivore {
        baby := a.GiveBirth(c, nc, rng);
      }
    }

    /**
     * What `survive()` makes of the cell whose animals of `pop_herb + pop_carn` were in
     * the states `bs`: unless both lists were empty, the lists hold the animals `Cull`
     * keeps, by species and in their old order, and every animal, kept or not, has its
     * fitness refreshed. Two empty lists stay empty, without a draw.
     */
    twostate predicate Culled(c: Constants, rng: Random, bs: seq<Beast>)
      reads *
    {
      if old(herbs) == [] && old(carns) == [] then herbs == [] && carns == [] && rng.pos == old(rng.pos)
      else
        var r := Cull(c, bs, rng.uniform, old(rng.pos));
        && States(old(herbs + carns)) == Refreshes(c, bs)
        && herbs == Pick(old(herbs + carns), r.herbs) && carns == Pick(old(herbs + carns), r.carns)
        && rng.pos == r.pos
    }

    /**
     * `survive()`: unless both lists are empty, every animal of `pop_herb + pop_carn` is
     * judged as `Cull` describes, and the lists are rebuilt from the kept animals by species,
     * in their old order. Every animal's fitness is refreshed on the way.
     */
    method Survive(c: Constants, rng: Random)
      requires Valid()
      modifies this`herbs, this`carns, Members(), rng
      ensures Valid() && Members() <= old(Members())
      ensures forall k :: 0 <= k < |carns| ==> carns[k].species == Carnivore
      ensures Culled(c, rng, old(States(herbs + carns)))
    {
      if herbs != [] || carns != [] {
        var all := herbs + carns;
        ghost var pre := States(all);
        ghost var pos0 := rng.pos;
        var aliveH, aliveC := SurvivePass(c, all, rng);
        ghost var r := Cull(c, pre, rng.uniform, pos0);
        ghost var post := States(all);
        CullOrdered(c, pre, rng.uniform, pos0);
        CullKinds(c, pre, rng.uniform, pos0);
        PickApart(all, r.herbs, r.carns);
        PickWithin(all, r.herbs);
        PickWithin(all, r.carns);
        Replace(aliveH, aliveC, all);
      }
    }

    /** Replaces the lists by `newH` and `newC`; no animal of `all` changes. */
    method Replace(newH: seq<Animal>, newC: seq<Animal>, ghost all: seq<Animal>)
      modifies this`herbs, this`carns
      ensures herbs == newH && carns == newC
      ensures States(all) == old(States(all))
    {
      herbs := newH;
      carns := newC;
    }

    /** The loop of `survive()` over the list `all`. */
    static method SurvivePass(c: Constants, all: seq<Animal>, rng: Random) returns (aliveH: seq<Animal>, aliveC: seq<Animal>)
      requires Distinct(all)
      modifies all, rng
      ensures var r := Cull(c, old(States(all)), rng.uniform, old(rng.pos));
        && aliveH == Pick(all, r.herbs) && aliveC == Pick(all, r.carns)
        && States(all) == Refreshes(c, old(States(all))) && rng.pos == r.pos
    {
      ghost var pre := States(all);
      ghost var h := Culling([], [], rng.pos);
      aliveH, aliveC := [], [];
      for i := 0 to |all|
        invariant h == Cull(c, pre[..i], rng.uniform, old(rng.pos)) && rng.pos == h.pos
        invariant aliveH == Pick(all, h.herbs) && aliveC == Pick(all, h.carns)
        invariant forall k :: 0 <= k < i ==> all[k].State() == Refreshed(c, pre[k])
        invariant forall k :: i <= k < |all| ==> all[k].State() == pre[k]
      {
        aliveH, aliveC, h := SurviveAt(c, all, i, rng, aliveH, aliveC, pre, old(rng.pos), h);
      }
      assert pre[..|all|] == pre;
    }

    /** Step `i` of the loop of `survive()`: the animal `all[i]` is judged, and the pass so
        far, `h0`, grows by one `Cull` step. */
    static method SurviveAt(c: Constants, all: seq<Animal>, i: nat, rng: Random, herbs: seq<Animal>, carns: seq<Animal>,
                            ghost pre: seq<Beast>, ghost pos0: nat, ghost h0: Culling)
      returns (aliveH: seq<Animal>, aliveC: seq<Animal>, ghost h: Culling)
      requires Distinct(all) && i < |all| == |pre|
      requires h0 == Cull(c, pre[..i], rng.uniform, pos0) && rng.pos == h0.pos
      requires herbs == Pick(all, h0.herbs) && carns == Pick(all, h0.carns)
      requires forall k :: 0 <= k < i ==> all[k].State() == Refreshed(c, pre[k])
      requires forall k :: i <= k < |all| ==> all[k].State() == pre[k]
      modifies all[i], rng
      ensures h == Cull(c, pre[..i + 1], rng.uniform, pos0) && rng.pos == h.pos
      ensures aliveH == Pick(all, h.herbs) && aliveC == Pick(all, h.carns)
      ensures forall k :: 0 <= k < i + 1 ==> all[k].State() == Refreshed(c, pre[k])
      ensures forall k :: i + 1 <= k < |all| ==> all[k].State() == pre[k]
    {
      var a := all[i];
      CullSnoc(c, pre[..i], pre[i], rng.uniform, pos0);
      assert pre[..i + 1] == pre[..i] + [pre[i]];
      assert forall k :: 0 <= k < |all| && k != i ==> all[k] != a;
      ghost var v := Judge(c, pre[i], rng.uniform, h0.pos);
      var keep := SurviveOne(c, a, rng);
      aliveH, aliveC := herbs, carns;
      if keep == Some(Herbivore) {
        PickSnoc(all, h0.herbs, i);
        aliveH := herbs + [a];
        h := Culling(h0.herbs + [i], h0.carns, h0.pos + v.draws);
      } else if keep == Some(Carnivore) {
        PickSnoc(all, h0.carns, i);
        aliveC := carns + [a];
        h := Culling(h0.herbs, h0.carns + [i], h0.pos + v.draws);
      } else {
        h := Culling(h0.herbs, h0.carns, h0.pos + v.draws);
      }
    }

    /** One animal's turn in `survive()`: one or two `survival()` calls and a `fitness()`
        test, as `Judge` describes. */
    static method SurviveOne(c: Constants, a: Animal, rng: Random) returns (keep: Option<Species>)
      modifies a`phi, rng
      ensures var v := Judge(c, old(a.State()), rng.uniform, old(rng.pos));
        && keep == v.keep && rng.pos == old(rng.pos) + v.draws
        && a.State() == Refreshed(c, old(a.State()))
    {
      keep := None;
      var first := a.Survival(c, rng);
      if first && a.species == Herbivore {
        var f := a.Fitness(c);
        if f != 0.0 {
          keep := Some(Herbivore);
        }
      } else {
        var second := a.Survival(c, rng);
        if second && a.species == Carnivore {
          var f := a.Fitness(c);
          if f != 0.0 {
            keep := Some(Carnivore);
          }
        }
      }
    }

    /** `age()`: every animal of both lists grows one year older; nothing else changes. */
    method Age()
      requires Valid()
      modifies herbs, carns
      ensures States(herbs) == Olders(old(States(herbs)))
      ensures States(carns) == Olders(old(States(carns)))
    {
      ghost var ph, pc := States(herbs), States(carns);
      StatesSplit(herbs, carns);
      AgeAll(herbs + carns);
      StatesSplit(herbs, carns);
      assert Olders(ph + pc) == Olders(ph) + Olders(pc);
      SplitEqual(States(herbs), States(carns), Olders(ph), Olders(pc));
    }

    /** `age()`'s loop: `aging()` on each animal of `all`. */
    static method AgeAll(all: seq<Animal>)
      requires Distinct(all)
      modifies all
      ensures States(all) == Olders(old(States(all)))
    {
      ghost var pre := States(all);
      for i := 0 to |all|
        invariant forall k :: 0 <= k < i ==> all[k].State() == Older(pre[k])
        invariant forall k :: i <= k < |all| ==> all[k].State() == pre[k]
      {
        assert forall k :: 0 <= k < |all| && k != i ==> all[k] != all[i];
        all[i].Aging();
      }
    }

    /** `weight_loss()`: every animal loses the fraction `eta` of its species. */
    method WeightLoss(c: Constants)
      requires Valid()
      modifies herbs, carns
      ensures States(herbs) == Slims(c, old(States(herbs)))
      ensures States(carns) == Slims(c, old(States(carns)))
    {
      ghost var ph, pc := States(herbs), States(carns);
      StatesSplit(herbs, carns);
      WeightLossAll(c, herbs + carns);
      StatesSplit(herbs, carns);
      assert Slims(c, ph + pc) == Slims(c, ph) + Slims(c, pc);
      SplitEqual(States(herbs), States(carns), Slims(c, ph), Slims(c, pc));
    }

    /** `weight_loss()`'s loop: `loose_weight()` on each animal of `all`. */
    static method WeightLossAll(c: Constants, all: seq<Animal>)
      requires Distinct(all)
      modifies all
      ensures States(all) == Slims(c, old(States(all)))
    {
      ghost var pre := States(all);
      for i := 0 to |all|
        invariant forall k :: 0 <= k < i ==> all[k].State() == Slimmed(c, pre[k])
        invariant forall k :: i <= k < |all| ==> all[k].State() == pre[k]
      {
        assert forall k :: 0 <= k < |all| && k != i ==> all[k] != all[i];
        all[i].LooseWeight(c);
      }
    }

    /** `set_not_walked_true()`: every animal may migrate again. */
    method SetNotWalkedTrue()
      modifies herbs, carns
      ensures var all := herbs + carns;
        forall k :: 0 <= k < |all| ==> all[k].State() == old(all[k].State()).(notWalked := true)
    {
      var all := herbs + carns;
      for i := 0 to |all|
        invariant forall k :: 0 <= k < i ==> all[k].State() == old(all[k].State()).(notWalked := true)
        invariant forall k :: i <= k < |all| ==> all[k].State() == old(all[k].State()) || all[k] in all[..i]
      {
        all[i].notWalked := true;
      }
    }

    // -------------------------------------------------------------------------
    // The phases as `cell_cycle` runs them
    // -------------------------------------------------------------------------

    /** `feeding_herb()` keeps the cell ready and adds no animal. */
    method HerbPhase(c: Constants, alpha: real)
      requires Valid() && Ready() && c.herbivore.F > 0.0
      modifies this`food, this`herbs, this`carns, Members()
      ensures Valid() && Ready() && HerbFed(c, alpha)
      ensures forall a :: a in herbs + carns ==> a in old(herbs + carns)
    {
      ghost var hs, cs, pc, m := herbs, carns, States(carns), Members();
      FeedingHerb(c, alpha);
      if (terrain == Jungle || terrain == Savannah) && hs != [] {
        RefreshedHunters(c, cs, pc);
      }
      Within(hs + cs, herbs + carns, m, Members());
    }

    /** `feeding_carn()` keeps the cell ready and adds no animal. */
    method CarnPhase(c: Constants, rng: Random)
      requires Valid() && Ready() && KillReady(c.carnivore)
      modifies this`herbs, this`carns, Members(), rng
      ensures Valid() && Ready() && CarnFed(c, rng)
      ensures forall a :: a in herbs + carns ==> a in old(herbs + carns)
    {
      ghost var hs, cs, ph, pc, pos, m := herbs, carns, States(herbs), States(carns), rng.pos, Members();
      FeedingCarn(c, rng);
      Within(hs + cs, herbs + carns, m, Members());
      if cs != [] && hs != [] {
        var eh := FitnessOrder(c, hs, ph);
        var ec := FitnessOrder(c, cs, pc);
        RefreshedHunters(c, cs, pc);
        StalkReady(c, BeastsOf(ec), BeastsOf(eh), rng.uniform, pos);
        StatesPick(AnimalsOf(eh), Stalk(c, BeastsOf(ec), BeastsOf(eh), rng.uniform, pos).survived);
      }
    }

    /** `birth()` keeps the cell ready; every animal it adds is new. */
    method BirthPhase(c: Constants, rng: Random)
      requires Valid() && Ready() && c.herbivore.xi > 0.0 && c.carnivore.xi > 0.0
      modifies this`herbs, this`carns, Members(), rng
      ensures Valid() && Ready() && Littered(c, rng)
      ensures forall a :: a in herbs + carns ==> a in old(herbs + carns) || fresh(a)
    {
      ghost var hs, cs, ph, pc, pos := herbs, carns, States(herbs), States(carns), rng.pos;
      StatesSplit(hs, cs);
      Birth(c, rng);
      ghost var r := Breed(c, ph + pc, |hs|, |cs|, rng.uniform, rng.normal, pos);
      BreedReady(c, ph, pc, rng.uniform, rng.normal, pos);
      StatesSplit(hs, cs);
      SplitEqual(States(hs), States(cs), r.parents[..|hs|], r.parents[|hs|..]);
      Halves(herbs, |hs|);
      Halves(carns, |cs|);
      StatesSplit(hs, herbs[|hs|..]);
      StatesSplit(cs, carns[|cs|..]);
    }

    /** `set_not_walked_true()`, `age()` and `weight_loss()`, as `Unwound` describes. */
    method Unwind(c: Constants)
      requires Valid()
      modifies herbs, carns
      ensures States(herbs) == Unwound(c, old(States(herbs)))
      ensures States(carns) == Unwound(c, old(States(carns)))
    {
      ghost var ph, pc := States(herbs), States(carns);
      SetNotWalkedTrue();
      assert forall k :: 0 <= k < |herbs| ==> (herbs + carns)[k] == herbs[k];
      assert forall k :: 0 <= k < |carns| ==> (herbs + carns)[|herbs| + k] == carns[k];
      assert States(herbs) == Frees(ph) && States(carns) == Frees(pc);
      Mature(c);
    }

    /** `age()` and then `weight_loss()`. */
    method Mature(c: Constants)
      requires Valid()
      modifies herbs, carns
      ensures States(herbs) == Slims(c, Olders(old(States(herbs))))
      ensures States(carns) == Slims(c, Olders(old(States(carns))))
    {
      Age();
      WeightLoss(c);
    }

    /** What the second pass of `cell_cycle` makes of the cell: `survive()` judges the
        states `set_not_walked_true()`, `age()` and `weight_loss()` left. */
    twostate predicate YearEnded(c: Constants, rng: Random)
      reads *
    {
      Culled(c, rng, Unwound(c, old(States(herbs + carns))))
    }

    /** The second pass of `cell_cycle` on the cell: `set_not_walked_true()`, `age()`,
        `weight_loss()` and `survive()` leave it rested, with no animal added. */
    method RestPhase(c: Constants, rng: Random)
      requires Valid()
      modifies this`herbs, this`carns, Members(), rng
      ensures Valid() && Rested() && YearEnded(c, rng)
      ensures forall a :: a in herbs + carns ==> a in old(herbs + carns)
    {
      ghost var m, ph, pc := Members(), States(herbs), States(carns);
      StatesSplit(herbs, carns);
      Unwind(c);
      var all := herbs + carns;
      ghost var bs, pos := States(all), rng.pos;
      StatesSplit(herbs, carns);
      UnwoundSpec(c, ph, pc);
      assert bs == Unwound(c, ph + pc);
      Survive(c, rng);
      CullRests(c, bs, rng.uniform, pos);
      ghost var r := Cull(c, bs, rng.uniform, pos);
      StatesPick(all, r.herbs);
      StatesPick(all, r.carns);
      Within(all, herbs + carns, m, Members());
    }
  }
}
