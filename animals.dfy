/**
 * Per-animal rules of biosim/animals.py: the species constant tables and their
 * validated update, fitness, the movement decision, feeding, birth, weight loss,
 * ageing and survival, and the carnivore's kill decision.
 *
 * Every random draw comes from a `Random` object. The factor `1 / (1 + math.exp(x))` of
 * the fitness formula is the function `logistic` held by the parameter store, of which
 * nothing is assumed but what a positive `exp` gives: its values lie strictly in (0, 1).
 * Each rule is a pure function of the animal's state and its draws; the methods of `Animal` update the object as the Python methods do and
 * are specified by those functions.
 */
module Animals {
  import opened Util
  import opened RandomSource

  datatype Species = Herbivore | Carnivore
  datatype Direction = North | East | South | West

  /** A stand-in for `x => 1 / (1 + math.exp(x))`. */
  type LogisticFn = real -> real

  /** What a positive `exp` makes of the stand-in: every value lies strictly in (0, 1). */
  ghost predicate IsLogistic(f: LogisticFn)
  {
    forall x :: 0.0 < f(x) < 1.0
  }

  // ---------------------------------------------------------------------------
  // Species constants
  // ---------------------------------------------------------------------------

  /** The class attributes of `Herbivore` or `Carnivore`. `Herbivore` has no `DeltaPhiMax`
      until one is set, hence the option. */
  datatype AnimalParams = AnimalParams(
    phiAge: real, aHalf: real, phiWeight: real, wHalf: real,
    wBirth: real, sigmaBirth: real, omega: real, beta: real,
    gamma: real, eta: real, mu: real, zeta: real, xi: real,
    F: real, deltaPhiMax: Option<real>)

  const HerbivoreDefaults := AnimalParams(0.2, 40.0, 0.1, 10.0, 8.0, 1.5, 0.4, 0.9,
                                          0.2, 0.05, 0.25, 3.5, 1.2, 10.0, None)
  const CarnivoreDefaults := AnimalParams(0.4, 60.0, 0.4, 4.0, 6.0, 1.0, 0.9, 0.75,
                                          0.8, 0.125, 0.4, 3.5, 1.1, 50.0, Some(10.0))

  /** The fifteen constants `set_parameters` accepts. */
  datatype Param = PhiAge | AHalf | PhiWeight | WHalf | WBirth | SigmaBirth | Omega | Beta
                 | Gamma | Eta | Mu | Zeta | Xi | F | DeltaPhiMax

  /** The attribute name of each constant, as the batch passed to `set_parameters` spells it. */
  function Key(p: Param): string
  {
    match p
    case PhiAge => "phi_age"
    case AHalf => "a_half"
    case PhiWeight => "phi_weight"
    case WHalf => "w_half"
    case WBirth => "w_birth"
    case SigmaBirth => "sigma_birth"
    case Omega => "omega"
    case Beta => "beta"
    case Gamma => "gamma"
    case Eta => "eta"
    case Mu => "mu"
    case Zeta => "zeta"
    case Xi => "xi"
    case F => "F"
    case DeltaPhiMax => "DeltaPhiMax"
  }

  /** The constant a key names, if it is one of the fifteen accepted names. */
  function ParamNamed(key: string): (r: Option<Param>)
    ensures r.Some? ==> Key(r.value) == key
  {
    match key
    case "phi_age" => Some(PhiAge)
    case "a_half" => Some(AHalf)
    case "phi_weight" => Some(PhiWeight)
    case "w_half" => Some(WHalf)
    case "w_birth" => Some(WBirth)
    case "sigma_birth" => Some(SigmaBirth)
    case "omega" => Some(Omega)
    case "beta" => Some(Beta)
    case "gamma" => Some(Gamma)
    case "eta" => Some(Eta)
    case "mu" => Some(Mu)
    case "zeta" => Some(Zeta)
    case "xi" => Some(Xi)
    case "F" => Some(F)
    case "DeltaPhiMax" => Some(DeltaPhiMax)
    case _ => None
  }

  /** Every constant's name is accepted, and names that constant: a key is rejected exactly
      when it is no constant's name. */
  lemma KeyRoundTrip(p: Param)
    ensures ParamNamed(Key(p)) == Some(p)
  {
    match p
    case PhiAge =>
    case AHalf =>
    case PhiWeight =>
    case WHalf =>
    case WBirth =>
    case SigmaBirth =>
    case Omega =>
    case Beta =>
    case Gamma =>
    case Eta =>
    case Mu =>
    case Zeta =>
    case Xi =>
    case F =>
    case DeltaPhiMax =>
  }

  /** The constants whose limits are (0, 1); every other one has (0, infinity). */
  predicate IsRate(p: Param)
  {
    p.PhiAge? || p.Omega? || p.Beta? || p.Gamma? || p.Eta? || p.Mu?
  }

  /** `param_animal_limits[key][0] < value < param_animal_limits[key][1]` */
  predicate WithinLimits(p: Param, v: real)
  {
    0.0 < v && (IsRate(p) ==> v < 1.0)
  }

  /** `getattr(cls, key)`; None for a `DeltaPhiMax` the class does not have. */
  function Lookup(t: AnimalParams, p: Param): Option<real>
  {
    match p
    case PhiAge => Some(t.phiAge)
    case AHalf => Some(t.aHalf)
    case PhiWeight => Some(t.phiWeight)
    case WHalf => Some(t.wHalf)
    case WBirth => Some(t.wBirth)
    case SigmaBirth => Some(t.sigmaBirth)
    case Omega => Some(t.omega)
    case Beta => Some(t.beta)
    case Gamma => Some(t.gamma)
    case Eta => Some(t.eta)
    case Mu => Some(t.mu)
    case Zeta => Some(t.zeta)
    case Xi => Some(t.xi)
    case F => Some(t.F)
    case DeltaPhiMax => t.deltaPhiMax
  }

  /** `setattr(cls, key, v)`; `AssignFrame` says that exactly the named constant changes. */
  function Assign(t: AnimalParams, p: Param, v: real): AnimalParams
  {
    match p
    case PhiAge => t.(phiAge := v)
    case AHalf => t.(aHalf := v)
    case PhiWeight => t.(phiWeight := v)
    case WHalf => t.(wHalf := v)
    case WBirth => t.(wBirth := v)
    case SigmaBirth => t.(sigmaBirth := v)
    case Omega => t.(omega := v)
    case Beta => t.(beta := v)
    case Gamma => t.(gamma := v)
    case Eta => t.(eta := v)
    case Mu => t.(mu := v)
    case Zeta => t.(zeta := v)
    case Xi => t.(xi := v)
    case F => t.(F := v)
    case DeltaPhiMax => t.(deltaPhiMax := Some(v))
  }

  /** Writing a constant changes it to the value written and leaves every other one alone. */
  lemma AssignFrame(t: AnimalParams, p: Param, v: real)
    ensures Lookup(Assign(t, p, v), p) == Some(v)
    ensures forall q :: q != p ==> Lookup(Assign(t, p, v), q) == Lookup(t, q)
  {
  }

  /** Every constant the table holds lies strictly inside its limits, field by field. */
  predicate ValidTable(t: AnimalParams)
  {
    && 0.0 < t.phiAge < 1.0 && 0.0 < t.aHalf && 0.0 < t.phiWeight && 0.0 < t.wHalf
    && 0.0 < t.wBirth && 0.0 < t.sigmaBirth && 0.0 < t.omega < 1.0 && 0.0 < t.beta < 1.0
    && 0.0 < t.gamma < 1.0 && 0.0 < t.eta < 1.0 && 0.0 < t.mu < 1.0
    && 0.0 < t.zeta && 0.0 < t.xi && 0.0 < t.F
    && (t.deltaPhiMax.Some? ==> 0.0 < t.deltaPhiMax.value)
  }

  /** The field-by-field condition says exactly that every constant `getattr` finds is
      within the limits `set_parameters` enforces. */
  lemma ValidTableByName(t: AnimalParams)
    ensures ValidTable(t) <==>
      forall p :: Lookup(t, p).Some? ==> WithinLimits(p, Lookup(t, p).value)
  {
    if forall p :: Lookup(t, p).Some? ==> WithinLimits(p, Lookup(t, p).value) {
      assert Lookup(t, PhiAge).Some? && Lookup(t, AHalf).Some? && Lookup(t, PhiWeight).Some?;
      assert Lookup(t, WHalf).Some? && Lookup(t, WBirth).Some? && Lookup(t, SigmaBirth).Some?;
      assert Lookup(t, Omega).Some? && Lookup(t, Beta).Some? && Lookup(t, Gamma).Some?;
      assert Lookup(t, Eta).Some? && Lookup(t, Mu).Some? && Lookup(t, Zeta).Some?;
      assert Lookup(t, Xi).Some? && Lookup(t, F).Some? && Lookup(t, DeltaPhiMax) == t.deltaPhiMax;
    }
  }

  /** Writing a value within its limits keeps a valid table valid. */
  lemma AssignKeepsValid(t: AnimalParams, p: Param, v: real)
    requires ValidTable(t) && WithinLimits(p, v)
    ensures ValidTable(Assign(t, p, v))
  {
  }

  /** The built-in tables are valid. */
  lemma DefaultsValid()
    ensures ValidTable(HerbivoreDefaults) && ValidTable(CarnivoreDefaults)
  {
  }

  datatype ConfigError = KeyError(key: string) | ValueError

  /** The batch with its keys resolved, or the first key that names no constant. */
  datatype Resolution = Known(writes: seq<(Param, real)>) | Unknown(key: string)

  function Resolve(batch: seq<(string, real)>): (r: Resolution)
    ensures r.Unknown? ==> ParamNamed(r.key).None?
    ensures r.Known? ==> |r.writes| == |batch|
  {
    if batch == [] then Known([])
    else match ParamNamed(batch[0].0)
      case None => Unknown(batch[0].0)
      case Some(p) =>
        match Resolve(batch[1..])
        case Unknown(k) => Unknown(k)
        case Known(w) => Known([(p, batch[0].1)] + w)
  }

  /** A resolved batch writes, pair by pair, the constant each key names and the value
      paired with it. */
  lemma {:induction false} ResolvedWrites(batch: seq<(string, real)>)
    requires Resolve(batch).Known?
    ensures forall i :: 0 <= i < |batch| ==>
      var (p, v) := Resolve(batch).writes[i];
      Key(p) == batch[i].0 && v == batch[i].1
    decreases |batch|
  {
    if batch != [] {
      ResolvedWrites(batch[1..]);
      var w := Resolve(batch).writes;
      forall i | 0 <= i < |batch|
        ensures Key(w[i].0) == batch[i].0 && w[i].1 == batch[i].1
      {
        if i > 0 {
          assert w[i] == Resolve(batch[1..]).writes[i - 1];
          assert batch[i] == batch[1..][i - 1];
        }
      }
    }
  }

  /** The key `Resolve` reports is the first key that names no constant. */
  lemma {:induction false} ResolveStopsAt(batch: seq<(string, real)>, i: nat)
    requires i < |batch| && ParamNamed(batch[i].0).None?
    requires forall k :: 0 <= k < i ==> ParamNamed(batch[k].0).Some?
    ensures Resolve(batch) == Unknown(batch[i].0)
    decreases i
  {
    if i > 0 {
      ResolveStopsAt(batch[1..], i - 1);
    }
  }

  /** A batch whose keys all name constants resolves. */
  lemma {:induction false} ResolveAllKnown(batch: seq<(string, real)>)
    requires forall k :: 0 <= k < |batch| ==> ParamNamed(batch[k].0).Some?
    ensures Resolve(batch).Known?
    decreases |batch|
  {
    if batch != [] {
      ResolveAllKnown(batch[1..]);
    }
  }

  /** How many writes happen before the first value outside its limits. */
  function ValidPrefix(writes: seq<(Param, real)>): (n: nat)
    ensures n <= |writes|
    ensures forall i :: 0 <= i < n ==> WithinLimits(writes[i].0, writes[i].1)
    ensures n < |writes| ==> !WithinLimits(writes[n].0, writes[n].1)
  {
    if writes == [] then 0
    else if !WithinLimits(writes[0].0, writes[0].1) then 0
    else 1 + ValidPrefix(writes[1..])
  }

  lemma {:induction false} ValidPrefixAt(writes: seq<(Param, real)>, n: nat)
    requires n <= |writes|
    requires forall k :: 0 <= k < n ==> WithinLimits(writes[k].0, writes[k].1)
    requires n < |writes| ==> !WithinLimits(writes[n].0, writes[n].1)
    ensures ValidPrefix(writes) == n
    decreases n
  {
    if n > 0 {
      ValidPrefixAt(writes[1..], n - 1);
    }
  }

  /** The writes in order. */
  function ApplyAll(t: AnimalParams, writes: seq<(Param, real)>): AnimalParams
    decreases |writes|
  {
    if writes == [] then t
    else ApplyAll(Assign(t, writes[0].0, writes[0].1), writes[1..])
  }

  /** Writes of values within their limits keep a valid table valid. */
  lemma {:induction false} ApplyAllKeepsValid(t: AnimalParams, writes: seq<(Param, real)>)
    requires ValidTable(t)
    requires forall i :: 0 <= i < |writes| ==> WithinLimits(writes[i].0, writes[i].1)
    ensures ValidTable(ApplyAll(t, writes))
    ensures t.deltaPhiMax.Some? ==> ApplyAll(t, writes).deltaPhiMax.Some?
    decreases |writes|
  {
    if writes != [] {
      AssignKeepsValid(t, writes[0].0, writes[0].1);
      ApplyAllKeepsValid(Assign(t, writes[0].0, writes[0].1), writes[1..]);
    }
  }

  /** The last write of a constant decides its value; a constant never written keeps its own. */
  lemma {:induction false} ApplyAllLookup(t: AnimalParams, writes: seq<(Param, real)>, p: Param)
    ensures Lookup(ApplyAll(t, writes), p) ==
      if exists i :: 0 <= i < |writes| && writes[i].0 == p
      then Some(writes[LastWrite(writes, p)].1)
      else Lookup(t, p)
    decreases |writes|
  {
    if writes != [] {
      var t' := Assign(t, writes[0].0, writes[0].1);
      AssignFrame(t, writes[0].0, writes[0].1);
      ApplyAllLookup(t', writes[1..], p);
      if exists i :: 0 <= i < |writes[1..]| && writes[1..][i].0 == p {
        var i :| 0 <= i < |writes[1..]| && writes[1..][i].0 == p;
        assert writes[i + 1].0 == p;
        assert LastWrite(writes, p) == 1 + LastWrite(writes[1..], p);
      } else if writes[0].0 == p {
        assert LastWrite(writes, p) == 0;
      } else {
        assert !exists i :: 0 <= i < |writes| && writes[i].0 == p by {
          forall i | 0 <= i < |writes| ensures writes[i].0 != p {
            if i > 0 { assert writes[i] == writes[1..][i - 1]; }
          }
        }
      }
    }
  }

  /** The index of the last write of `p`. */
  function LastWrite(writes: seq<(Param, real)>, p: Param): (i: nat)
    requires exists i :: 0 <= i < |writes| && writes[i].0 == p
    ensures i < |writes| && writes[i].0 == p
    ensures forall j :: i < j < |writes| ==> writes[j].0 != p
    decreases |writes|
  {
    if exists i :: 0 <= i < |writes[1..]| && writes[1..][i].0 == p then
      1 + LastWrite(writes[1..], p)
    else
      assert forall j :: 0 < j < |writes| ==> writes[j].0 != p by {
        forall j | 0 < j < |writes| ensures writes[j].0 != p {
          assert writes[j] == writes[1..][j - 1];
        }
      }
      0
  }

  /** Splitting the writes: applying a prefix and then one more is applying the longer prefix. */
  lemma {:induction false} ApplyAllSnoc(t: AnimalParams, writes: seq<(Param, real)>, n: nat)
    requires n < |writes|
    ensures ApplyAll(t, writes[..n + 1]) == Assign(ApplyAll(t, writes[..n]), writes[n].0, writes[n].1)
    decreases n
  {
    if n > 0 {
      assert writes[..n + 1][1..] == writes[1..][..n];
      assert writes[..n][1..] == writes[1..][..n - 1];
      ApplyAllSnoc(Assign(t, writes[0].0, writes[0].1), writes[1..], n - 1);
    } else {
      assert writes[..1][1..] == [];
    }
  }

  /** The pure content of the parameter store, as the rules read it. */
  datatype Constants = Constants(herbivore: AnimalParams, carnivore: AnimalParams, logistic: LogisticFn)
  {
    function For(s: Species): AnimalParams
    {
      if s == Herbivore then herbivore else carnivore
    }

    ghost predicate Valid()
    {
      ValidTable(herbivore) && ValidTable(carnivore) && carnivore.deltaPhiMax.Some? &&
      IsLogistic(logistic)
    }
  }

  /**
   * The class attributes of `Herbivore` and `Carnivore`, shared by every animal of the
   * species, together with the logistic factor the fitness formula uses.
   */
  class SpeciesParameters {
    var herbivore: AnimalParams
    var carnivore: AnimalParams
    const logistic: LogisticFn

    ghost predicate Valid()
      reads this
    {
      Tables().Valid()
    }

    function Tables(): Constants
      reads this
    {
      Constants(herbivore, carnivore, logistic)
    }

    constructor (logistic: LogisticFn)
      requires IsLogistic(logistic)
      ensures Valid()
      ensures herbivore == HerbivoreDefaults && carnivore == CarnivoreDefaults && this.logistic == logistic
    {
      herbivore := HerbivoreDefaults;
      carnivore := CarnivoreDefaults;
      this.logistic := logistic;
      new;
      DefaultsValid();
    }

    /**
     * `Herbivore.set_parameters(batch)` or `Carnivore.set_parameters(batch)`. A key that
     * names no constant is reported before anything is written (`ResolveStopsAt` says it
     * is the first such key); otherwise the pairs are written as `ApplyWrites` describes.
     */
    method SetParameters(species: Species, batch: seq<(string, real)>) returns (err: Option<ConfigError>)
      requires Valid()
      modifies this
      ensures Valid()
      ensures Resolve(batch).Unknown? ==>
        err == Some(KeyError(Resolve(batch).key)) &&
        herbivore == old(herbivore) && carnivore == old(carnivore)
      ensures Resolve(batch).Known? ==>
        var w := Resolve(batch).writes;
        var n := ValidPrefix(w);
        && err == (if n < |w| then Some(ValueError) else None)
        && Tables().For(species) == ApplyAll(old(Tables().For(species)), w[..n])
        && Tables().For(Other(species)) == old(Tables().For(Other(species)))
    {
      match Resolve(batch)
      case Unknown(key) =>
        err := Some(KeyError(key));
      case Known(w) =>
        err := ApplyWrites(species, w);
    }

    /**
     * The second loop of `set_parameters`: the pairs are written in order and the first
     * value outside its limits stops the writing with a `ValueError`, the earlier writes
     * staying in place. The writes are collected in `t` and stored once, which no caller
     * can tell apart from storing them one by one.
     */
    method ApplyWrites(species: Species, w: seq<(Param, real)>) returns (err: Option<ConfigError>)
      requires Valid()
      modifies this
      ensures Valid()
      ensures var n := ValidPrefix(w);
        && err == (if n < |w| then Some(ValueError) else None)
        && Tables().For(species) == ApplyAll(old(Tables().For(species)), w[..n])
        && Tables().For(Other(species)) == old(Tables().For(Other(species)))
    {
      var t := Tables().For(species);
      ghost var t0 := t;
      var n := 0;
      while n < |w| && WithinLimits(w[n].0, w[n].1)
        modifies {}
        invariant 0 <= n <= |w|
        invariant forall k :: 0 <= k < n ==> WithinLimits(w[k].0, w[k].1)
        invariant t == ApplyAll(t0, w[..n])
      {
        ApplyAllSnoc(t0, w, n);
        t := Assign(t, w[n].0, w[n].1);
        n := n + 1;
      }
      ValidPrefixAt(w, n);
      ApplyAllKeepsValid(t0, w[..n]);
      assert ValidTable(t);
      if species == Herbivore {
        herbivore := t;
      } else {
        carnivore := t;
      }

      err := if n < |w| then Some(ValueError) else None;
    }
  }

  function Other(s: Species): Species
  {
    if s == Herbivore then Carnivore else Herbivore
  }

  // ---------------------------------------------------------------------------
  // The rules, as functions of an animal's state and its draws
  // ---------------------------------------------------------------------------

  /** `fitness()`: 0 for a non-positive weight, otherwise the product of an age term and a
      weight term, strictly between 0 and 1. */
  function FitnessOf(t: AnimalParams, logistic: LogisticFn, age: int, weight: real): (phi: real)
    ensures weight <= 0.0 ==> phi == 0.0
  {
    if weight <= 0.0 then 0.0
    else logistic(t.phiAge * (age as real - t.aHalf)) * logistic(-t.phiWeight * (weight - t.wHalf))
  }

  /** A positive weight has a fitness strictly between 0 and 1. */
  lemma FitnessBounds(t: AnimalParams, logistic: LogisticFn, age: int, weight: real)
    requires IsLogistic(logistic)
    ensures weight > 0.0 ==> 0.0 < FitnessOf(t, logistic, age, weight) < 1.0
    ensures weight <= 0.0 ==> FitnessOf(t, logistic, age, weight) == 0.0
  {
    if weight > 0.0 {
      var a := logistic(t.phiAge * (age as real - t.aHalf));
      var w := logistic(-t.phiWeight * (weight - t.wHalf));
      ProductOfFractions(a, w);
    }
  }

  lemma ProductOfFractions(a: real, b: real)
    requires 0.0 < a < 1.0 && 0.0 < b < 1.0
    ensures 0.0 < a * b < b
  {
  }

  /** The cached `phi` after a call of `fitness()`: refreshed only for a positive weight. */
  function CachedFitness(t: AnimalParams, logistic: LogisticFn, age: int, weight: real, phi: Option<real>): Option<real>
  {
    if weight > 0.0 then Some(FitnessOf(t, logistic, age, weight)) else phi
  }

  /** `move_dir`'s split of `randint(1, 20)` into four directions. */
  function Bucket(k: int): Direction
    requires 1 <= k <= 20
  {
    if k < 6 then North else if k < 11 then East else if k < 16 then South else West
  }

  /** Each direction is chosen by exactly five of the twenty values of `randint(1, 20)`. */
  lemma BucketsAreEqual(d: Direction)
    ensures |set k | 1 <= k <= 20 && Bucket(k) == d| == 5
  {
    var s := set k | 1 <= k <= 20 && Bucket(k) == d;
    var lo := match d case North => 1 case East => 6 case South => 11 case West => 16;
    assert s == {lo, lo + 1, lo + 2, lo + 3, lo + 4} by {
      forall k | k in s ensures k in {lo, lo + 1, lo + 2, lo + 3, lo + 4} {
      }
      forall k | k in {lo, lo + 1, lo + 2, lo + 3, lo + 4} ensures k in s {
      }
    }
  }

  /** `move_dir` with its draws: `u` from `random()`, `raw` behind `randint(1, 20)`. */
  function MoveChoice(t: AnimalParams, logistic: LogisticFn, age: int, weight: real, u: real, raw: nat): (d: Option<Direction>)
    ensures d.None? <==> u > t.mu * FitnessOf(t, logistic, age, weight)
    ensures d.Some? ==> d.value == Bucket(RandIntValue(raw, 1, 20))
  {
    if u <= t.mu * FitnessOf(t, logistic, age, weight) then Some(Bucket(RandIntValue(raw, 1, 20)))
    else None
  }

  /** Food left after `herb_eating(food)`: never negative, never more than there was. */
  function GrazeLeft(food: real, appetite: real): (left: real)
    requires appetite > 0.0
    ensures food >= 0.0 ==> 0.0 <= left <= food
    ensures food >= appetite ==> food - left == appetite
    ensures food < appetite ==> left == 0.0
  {
    if food >= appetite then food - appetite else 0.0
  }

  /**
   * The amount `herb_eating(food)` passes to `eat_gain_weight`. When the food is short the
   * source credits the SHORTFALL `appetite - food`, not the food eaten; the amount is
   * always positive.
   */
  function GrazeGain(food: real, appetite: real): (gain: real)
    requires appetite > 0.0
    ensures gain > 0.0
    ensures food >= appetite ==> gain == appetite
    ensures food < appetite ==> food + gain == appetite
  {
    if food >= appetite then appetite else appetite - food
  }

  /** As written, less food on offer below the appetite yields a larger meal. */
  lemma ShortfallQuirk(f1: real, f2: real, appetite: real)
    requires 0.0 <= f1 < f2 < appetite
    ensures GrazeGain(f1, appetite) > GrazeGain(f2, appetite)
    ensures GrazeGain(0.0, appetite) == appetite
  {
  }

  /** `kill`'s probability: 0 when the carnivore is not fitter, 1 when it is fitter by at
      least `DeltaPhiMax`, and proportional to the gap in between. */
  function KillProbability(phiCarn: real, phiHerb: real, deltaPhiMax: real): (p: real)
    requires deltaPhiMax > 0.0
    ensures 0.0 <= p <= 1.0
    ensures p == 0.0 <==> phiCarn <= phiHerb
    ensures p == 1.0 <==> phiCarn - phiHerb >= deltaPhiMax
    ensures 0.0 < phiCarn - phiHerb < deltaPhiMax ==> p * deltaPhiMax == phiCarn - phiHerb
  {
    if phiCarn <= phiHerb then 0.0
    else if 0.0 < phiCarn - phiHerb < deltaPhiMax then
      var p := (phiCarn - phiHerb) / deltaPhiMax;
      assert 0.0 < p < 1.0 by { FractionBounds(phiCarn - phiHerb, deltaPhiMax); }
      p
    else 1.0
  }

  lemma FractionBounds(a: real, b: real)
    requires 0.0 < a < b
    ensures 0.0 < a / b < 1.0 && (a / b) * b == a
  {
    assert b / b == 1.0;
    assert a / b < b / b;
  }

  /** The constants `kill` needs: a positive `DeltaPhiMax`, which every valid carnivore table has. */
  predicate KillReady(t: AnimalParams)
  {
    t.deltaPhiMax.Some? && t.deltaPhiMax.value > 0.0
  }

  /** What `carn_eating(available, toEat)` eats: the smaller of the two. */
  function MealEaten(available: real, toEat: real): (eaten: real)
    ensures eaten <= available && eaten <= toEat
    ensures eaten == available || eaten == toEat
  {
    if available >= toEat then toEat else available
  }

  /** What `carn_eating` returns: the appetite still unsatisfied. */
  function MealLeft(available: real, toEat: real): (left: real)
    ensures left + MealEaten(available, toEat) == toEat
    ensures left >= 0.0
    ensures available >= 0.0 && toEat >= 0.0 ==> left <= toEat
    ensures left == 0.0 <==> available >= toEat
  {
    if available >= toEat then 0.0 else toEat - available
  }

  /** `survival()`'s death rate `omega * (1 - fitness)`. */
  function DeathRate(t: AnimalParams, logistic: LogisticFn, age: int, weight: real): real
  {
    t.omega * (1.0 - FitnessOf(t, logistic, age, weight))
  }

  /** `survival()` with its draw `u`: truthy only for a positive weight and a draw above
      the death rate. */
  function Survives(t: AnimalParams, logistic: LogisticFn, age: int, weight: real, u: real): (alive: bool)
    ensures alive ==> weight > 0.0
    ensures alive <==> weight > 0.0 && DeathRate(t, logistic, age, weight) < u
  {
    DeathRate(t, logistic, age, weight) < u && weight > 0.0
  }

  /** A draw of 0 is always fatal; a draw of at least `omega` always spares a positive weight. */
  lemma SurvivalExtremes(t: AnimalParams, logistic: LogisticFn, age: int, weight: real, u: real)
    requires ValidTable(t) && IsLogistic(logistic)
    ensures !Survives(t, logistic, age, weight, 0.0)
    ensures weight > 0.0 && u >= t.omega ==> Survives(t, logistic, age, weight, u)
  {
    FitnessBounds(t, logistic, age, weight);
    var phi := FitnessOf(t, logistic, age, weight);
    var rate := t.omega * (1.0 - phi);
    assert 0.0 <= phi < 1.0;
    assert 1.0 - phi > 0.0;
    assert rate > 0.0;
    assert DeathRate(t, logistic, age, weight) == rate;
    if weight > 0.0 {
      assert 1.0 - phi < 1.0;
      assert rate < t.omega;
    }
  }

  /** The weight `give_birth` requires: `zeta * (w_birth + sigma_birth)`. */
  function BirthThreshold(t: AnimalParams): real
  {
    t.zeta * (t.wBirth + t.sigmaBirth)
  }

  function Min(a: real, b: real): real
  {
    if a <= b then a else b
  }

  /** `min(1, gamma * fitness * (n - 1))`. */
  function BirthProbability(t: AnimalParams, phi: real, n: int): real
  {
    Min(1.0, t.gamma * phi * (n - 1) as real)
  }

  /** A snapshot of an animal's fields. */
  datatype Beast = Beast(species: Species, age: int, weight: real, phi: Option<real>, notWalked: bool)

  /** One call of `give_birth`: the parent afterwards, the newborn's weight (if any) and the
      number of draws made. */
  datatype BirthResult = BirthResult(parent: Beast, baby: Option<real>, draws: nat)

  /**
   * `give_birth(species, n)` for an animal in state `b`, whose first draw would be stream
   * position `pos`. A birth needs the weight threshold, the `random()` draw within the
   * birth probability, a positive `gauss` draw and a parent that stays positive; it
   * then costs the parent exactly `xi` times the newborn's weight.
   */
  function BirthStep(t: AnimalParams, logistic: LogisticFn, b: Beast, n: int,
                     u: nat -> Unit, z: nat -> real, pos: nat): (r: BirthResult)
    ensures r.parent.species == b.species && r.parent.age == b.age && r.parent.notWalked == b.notWalked
    ensures r.draws <= 2
    ensures b.weight < BirthThreshold(t) ==> r == BirthResult(b, None, 0)
    ensures r.baby.None? ==> r.parent.weight == b.weight
    ensures r.baby.Some? ==>
      && b.weight >= BirthThreshold(t)
      && u(pos) as real <= BirthProbability(t, FitnessOf(t, logistic, b.age, b.weight), n)
      && r.baby.value > 0.0
      && r.parent.weight == b.weight - t.xi * r.baby.value
      && r.parent.weight > 0.0
      && r.draws == 2
    ensures r.baby.Some? && t.xi > 0.0 ==> r.parent.weight < b.weight
    ensures b.phi.Some? ==> r.parent.phi.Some?
  {
    if b.weight >= BirthThreshold(t) then
      var phi := FitnessOf(t, logistic, b.age, b.weight);
      var b1 := b.(phi := CachedFitness(t, logistic, b.age, b.weight, b.phi));
      if u(pos) as real <= BirthProbability(t, phi, n) then
        var wb := GaussValue(t.wBirth, t.sigmaBirth, z(pos + 1));
        if wb > 0.0 && b.weight - t.xi * wb > 0.0 then
          BirthResult(b1.(weight := b.weight - t.xi * wb), Some(wb), 2)
        else BirthResult(b1, None, 2)
      else BirthResult(b1, None, 1)
    else BirthResult(b, None, 0)
  }

  // ---------------------------------------------------------------------------
  // Animal objects
  // ---------------------------------------------------------------------------

  class Animal {
    const species: Species
    var age: int
    var weight: real
    /** The cached fitness; None until `fitness()` has run on a positive weight. */
    var phi: Option<real>
    /** False once the animal has migrated this year. */
    var notWalked: bool

    constructor (species: Species, age: int, weight: real)
      ensures this.species == species && this.age == age && this.weight == weight
      ensures phi == None && notWalked
    {
      this.species := species;
      this.age := age;
      this.weight := weight;
      phi := None;
      notWalked := true;
    }

    ghost function State(): Beast
      reads this
    {
      Beast(species, age, weight, phi, notWalked)
    }

    /** `fitness()`: returns the fitness and caches it, unless the weight is not positive. */
    method Fitness(c: Constants) returns (f: real)
      modifies this`phi
      ensures f == FitnessOf(c.For(species), c.logistic, age, weight)
      ensures phi == CachedFitness(c.For(species), c.logistic, age, weight, old(phi))
    {
      var w := weight;
      if w <= 0.0 {
        f := 0.0;
      } else {
        f := FitnessOf(c.For(species), c.logistic, age, w);
        phi := Some(f);
      }
    }

    /** `move_dir()`: one `random()` draw, and one `randint(1, 20)` draw when it moves. */
    method MoveDir(c: Constants, rng: Random) returns (d: Option<Direction>)
      modifies this`phi, rng
      ensures phi == CachedFitness(c.For(species), c.logistic, age, weight, old(phi))
      ensures d == MoveChoice(c.For(species), c.logistic, age, weight,
                              rng.uniform(old(rng.pos)), rng.integer(old(rng.pos) + 1))
      ensures rng.pos == old(rng.pos) + (if d.Some? then 2 else 1)
    {
      var t := c.For(species);
      var f := Fitness(c);
      var moveProb := t.mu * f;
      var r := rng.Uniform();
      if r <= moveProb {
        var k := rng.RandInt(1, 20);
        d := Some(Bucket(k));
      } else {
        d := None;
      }
    }

    /** `eat_gain_weight(amount)`: the weight rises by `beta * amount`. */
    method EatGainWeight(c: Constants, amount: real)
      modifies this`weight
      ensures weight == old(weight) + c.For(species).beta * amount
    {
      weight := weight + c.For(species).beta * amount;
    }

    /** `aging()` */
    method Aging()
      modifies this`age
      ensures age == old(age) + 1
    {
      age := age + 1;
    }

    /** `loose_weight()`: the weight shrinks by the fraction `eta`. */
    method LooseWeight(c: Constants)
      modifies this`weight
      ensures weight == old(weight) - c.For(species).eta * old(weight)
      ensures 0.0 < c.For(species).eta < 1.0 && old(weight) > 0.0 ==> 0.0 < weight < old(weight)
    {
      weight := weight - c.For(species).eta * weight;
    }

    /** `give_birth(species, n)`; the newborn, if any, is a fresh animal of age 0. */
    method GiveBirth(c: Constants, n: int, rng: Random) returns (baby: Animal?)
      modifies this`weight, this`phi, rng
      ensures var r := BirthStep(c.For(species), c.logistic, old(State()), n,
                                 rng.uniform, rng.normal, old(rng.pos));
        && weight == r.parent.weight && phi == r.parent.phi
        && rng.pos == old(rng.pos) + r.draws
        && (baby == null <==> r.baby.None?)
        && (baby != null ==> fresh(baby) && baby.State() == Beast(species, 0, r.baby.value, None, true))
    {
      baby := null;
      var t := c.For(species);
      var w := weight;
      if w >= BirthThreshold(t) {
        var f := Fitness(c);
        var birthProb := BirthProbability(t, f, n);
        var r := rng.Uniform();
        if r <= birthProb {
          var wBaby := rng.Gauss(t.wBirth, t.sigmaBirth);
          if wBaby > 0.0 {
            var potentialWeightMother := w - t.xi * wBaby;
            if potentialWeightMother > 0.0 {
              weight := potentialWeightMother;
              baby := new Animal(species, 0, wBaby);
            }
          }
        }
      }
    }

    /** `survival()`: one `random()` draw. */
    method Survival(c: Constants, rng: Random) returns (alive: bool)
      modifies this`phi, rng
      ensures phi == CachedFitness(c.For(species), c.logistic, age, weight, old(phi))
      ensures alive == Survives(c.For(species), c.logistic, age, weight, rng.uniform(old(rng.pos)))
      ensures rng.pos == old(rng.pos) + 1
    {
      var w := weight;
      var f := Fitness(c);
      var deathRate := c.For(species).omega * (1.0 - f);
      var r := rng.Uniform();
      alive := deathRate < r && w > 0.0;
    }

    /** `Herbivore.herb_eating(food)`: returns the food left in the cell. */
    method HerbEating(c: Constants, food: real) returns (left: real)
      requires species == Herbivore && c.herbivore.F > 0.0
      modifies this`weight
      ensures left == GrazeLeft(food, c.herbivore.F)
      ensures weight == old(weight) + c.herbivore.beta * GrazeGain(food, c.herbivore.F)
    {
      var appetite := c.herbivore.F;
      if food >= appetite {
        EatGainWeight(c, appetite);
        left := food - appetite;
      } else {
        var shortfall := appetite - food;
        EatGainWeight(c, shortfall);
        left := 0.0;
      }
    }

    /** `Carnivore.kill(phiHerb)`: one `random()` draw against the kill probability, using
        the carnivore's cached fitness. */
    method Kill(c: Constants, phiHerb: real, rng: Random) returns (killed: bool)
      requires species == Carnivore && KillReady(c.carnivore) && phi.Some?
      modifies rng
      ensures killed == (rng.uniform(old(rng.pos)) as real
                         < KillProbability(phi.value, phiHerb, c.carnivore.deltaPhiMax.value))
      ensures rng.pos == old(rng.pos) + 1
    {
      var p := KillProbability(phi.value, phiHerb, c.carnivore.deltaPhiMax.value);
      var r := rng.Uniform();
      killed := r < p;
    }

    /** `Carnivore.carn_eating(available, toEat)`: returns the appetite left. */
    method CarnEating(c: Constants, available: real, toEat: real) returns (left: real)
      requires species == Carnivore
      modifies this`weight
      ensures left == MealLeft(available, toEat)
      ensures weight == old(weight) + c.carnivore.beta * MealEaten(available, toEat)
    {
      if available >= toEat {
        EatGainWeight(c, toEat);
        left := 0.0;
      } else {
        EatGainWeight(c, available);
        left := toEat - available;
      }
    }
  }
}
