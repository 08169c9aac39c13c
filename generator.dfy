/**
 * `generate_system`: the structure of a generated Planetary Annihilation: Titans system.
 * Two starting planets are placed symmetrically on the x axis, then the requested number
 * of resource planets follow, all appended to the system's planet list in that order.
 * Everything the source takes from the random generator or from floating-point arithmetic
 * arrives here as a per-planet draw record supplied by the caller.
 */
module Generator {
  import opened Wrappers
  import opened Decimal

  /** The list `random.choice` picks a biome from. */
  datatype Biome = Earth | Desert | Lava | Moon | Tropical | Ice | Metal

  datatype Vec = Vec(x: int, y: int) {
    function Neg(): Vec {
      Vec(-x, -y)
    }
  }

  /** The nested "planet" object of a planet entry. */
  datatype Surface = Surface(
    seed: int,
    radius: int,
    heightRange: int,
    waterHeight: int,
    waterDepth: int,
    temperature: int,
    metalDensity: int,
    metalClusters: int,
    biomeScale: int,
    biome: Biome)

  /** One entry of the system's "planets" list. */
  datatype Planet = Planet(
    name: string,
    mass: int,
    position: Vec,
    velocity: Vec,
    requiredThrustToMove: int,
    startingPlanet: bool,
    respawn: bool,
    startDestroyed: bool,
    minSpawnDelay: int,
    maxSpawnDelay: int,
    surface: Surface)

  /**
   * The system dictionary. `name` is `None` only for a dictionary without a "name" key,
   * which the packager accepts; generated systems always have one.
   */
  datatype System = System(name: Option<string>, description: string, version: string, planets: seq<Planet>)

  /**
   * What a starting planet takes from outside the model: the result of `perp_velocity`
   * at its position, its `randint(0, 100000)` seed and its biome.
   */
  datatype StartingDraw = StartingDraw(perpVelocity: Vec, seed: int, biome: Biome)

  /**
   * What a resource planet takes from outside the model: the jittered metal amount, the
   * truncated position and velocity derived from the random angle, distance and speed
   * scale, its seed, its `randint(0, 100)` temperature and its biome.
   */
  datatype ResourceDraw = ResourceDraw(
    metalAmount: int,
    position: Vec,
    velocity: Vec,
    seed: int,
    temperature: int,
    biome: Biome)

  const StartingDistance := 25000
  const StartingMass := 10000
  const ResourceMass := 5000
  const SeedMax := 100000
  const TemperatureMax := 100
  const StartingTemperature := 50
  const StartingMetalClusters := 50
  const ResourceMetalClusters := 40
  const HeightRange := 50
  const BiomeScale := 50

  /** `randint` is inclusive at both ends. */
  predicate ValidStartingDraw(d: StartingDraw) {
    0 <= d.seed <= SeedMax
  }

  predicate ValidResourceDraw(d: ResourceDraw) {
    0 <= d.seed <= SeedMax && 0 <= d.temperature <= TemperatureMax
  }

  /**
   * Draws the source can produce: values within the `randint` ranges, and starting
   * velocities that are negatives of each other, as `perp_velocity` gives at the mirrored
   * positions (25000, 0) and (-25000, 0), since `int()` truncates symmetrically about zero.
   */
  predicate ValidDraws(starts: seq<StartingDraw>, resources: seq<ResourceDraw>) {
    (forall i :: 0 <= i < |starts| ==> ValidStartingDraw(starts[i])) &&
    (forall k :: 0 <= k < |resources| ==> ValidResourceDraw(resources[k])) &&
    (|starts| == 2 ==> starts[1].perpVelocity == starts[0].perpVelocity.Neg())
  }

  /** How many times `range(num_additional_planets)` iterates. */
  function ResourceCount(numAdditional: int): nat {
    if numAdditional < 0 then 0 else numAdditional
  }

  function StartingName(i: nat): string {
    "Starting Planet " + DecimalString(i + 1)
  }

  function ResourceName(k: nat): string {
    "Resource Planet " + DecimalString(k + 1)
  }

  function DefaultSystemName(numAdditional: int): string {
    "Random System " + IntString(numAdditional) + "+2"
  }

  function Description(numAdditional: int): string {
    "Procedural system with 2 starting planets and " + IntString(numAdditional) + " additional"
  }

  /** The fields every generated planet has with the same value. */
  predicate FixedFields(p: Planet) {
    && !p.respawn && !p.startDestroyed
    && p.minSpawnDelay == 0 && p.maxSpawnDelay == 0
    && p.requiredThrustToMove == 0
    && p.surface.heightRange == HeightRange && p.surface.biomeScale == BiomeScale
    && p.surface.waterHeight == 0 && p.surface.waterDepth == 0
  }

  /** The i-th starting planet (i is 0 or 1) as the first loop builds it. */
  function StartingPlanet(i: nat, d: StartingDraw, radius: int, metal: int): Planet
    requires i < 2
  {
    Planet(
      StartingName(i), StartingMass,
      Vec(if i == 0 then StartingDistance else -StartingDistance, 0),
      if i == 1 then d.perpVelocity.Neg() else d.perpVelocity,
      0, true, false, false, 0, 0,
      Surface(d.seed, radius, HeightRange, 0, 0, StartingTemperature, metal, StartingMetalClusters, BiomeScale, d.biome))
  }

  /** The k-th resource planet as the second loop builds it. */
  function ResourcePlanet(k: nat, d: ResourceDraw, radius: int): Planet {
    Planet(
      ResourceName(k), ResourceMass, d.position, d.velocity,
      0, false, false, false, 0, 0,
      Surface(d.seed, radius, HeightRange, 0, 0, d.temperature, d.metalAmount, ResourceMetalClusters, BiomeScale, d.biome))
  }

  /** The system `generate_system` returns for the given parameters and draws. */
  function Skeleton(
    numAdditional: int, startingRadius: int, startingMetal: int, additionalRadius: int,
    systemName: Option<string>, starts: seq<StartingDraw>, resources: seq<ResourceDraw>): System
    requires |starts| == 2 && |resources| == ResourceCount(numAdditional)
  {
    System(
      if systemName.Some? then systemName else Some(DefaultSystemName(numAdditional)),
      Description(numAdditional),
      "1.0",
      [StartingPlanet(0, starts[0], startingRadius, startingMetal),
       StartingPlanet(1, starts[1], startingRadius, startingMetal)]
      + seq(|resources|, k requires 0 <= k < |resources| => ResourcePlanet(k, resources[k], additionalRadius)))
  }

  /**
   * The system's header, and the role of every planet by its position in the list: the
   * first two are the starting planets, the rest the resource planets in order, each with
   * the parameters and constants of its kind.
   */
  lemma SkeletonRoles(
    numAdditional: int, startingRadius: int, startingMetal: int, additionalRadius: int,
    systemName: Option<string>, starts: seq<StartingDraw>, resources: seq<ResourceDraw>)
    requires |starts| == 2 && |resources| == ResourceCount(numAdditional)
    ensures var r := Skeleton(numAdditional, startingRadius, startingMetal, additionalRadius, systemName, starts, resources);
      && r.name == (if systemName.Some? then systemName else Some(DefaultSystemName(numAdditional)))
      && r.description == Description(numAdditional) && r.version == "1.0"
      && |r.planets| == 2 + ResourceCount(numAdditional)
      && (forall i :: 0 <= i < |r.planets| ==> (r.planets[i].startingPlanet <==> i < 2))
      && (forall i :: 0 <= i < |r.planets| ==>
           r.planets[i].name == if i < 2 then StartingName(i) else ResourceName(i - 2))
      && (forall i :: 0 <= i < |r.planets| ==>
           r.planets[i].mass == if i < 2 then StartingMass else ResourceMass)
      && (forall i :: 0 <= i < |r.planets| ==>
           r.planets[i].surface.radius == if i < 2 then startingRadius else additionalRadius)
      && (forall i :: 0 <= i < |r.planets| ==>
           r.planets[i].surface.metalClusters == if i < 2 then StartingMetalClusters else ResourceMetalClusters)
      && (forall i :: 0 <= i < |r.planets| ==> FixedFields(r.planets[i]))
  {
  }

  /**
   * Where every planet's position, velocity and drawn surface values come from: the fixed
   * symmetric placement and the flipped velocity of the second starting planet, and the
   * k-th resource draw for the k-th resource planet.
   */
  lemma SkeletonPlacement(
    numAdditional: int, startingRadius: int, startingMetal: int, additionalRadius: int,
    systemName: Option<string>, starts: seq<StartingDraw>, resources: seq<ResourceDraw>)
    requires |starts| == 2 && |resources| == ResourceCount(numAdditional)
    ensures var r := Skeleton(numAdditional, startingRadius, startingMetal, additionalRadius, systemName, starts, resources);
      && r.planets[0].position == Vec(StartingDistance, 0)
      && r.planets[1].position == Vec(-StartingDistance, 0)
      && r.planets[0].velocity == starts[0].perpVelocity
      && r.planets[1].velocity == starts[1].perpVelocity.Neg()
      && (forall i :: 0 <= i < 2 ==>
           && r.planets[i].surface.metalDensity == startingMetal
           && r.planets[i].surface.temperature == StartingTemperature
           && r.planets[i].surface.seed == starts[i].seed
           && r.planets[i].surface.biome == starts[i].biome)
      && (forall k :: 0 <= k < |resources| ==>
           && r.planets[2 + k].surface.metalDensity == resources[k].metalAmount
           && r.planets[2 + k].position == resources[k].position
           && r.planets[2 + k].velocity == resources[k].velocity
           && r.planets[2 + k].surface.seed == resources[k].seed
           && r.planets[2 + k].surface.temperature == resources[k].temperature
           && r.planets[2 + k].surface.biome == resources[k].biome)
  {
  }

  /**
   * `generate_system`: the two loops append to the planet list built so far. The random
   * seeding and every random or floating-point value are replaced by the draws.
   */
  method GenerateSystem(
    numAdditional: int, startingRadius: int, startingMetal: int, additionalRadius: int,
    systemName: Option<string>, starts: seq<StartingDraw>, resources: seq<ResourceDraw>)
    returns (system: System)
    requires |starts| == 2 && |resources| == ResourceCount(numAdditional)
    ensures system == Skeleton(numAdditional, startingRadius, startingMetal, additionalRadius, systemName, starts, resources)
  {
    var name := systemName;
    if name.None? {
      name := Some(DefaultSystemName(numAdditional));
    }
    ghost var spec := Skeleton(numAdditional, startingRadius, startingMetal, additionalRadius, systemName, starts, resources);
    var planets: seq<Planet> := [];
    for i := 0 to 2
      invariant planets == spec.planets[..i]
    {
      var px := StartingDistance * (if i == 0 then 1 else -1);
      var py := 0;
      var v := starts[i].perpVelocity;
      if i == 1 {
        v := Vec(-v.x, -v.y);
      }
      var planet := Planet(
        StartingName(i), StartingMass, Vec(px, py), v,
        0, true, false, false, 0, 0,
        Surface(starts[i].seed, startingRadius, HeightRange, 0, 0, StartingTemperature,
                startingMetal, StartingMetalClusters, BiomeScale, starts[i].biome));
      assert planet == spec.planets[i];
      planets := planets + [planet];
    }
    for k := 0 to ResourceCount(numAdditional)
      invariant planets == spec.planets[..2 + k]
    {
      var d := resources[k];
      var planet := Planet(
        ResourceName(k), ResourceMass, d.position, d.velocity,
        0, false, false, false, 0, 0,
        Surface(d.seed, additionalRadius, HeightRange, 0, 0, d.temperature,
                d.metalAmount, ResourceMetalClusters, BiomeScale, d.biome));
      assert planet == spec.planets[2 + k];
      planets := planets + [planet];
    }
    assert planets == spec.planets;
    system := System(name, Description(numAdditional), "1.0", planets);
  }

  /** The number of planets whose starting flag is set. */
  function CountStarting(planets: seq<Planet>): nat {
    if planets == [] then 0 else (if planets[0].startingPlanet then 1 else 0) + CountStarting(planets[1..])
  }

  lemma {:induction false} CountStartingNone(planets: seq<Planet>)
    requires forall i :: 0 <= i < |planets| ==> !planets[i].startingPlanet
    ensures CountStarting(planets) == 0
  {
    if planets != [] {
      CountStartingNone(planets[1..]);
    }
  }

  /** Every generated system has exactly two starting planets. */
  lemma ExactlyTwoStartingPlanets(
    numAdditional: int, startingRadius: int, startingMetal: int, additionalRadius: int,
    systemName: Option<string>, starts: seq<StartingDraw>, resources: seq<ResourceDraw>)
    requires |starts| == 2 && |resources| == ResourceCount(numAdditional)
    ensures CountStarting(Skeleton(numAdditional, startingRadius, startingMetal, additionalRadius, systemName, starts, resources).planets) == 2
  {
    var ps := Skeleton(numAdditional, startingRadius, startingMetal, additionalRadius, systemName, starts, resources).planets;
    CountStartingNone(ps[2..]);
    assert ps[1..][1..] == ps[2..];
  }

  lemma StartingNameInjective(i: nat, j: nat)
    ensures StartingName(i) == StartingName(j) <==> i == j
  {
    var prefix := "Starting Planet ";
    if StartingName(i) == StartingName(j) {
      assert DecimalString(i + 1) == StartingName(i)[|prefix|..];
      assert DecimalString(j + 1) == StartingName(j)[|prefix|..];
      DecimalStringInjective(i + 1, j + 1);
    }
  }

  lemma ResourceNameInjective(i: nat, j: nat)
    ensures ResourceName(i) == ResourceName(j) <==> i == j
  {
    var prefix := "Resource Planet ";
    if ResourceName(i) == ResourceName(j) {
      assert DecimalString(i + 1) == ResourceName(i)[|prefix|..];
      assert DecimalString(j + 1) == ResourceName(j)[|prefix|..];
      DecimalStringInjective(i + 1, j + 1);
    }
  }

  /** No two planets of a generated system share a name. */
  lemma PlanetNamesDistinct(
    numAdditional: int, startingRadius: int, startingMetal: int, additionalRadius: int,
    systemName: Option<string>, starts: seq<StartingDraw>, resources: seq<ResourceDraw>)
    requires |starts| == 2 && |resources| == ResourceCount(numAdditional)
    ensures var ps := Skeleton(numAdditional, startingRadius, startingMetal, additionalRadius, systemName, starts, resources).planets;
      forall i, j :: 0 <= i < j < |ps| ==> ps[i].name != ps[j].name
  {
    var ps := Skeleton(numAdditional, startingRadius, startingMetal, additionalRadius, systemName, starts, resources).planets;
    forall i, j | 0 <= i < j < |ps|
      ensures ps[i].name != ps[j].name
    {
      if j < 2 {
        StartingNameInjective(i, j);
      } else if i >= 2 {
        ResourceNameInjective(i - 2, j - 2);
      } else {
        assert ps[i].name[0] == 'S' && ps[j].name[0] == 'R';
      }
    }
  }

  /** Draws within the generator's ranges give seeds and temperatures within them. */
  lemma SurfaceBounds(
    numAdditional: int, startingRadius: int, startingMetal: int, additionalRadius: int,
    systemName: Option<string>, starts: seq<StartingDraw>, resources: seq<ResourceDraw>)
    requires |starts| == 2 && |resources| == ResourceCount(numAdditional)
    requires ValidDraws(starts, resources)
    ensures var ps := Skeleton(numAdditional, startingRadius, startingMetal, additionalRadius, systemName, starts, resources).planets;
      forall i :: 0 <= i < |ps| ==>
        0 <= ps[i].surface.seed <= SeedMax && 0 <= ps[i].surface.temperature <= TemperatureMax
  {
    var ps := Skeleton(numAdditional, startingRadius, startingMetal, additionalRadius, systemName, starts, resources).planets;
    forall i | 0 <= i < |ps|
      ensures 0 <= ps[i].surface.seed <= SeedMax && 0 <= ps[i].surface.temperature <= TemperatureMax
    {
      if i >= 2 {
        assert ValidResourceDraw(resources[i - 2]);
      } else {
        assert ValidStartingDraw(starts[i]);
      }
    }
  }

  /**
   * The flip of the second starting planet's velocity cancels the mirroring of its
   * position: both starting planets move with the same vector, so about the origin they
   * orbit in opposite senses.
   */
  lemma StartingPlanetsShareVelocity(
    numAdditional: int, startingRadius: int, startingMetal: int, additionalRadius: int,
    systemName: Option<string>, starts: seq<StartingDraw>, resources: seq<ResourceDraw>)
    requires |starts| == 2 && |resources| == ResourceCount(numAdditional)
    requires ValidDraws(starts, resources)
    ensures var ps := Skeleton(numAdditional, startingRadius, startingMetal, additionalRadius, systemName, starts, resources).planets;
      && ps[0].velocity == ps[1].velocity
      && ps[0].position == ps[1].position.Neg()
  {
  }
}
