/**
 * The particle behaviour unit of `fx/modules/module.hpp`: a closed set of module
 * types whose declared order is the order modules run in, and a base module
 * whose default operations do nothing.
 */
module ParticleModules {
  import opened Wrappers

  /** `ModuleType`, in declaration order. `Lifetime` must stay last. */
  datatype ModuleType =
    | InitialLocation
    | InitialRotation
    | InitialVelocity
    | InitialColor
    | InitialSize
    | InitialAcceleration
    | InitialMeshLocation
    | MeshLocationAttachment
    | SubUV
    | VelocityByLife
    | ColorByLife
    | RotationRate
    | SizeByLife
    | CustomMaterial
    | CustomMaterialByLife
    | Time
    | Beam_InitialDisplacement
    | Beam_InitialOffset
    | Beam_InitialRebuild
    | Beam_InitialTarget
    | BeamSpeed
    | BeamBuilder
    | Lifetime

  const TypeCount: nat := 23

  /** The underlying value of an enumerator: its position in the declaration. */
  function Ordinal(t: ModuleType): (n: nat)
    ensures n < TypeCount
  {
    match t
    case InitialLocation => 0
    case InitialRotation => 1
    case InitialVelocity => 2
    case InitialColor => 3
    case InitialSize => 4
    case InitialAcceleration => 5
    case InitialMeshLocation => 6
    case MeshLocationAttachment => 7
    case SubUV => 8
    case VelocityByLife => 9
    case ColorByLife => 10
    case RotationRate => 11
    case SizeByLife => 12
    case CustomMaterial => 13
    case CustomMaterialByLife => 14
    case Time => 15
    case Beam_InitialDisplacement => 16
    case Beam_InitialOffset => 17
    case Beam_InitialRebuild => 18
    case Beam_InitialTarget => 19
    case BeamSpeed => 20
    case BeamBuilder => 21
    case Lifetime => 22
  }

  /** The enumerator with a given underlying value, if there is one. */
  function FromOrdinal(n: nat): (r: Option<ModuleType>)
    ensures r.Some? <==> n < TypeCount
  {
    match n
    case 0 => Some(InitialLocation)
    case 1 => Some(InitialRotation)
    case 2 => Some(InitialVelocity)
    case 3 => Some(InitialColor)
    case 4 => Some(InitialSize)
    case 5 => Some(InitialAcceleration)
    case 6 => Some(InitialMeshLocation)
    case 7 => Some(MeshLocationAttachment)
    case 8 => Some(SubUV)
    case 9 => Some(VelocityByLife)
    case 10 => Some(ColorByLife)
    case 11 => Some(RotationRate)
    case 12 => Some(SizeByLife)
    case 13 => Some(CustomMaterial)
    case 14 => Some(CustomMaterialByLife)
    case 15 => Some(Time)
    case 16 => Some(Beam_InitialDisplacement)
    case 17 => Some(Beam_InitialOffset)
    case 18 => Some(Beam_InitialRebuild)
    case 19 => Some(Beam_InitialTarget)
    case 20 => Some(BeamSpeed)
    case 21 => Some(BeamBuilder)
    case 22 => Some(Lifetime)
    case _ => None
  }

  /** Every enumerator is recovered from its underlying value. */
  lemma OrdinalRoundTrip(t: ModuleType)
    ensures FromOrdinal(Ordinal(t)) == Some(t)
  {
  }

  /** Every value below the enumerator count names the enumerator with that value. */
  lemma FromOrdinalRoundTrip(n: nat)
    requires n < TypeCount
    ensures Ordinal(FromOrdinal(n).value) == n
  {
  }

  /** Distinct module types have distinct underlying values. */
  lemma OrdinalInjective(s: ModuleType, t: ModuleType)
    requires Ordinal(s) == Ordinal(t)
    ensures s == t
  {
    OrdinalRoundTrip(s);
    OrdinalRoundTrip(t);
  }

  /** Modules of type `s` run before modules of type `t`. */
  predicate RunsBefore(s: ModuleType, t: ModuleType)
  {
    Ordinal(s) < Ordinal(t)
  }

  /** The execution order is irreflexive and relates every two distinct types one
      way round; being an order on the underlying values, it is also transitive.
      A chain has one order, whatever order its modules were added in. */
  lemma RunsBeforeIsStrictTotal(s: ModuleType, t: ModuleType)
    ensures !RunsBefore(s, s)
    ensures s != t <==> RunsBefore(s, t) || RunsBefore(t, s)
  {
    if Ordinal(s) == Ordinal(t) {
      OrdinalInjective(s, t);
    }
  }

  /** `Lifetime` runs after every other module type. */
  lemma LifetimeIsLast(t: ModuleType)
    ensures t != Lifetime <==> RunsBefore(t, Lifetime)
  {
  }

  predicate IsInitial(t: ModuleType)
  {
    t.InitialLocation? || t.InitialRotation? || t.InitialVelocity?
    || t.InitialColor? || t.InitialSize? || t.InitialAcceleration?
  }

  /** The six `Initial*` types hold the six lowest values, in declared order. */
  lemma InitialTypesComeFirst(t: ModuleType)
    ensures IsInitial(t) <==> Ordinal(t) < 6
    ensures Ordinal(InitialLocation) == 0 && Ordinal(InitialRotation) == 1
    ensures Ordinal(InitialVelocity) == 2 && Ordinal(InitialColor) == 3
    ensures Ordinal(InitialSize) == 4 && Ordinal(InitialAcceleration) == 5
  {
  }

  /**
   * The `Module` base: a type tag fixed at construction, and default operations
   * that change nothing. The emitter, context and camera a module is handed are
   * type parameters, since the base never looks at them.
   */
  datatype Module = Module(kind: ModuleType)
  {
    /** `getType`. */
    function GetType(): ModuleType
    {
      kind
    }

    /** The copy that `clone` makes. */
    function Clone(): (c: Module)
      ensures c.GetType() == GetType()
    {
      Module(kind)
    }

    /** The default `initialize`: the particle is left as it was. */
    function Initialize<Emitter, Particle>(emitter: Emitter, p: Particle, index: nat): (q: Particle)
      ensures q == p
    {
      p
    }

    /** The default `update`: every particle is left as it was, and so is the count. */
    function Update<Emitter, Particle, Context, Camera>(
      emitter: Emitter, particles: seq<Particle>, dt: real, ctx: Context, camera: Camera): (r: seq<Particle>)
      ensures |r| == |particles|
      ensures forall i :: 0 <= i < |r| ==> r[i] == particles[i]
    {
      particles
    }

    /** The default `deinitialize`: the module is left as it was, for any indices. */
    function Deinitialize(indices: seq<nat>): (m: Module)
      ensures m == this
    {
      this
    }
  }

  /** A module reports the type it was constructed with, and so does its clone. */
  lemma TypeFixedAtConstruction(t: ModuleType)
    ensures Module(t).GetType() == t && Module(t).Clone().GetType() == t
  {
  }
}
