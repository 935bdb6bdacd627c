/** The scattering-function flag algebra of `src/base/bxdf.rs`: the transport
    mode, the reflection/transmission sampling flags and the BxDF lobe flags,
    each an enumeration whose discriminants are bit patterns. */
module Bxdf {
  import opened Wrappers

  /** Which quantity a path carries. */
  datatype TransportMode = Radiance | Importance

  /** `TransportMode::not`. */
  function Not(mode: TransportMode): (r: TransportMode)
    ensures r != mode
  {
    match mode
    case Radiance => Importance
    case Importance => Radiance
  }

  /** Flipping the mode twice gives it back. */
  lemma NotInvolution(mode: TransportMode)
    ensures Not(Not(mode)) == mode
  {
  }

  /** A value that is not the discriminant of any enumeration member
      (`From<isize>` panics on it). */
  datatype FlagError = IllegalValue(value: int)

  // ---------------------------------------------------------------------
  // BxDFReflTransFlags

  datatype ReflTransFlags = RTUnset | RTReflection | RTTransmission | RTAll

  function ReflTransBits(f: ReflTransFlags): (b: bv8)
    ensures b <= 3
  {
    match f
    case RTUnset => 0
    case RTReflection => 1
    case RTTransmission => 2
    case RTAll => 3
  }

  /** `From<isize> for BxDFReflTransFlags`: the member whose discriminant is
      `value`, looked up in the table of all members. */
  function ReflTransFromBits(value: int): (r: Result<ReflTransFlags, FlagError>)
    ensures r.Ok? <==> 0 <= value <= 3
    ensures r.Ok? ==> ReflTransBits(r.value) as int == value
    ensures r.Err? ==> r.error == IllegalValue(value)
  {
    if value == 0 then Ok(RTUnset)
    else if value == 1 then Ok(RTReflection)
    else if value == 2 then Ok(RTTransmission)
    else if value == 3 then Ok(RTAll)
    else Err(IllegalValue(value))
  }

  /** Converting a member to its discriminant and back is the identity. */
  lemma ReflTransRoundTrip(f: ReflTransFlags)
    ensures ReflTransFromBits(ReflTransBits(f) as int) == Ok(f)
  {
  }

  /** `BitOr for BxDFReflTransFlags`. */
  function ReflTransOr(a: ReflTransFlags, b: ReflTransFlags): Result<ReflTransFlags, FlagError>
  {
    ReflTransFromBits((ReflTransBits(a) | ReflTransBits(b)) as int)
  }

  /** `BitAnd for BxDFReflTransFlags`. */
  function ReflTransAnd(a: ReflTransFlags, b: ReflTransFlags): Result<ReflTransFlags, FlagError>
  {
    ReflTransFromBits((ReflTransBits(a) & ReflTransBits(b)) as int)
  }

  /** The two-bit flags are closed under `|` and `&`, so neither operator ever
      reaches the panic of `From<isize>`; the results are the bitwise union
      and intersection. */
  lemma ReflTransClosed(a: ReflTransFlags, b: ReflTransFlags)
    ensures ReflTransOr(a, b).Ok? && ReflTransAnd(a, b).Ok?
    ensures ReflTransBits(ReflTransOr(a, b).value) == ReflTransBits(a) | ReflTransBits(b)
    ensures ReflTransBits(ReflTransAnd(a, b).value) == ReflTransBits(a) & ReflTransBits(b)
  {
    assert ReflTransBits(a) | ReflTransBits(b) <= 3;
    assert ReflTransBits(a) & ReflTransBits(b) <= 3;
  }

  /** `Unset` is the unit of `|` and `All` the unit of `&`. */
  lemma ReflTransUnits(a: ReflTransFlags)
    ensures ReflTransOr(a, RTUnset) == Ok(a)
    ensures ReflTransAnd(a, RTAll) == Ok(a)
    ensures ReflTransOr(RTReflection, RTTransmission) == Ok(RTAll)
    ensures ReflTransAnd(RTReflection, RTTransmission) == Ok(RTUnset)
  {
  }

  /** `BxDFReflTransFlags::is_set`. */
  function IsSet(f: ReflTransFlags): (r: bool)
    ensures r <==> ReflTransBits(f) != 0
  {
    f != RTUnset
  }

  // ---------------------------------------------------------------------
  // BxDFFlags

  datatype BxDFFlags =
    | Unset | Reflection | Transmission | Diffuse | Glossy | Specular
    | DiffuseReflection | DiffuseTransmission | GlossyReflection | GlossyTransmission
    | GlossyTransmissionReflection | SpecularReflection | SpecularTransmission | All

  const ReflectionBit: bv8 := 1
  const TransmissionBit: bv8 := 2
  const DiffuseBit: bv8 := 4
  const GlossyBit: bv8 := 8
  const SpecularBit: bv8 := 16

  function FlagBits(f: BxDFFlags): (b: bv8)
    ensures b < 32
  {
    match f
    case Unset => 0
    case Reflection => ReflectionBit
    case Transmission => TransmissionBit
    case Diffuse => DiffuseBit
    case Glossy => GlossyBit
    case Specular => SpecularBit
    case DiffuseReflection => DiffuseBit | ReflectionBit
    case DiffuseTransmission => DiffuseBit | TransmissionBit
    case GlossyReflection => GlossyBit | ReflectionBit
    case GlossyTransmission => GlossyBit | TransmissionBit
    case GlossyTransmissionReflection => GlossyBit | TransmissionBit | ReflectionBit
    case SpecularReflection => SpecularBit | ReflectionBit
    case SpecularTransmission => SpecularBit | TransmissionBit
    case All => ReflectionBit | TransmissionBit | DiffuseBit | GlossyBit | SpecularBit
  }

  /** The discriminants in declaration order. */
  const Discriminants: seq<int> := [0, 1, 2, 4, 8, 16, 5, 6, 9, 10, 11, 17, 18, 31]

  /** `From<isize> for BxDFFlags`. */
  function FlagsFromBits(value: int): (r: Result<BxDFFlags, FlagError>)
    ensures r.Ok? <==> value in Discriminants
    ensures r.Ok? ==> FlagBits(r.value) as int == value
    ensures r.Err? ==> r.error == IllegalValue(value)
  {
    if value == 0 then Ok(Unset)
    else if value == 1 then Ok(Reflection)
    else if value == 2 then Ok(Transmission)
    else if value == 4 then Ok(Diffuse)
    else if value == 8 then Ok(Glossy)
    else if value == 16 then Ok(Specular)
    else if value == 5 then Ok(DiffuseReflection)
    else if value == 6 then Ok(DiffuseTransmission)
    else if value == 9 then Ok(GlossyReflection)
    else if value == 10 then Ok(GlossyTransmission)
    else if value == 11 then Ok(GlossyTransmissionReflection)
    else if value == 17 then Ok(SpecularReflection)
    else if value == 18 then Ok(SpecularTransmission)
    else if value == 31 then Ok(All)
    else Err(IllegalValue(value))
  }

  lemma FlagsRoundTrip(f: BxDFFlags)
    ensures FlagsFromBits(FlagBits(f) as int) == Ok(f)
  {
  }

  /** `BitOr for BxDFFlags`: the union of the bits, as a plain integer. */
  function FlagsOr(a: BxDFFlags, b: BxDFFlags): int
  {
    (FlagBits(a) | FlagBits(b)) as int
  }

  /** `BitAnd for BxDFFlags`: the intersection of the bits, as a plain integer. */
  function FlagsAnd(a: BxDFFlags, b: BxDFFlags): int
  {
    (FlagBits(a) & FlagBits(b)) as int
  }

  /** Unlike the sampling flags, lobe flags are not closed under `|`: the union
      of a diffuse and a specular lobe is no member, and converting it back
      panics. */
  lemma FlagsOrNotClosed()
    ensures FlagsOr(Diffuse, Specular) == 20
    ensures FlagsFromBits(FlagsOr(Diffuse, Specular)) == Err(IllegalValue(20))
  {
  }

  function IsReflective(f: BxDFFlags): bool { FlagsAnd(f, Reflection) > 0 }
  function IsTransmissive(f: BxDFFlags): bool { FlagsAnd(f, Transmission) > 0 }
  function IsDiffuse(f: BxDFFlags): bool { FlagsAnd(f, Diffuse) > 0 }
  function IsGlossy(f: BxDFFlags): bool { FlagsAnd(f, Glossy) > 0 }
  function IsSpecular(f: BxDFFlags): bool { FlagsAnd(f, Specular) > 0 }

  /** `is_non_specular`: tests the diffuse and glossy bits together. */
  function IsNonSpecular(f: BxDFFlags): (r: bool)
    ensures r <==> IsDiffuse(f) || IsGlossy(f)
  {
    (FlagBits(f) & (DiffuseBit | GlossyBit)) > 0
  }

  /** The five predicates read back the five bits that make up the flag. */
  lemma FlagsDecompose(f: BxDFFlags)
    ensures FlagBits(f) ==
      (if IsReflective(f) then ReflectionBit else 0)
      | (if IsTransmissive(f) then TransmissionBit else 0)
      | (if IsDiffuse(f) then DiffuseBit else 0)
      | (if IsGlossy(f) then GlossyBit else 0)
      | (if IsSpecular(f) then SpecularBit else 0)
  {
  }

  /** So two flags that agree on all five predicates are the same flag. */
  lemma FlagsDetermined(f: BxDFFlags, g: BxDFFlags)
    requires IsReflective(f) == IsReflective(g) && IsTransmissive(f) == IsTransmissive(g)
    requires IsDiffuse(f) == IsDiffuse(g) && IsGlossy(f) == IsGlossy(g) && IsSpecular(f) == IsSpecular(g)
    ensures f == g
  {
    FlagsDecompose(f);
    FlagsDecompose(g);
    FlagsRoundTrip(f);
    FlagsRoundTrip(g);
  }

  /** Every named lobe other than `All` is at most one of specular and
      non-specular. */
  lemma SpecularExcludesNonSpecular(f: BxDFFlags)
    requires f != All
    ensures !(IsSpecular(f) && IsNonSpecular(f))
  {
  }

  /** The outcome of sampling a BxDF; the sampled value, direction, density
      and relative index of refraction are floating-point data carried along. */
  datatype BSDFSample = BSDFSample(f: seq<real>, wi: (real, real, real), pdf: real, flags: BxDFFlags,
                                   eta: real, pdfIsProportional: bool)
  {
    function IsReflection(): bool { IsReflective(flags) }
    function IsSpecularSample(): bool { IsSpecular(flags) }
    function IsTransmission(): bool { IsTransmissive(flags) }
  }

  /** A sample's predicates are those of its flags: a specular reflection is
      reflective and specular and does not transmit. */
  lemma SampleDelegates(s: BSDFSample)
    requires s.flags == SpecularReflection
    ensures s.IsReflection() && s.IsSpecularSample() && !s.IsTransmission()
  {
  }
}
