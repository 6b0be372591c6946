/** The standard parameter codes of AGSi 1.0.1 (`agsi_model.rs`): identifier, units, category
    and description of each, and the lookup that tells a standard code from a free-text one. */
module ParameterCodes {
  import opened Wrappers

  /** The standard parameter codes, in declaration order. */
  datatype AgsiParameterCode =
    | Depth | Elevation | AnalysisDrainageCondition
    | UnitWeightBulk
    | AngleFriction | AngleFrictionPeak | AngleFrictionCritical | AngleFrictionResidual | AngleDilation
    | Cohesion | UndrainedShearStrength | UndrainedShearStrengthTriaxial | UniaxialCompressiveStrength
    | YoungsModulusDrained | YoungsModulusUndrained | YoungsModulusDrainedVertical | YoungsModulusUndrainedVertical
    | YoungsModulusDrainedHorizontal | YoungsModulusUndrainedHorizontal | BulkModulus
    | ShearModulusDrained | ShearModulusUndrained | PoissonsRatio
    | CoefficientLateralEarthPressureAtRest | CoefficientLateralEarthPressureActive
    | CoefficientLateralEarthPressurePassive | CoefficientLateralEarthPressureStar
    | CBR | SubgradeSurfaceModulus
    | Permeability | PermeabilityHorizontal | PermeabilityVertical
    | ACECClass | ACECDSClass | ACECCDCClass
  {
    /** `units`: the standard unit, None for codes that are dimensionless or categorical. */
    function Units(): (r: Option<string>)
      ensures r.Some? ==> r.value in {"m", "kN/m3", "deg", "kPa", "MPa", "%", "m/s"}
      ensures r.None? <==> Category() in {"Ret wall", "ACEC"} || this in {AnalysisDrainageCondition, PoissonsRatio}
    {
      match this
      case Depth | Elevation => Some("m")
      case UnitWeightBulk => Some("kN/m3")
      case AngleFriction | AngleFrictionPeak | AngleFrictionCritical | AngleFrictionResidual | AngleDilation => Some("deg")
      case Cohesion | UndrainedShearStrength | UndrainedShearStrengthTriaxial => Some("kPa")
      case UniaxialCompressiveStrength | YoungsModulusDrained | YoungsModulusUndrained
        | YoungsModulusDrainedVertical | YoungsModulusUndrainedVertical
        | YoungsModulusDrainedHorizontal | YoungsModulusUndrainedHorizontal
        | BulkModulus | ShearModulusDrained | ShearModulusUndrained
        | SubgradeSurfaceModulus => Some("MPa")
      case CBR => Some("%")
      case Permeability | PermeabilityHorizontal | PermeabilityVertical => Some("m/s")
      case _ => None
    }

    /** `category`: the group the code belongs to. */
    function Category(): (r: string)
      ensures r in {"General", "Density", "Strength", "Stiffness", "Ret wall", "Pavement", "Permeability", "ACEC"}
    {
      match this
      case Depth | Elevation | AnalysisDrainageCondition => "General"
      case UnitWeightBulk => "Density"
      case AngleFriction | AngleFrictionPeak | AngleFrictionCritical | AngleFrictionResidual | AngleDilation
        | Cohesion | UndrainedShearStrength | UndrainedShearStrengthTriaxial => "Strength"
      case UniaxialCompressiveStrength | YoungsModulusDrained | YoungsModulusUndrained
        | YoungsModulusDrainedVertical | YoungsModulusUndrainedVertical
        | YoungsModulusDrainedHorizontal | YoungsModulusUndrainedHorizontal
        | BulkModulus | ShearModulusDrained | ShearModulusUndrained | PoissonsRatio => "Stiffness"
      case CoefficientLateralEarthPressureAtRest | CoefficientLateralEarthPressureActive
        | CoefficientLateralEarthPressurePassive | CoefficientLateralEarthPressureStar => "Ret wall"
      case CBR | SubgradeSurfaceModulus => "Pavement"
      case Permeability | PermeabilityHorizontal | PermeabilityVertical => "Permeability"
      case ACECClass | ACECDSClass | ACECCDCClass => "ACEC"
    }

    /** `description`: the human-readable meaning of the code (never empty, by
        `DescriptionNonEmpty`). */
    function Description(): (r: string)
    {
      match this
      case Depth => "Depth"
      case Elevation => "Elevation"
      case AnalysisDrainageCondition => "Drainage condition assumed for analysis: Drained or Undrained"
      case UnitWeightBulk => "Bulk unit weight"
      case AngleFriction => "Effective angle of shearing resistance"
      case AngleFrictionPeak => "Peak effective angle of shearing resistance"
      case AngleFrictionCritical => "Critical state effective angle of shearing resistance"
      case AngleFrictionResidual => "Residual effective angle of shearing resistance"
      case AngleDilation => "Angle of dilation"
      case Cohesion => "Effective cohesion"
      case UndrainedShearStrength => "Undrained shear strength"
      case UndrainedShearStrengthTriaxial => "Undrained shear strength from triaxial tests"
      case UniaxialCompressiveStrength => "Uniaxial Compressive Strength"
      case YoungsModulusDrained => "Drained Young's Modulus"
      case YoungsModulusUndrained => "Undrained Young's Modulus"
      case YoungsModulusDrainedVertical => "Vertical drained Young's Modulus"
      case YoungsModulusUndrainedVertical => "Vertical undrained Young's Modulus"
      case YoungsModulusDrainedHorizontal => "Horizontal drained Young's Modulus"
      case YoungsModulusUndrainedHorizontal => "Horizontal undrained Young's Modulus"
      case BulkModulus => "Bulk modulus"
      case ShearModulusDrained => "Drained shear Modulus"
      case ShearModulusUndrained => "Undrained shear Modulus"
      case PoissonsRatio => "Poisson's ratio"
      case CoefficientLateralEarthPressureAtRest => "Coefficient of earth pressure at rest"
      case CoefficientLateralEarthPressureActive => "Coefficient of active earth pressure"
      case CoefficientLateralEarthPressurePassive => "Coefficient of passive earth pressure"
      case CoefficientLateralEarthPressureStar =>
        "Coefficient of earth pressure for integral bridge abutments subject to strain ratcheting"
      case CBR => "California bearing ratio (CBR)"
      case SubgradeSurfaceModulus => "Subgrade surface modulus"
      case Permeability => "Permeability"
      case PermeabilityHorizontal => "Horizontal permeability"
      case PermeabilityVertical => "Vertical permeability"
      case ACECClass => "ACEC Aggressive chemical environment class"
      case ACECDSClass => "ACEC Design sulphate class"
      case ACECCDCClass => "ACEC Design chemical class"
    }

    /** `as_code_id`: the code's identifier in AGSi data, which is its own name. */
    function AsCodeId(): (r: string)
      ensures |r| > 0
    {
      match this
      case Depth => "Depth"
      case Elevation => "Elevation"
      case AnalysisDrainageCondition => "AnalysisDrainageCondition"
      case UnitWeightBulk => "UnitWeightBulk"
      case AngleFriction => "AngleFriction"
      case AngleFrictionPeak => "AngleFrictionPeak"
      case AngleFrictionCritical => "AngleFrictionCritical"
      case AngleFrictionResidual => "AngleFrictionResidual"
      case AngleDilation => "AngleDilation"
      case Cohesion => "Cohesion"
      case UndrainedShearStrength => "UndrainedShearStrength"
      case UndrainedShearStrengthTriaxial => "UndrainedShearStrengthTriaxial"
      case UniaxialCompressiveStrength => "UniaxialCompressiveStrength"
      case YoungsModulusDrained => "YoungsModulusDrained"
      case YoungsModulusUndrained => "YoungsModulusUndrained"
      case YoungsModulusDrainedVertical => "YoungsModulusDrainedVertical"
      case YoungsModulusUndrainedVertical => "YoungsModulusUndrainedVertical"
      case YoungsModulusDrainedHorizontal => "YoungsModulusDrainedHorizontal"
      case YoungsModulusUndrainedHorizontal => "YoungsModulusUndrainedHorizontal"
      case BulkModulus => "BulkModulus"
      case ShearModulusDrained => "ShearModulusDrained"
      case ShearModulusUndrained => "ShearModulusUndrained"
      case PoissonsRatio => "PoissonsRatio"
      case CoefficientLateralEarthPressureAtRest => "CoefficientLateralEarthPressureAtRest"
      case CoefficientLateralEarthPressureActive => "CoefficientLateralEarthPressureActive"
      case CoefficientLateralEarthPressurePassive => "CoefficientLateralEarthPressurePassive"
      case CoefficientLateralEarthPressureStar => "CoefficientLateralEarthPressureStar"
      case CBR => "CBR"
      case SubgradeSurfaceModulus => "SubgradeSurfaceModulus"
      case Permeability => "Permeability"
      case PermeabilityHorizontal => "PermeabilityHorizontal"
      case PermeabilityVertical => "PermeabilityVertical"
      case ACECClass => "ACECClass"
      case ACECDSClass => "ACECDSClass"
      case ACECCDCClass => "ACECCDCClass"
    }
  }

  /** `from_code_id`: the standard code with this identifier, None for a free-text code.
      Matching is exact (case-sensitive, no trimming). */
  function FromCodeId(code: string): (r: Option<AgsiParameterCode>)
  {
    match code
    case "Depth" => Some(Depth)
    case "Elevation" => Some(Elevation)
    case "AnalysisDrainageCondition" => Some(AnalysisDrainageCondition)
    case "UnitWeightBulk" => Some(UnitWeightBulk)
    case "AngleFriction" => Some(AngleFriction)
    case "AngleFrictionPeak" => Some(AngleFrictionPeak)
    case "AngleFrictionCritical" => Some(AngleFrictionCritical)
    case "AngleFrictionResidual" => Some(AngleFrictionResidual)
    case "AngleDilation" => Some(AngleDilation)
    case "Cohesion" => Some(Cohesion)
    case "UndrainedShearStrength" => Some(UndrainedShearStrength)
    case "UndrainedShearStrengthTriaxial" => Some(UndrainedShearStrengthTriaxial)
    case "UniaxialCompressiveStrength" => Some(UniaxialCompressiveStrength)
    case "YoungsModulusDrained" => Some(YoungsModulusDrained)
    case "YoungsModulusUndrained" => Some(YoungsModulusUndrained)
    case "YoungsModulusDrainedVertical" => Some(YoungsModulusDrainedVertical)
    case "YoungsModulusUndrainedVertical" => Some(YoungsModulusUndrainedVertical)
    case "YoungsModulusDrainedHorizontal" => Some(YoungsModulusDrainedHorizontal)
    case "YoungsModulusUndrainedHorizontal" => Some(YoungsModulusUndrainedHorizontal)
    case "BulkModulus" => Some(BulkModulus)
    case "ShearModulusDrained" => Some(ShearModulusDrained)
    case "ShearModulusUndrained" => Some(ShearModulusUndrained)
    case "PoissonsRatio" => Some(PoissonsRatio)
    case "CoefficientLateralEarthPressureAtRest" => Some(CoefficientLateralEarthPressureAtRest)
    case "CoefficientLateralEarthPressureActive" => Some(CoefficientLateralEarthPressureActive)
    case "CoefficientLateralEarthPressurePassive" => Some(CoefficientLateralEarthPressurePassive)
    case "CoefficientLateralEarthPressureStar" => Some(CoefficientLateralEarthPressureStar)
    case "CBR" => Some(CBR)
    case "SubgradeSurfaceModulus" => Some(SubgradeSurfaceModulus)
    case "Permeability" => Some(Permeability)
    case "PermeabilityHorizontal" => Some(PermeabilityHorizontal)
    case "PermeabilityVertical" => Some(PermeabilityVertical)
    case "ACECClass" => Some(ACECClass)
    case "ACECDSClass" => Some(ACECDSClass)
    case "ACECCDCClass" => Some(ACECCDCClass)
    case _ => None
  }
}

/** The facts the code table guarantees: identifiers round-trip, only the 35 identifiers are
    standard codes, and every description is non-empty. */
module ParameterCodeTable {
  import opened Wrappers
  import opened ParameterCodes

  // One table row per standard code: the identifier parses to the code and only that
  // identifier does; separately, the description is not empty. Each is a fact about
  // literals, which the verifier settles quickly once the code is fixed.

  lemma DepthRow(code: string)
    ensures FromCodeId("Depth") == Some(Depth)
    ensures FromCodeId(code) == Some(Depth) ==> code == "Depth"
  {
  }

  lemma DepthDescribed()
    ensures |Depth.Description()| > 0
  {
  }

  lemma ElevationRow(code: string)
    ensures FromCodeId("Elevation") == Some(Elevation)
    ensures FromCodeId(code) == Some(Elevation) ==> code == "Elevation"
  {
  }

  lemma ElevationDescribed()
    ensures |Elevation.Description()| > 0
  {
  }

  lemma AnalysisDrainageConditionRow(code: string)
    ensures FromCodeId("AnalysisDrainageCondition") == Some(AnalysisDrainageCondition)
    ensures FromCodeId(code) == Some(AnalysisDrainageCondition) ==> code == "AnalysisDrainageCondition"
  {
  }

  lemma AnalysisDrainageConditionDescribed()
    ensures |AnalysisDrainageCondition.Description()| > 0
  {
  }

  lemma UnitWeightBulkRow(code: string)
    ensures FromCodeId("UnitWeightBulk") == Some(UnitWeightBulk)
    ensures FromCodeId(code) == Some(UnitWeightBulk) ==> code == "UnitWeightBulk"
  {
  }

  lemma UnitWeightBulkDescribed()
    ensures |UnitWeightBulk.Description()| > 0
  {
  }

  lemma AngleFrictionRow(code: string)
    ensures FromCodeId("AngleFriction") == Some(AngleFriction)
    ensures FromCodeId(code) == Some(AngleFriction) ==> code == "AngleFriction"
  {
  }

  lemma AngleFrictionDescribed()
    ensures |AngleFriction.Description()| > 0
  {
  }

  lemma AngleFrictionPeakRow(code: string)
    ensures FromCodeId("AngleFrictionPeak") == Some(AngleFrictionPeak)
    ensures FromCodeId(code) == Some(AngleFrictionPeak) ==> code == "AngleFrictionPeak"
  {
  }

  lemma AngleFrictionPeakDescribed()
    ensures |AngleFrictionPeak.Description()| > 0
  {
  }

  lemma AngleFrictionCriticalRow(code: string)
    ensures FromCodeId("AngleFrictionCritical") == Some(AngleFrictionCritical)
    ensures FromCodeId(code) == Some(AngleFrictionCritical) ==> code == "AngleFrictionCritical"
  {
  }

  lemma AngleFrictionCriticalDescribed()
    ensures |AngleFrictionCritical.Description()| > 0
  {
  }

  lemma AngleFrictionResidualRow(code: string)
    ensures FromCodeId("AngleFrictionResidual") == Some(AngleFrictionResidual)
    ensures FromCodeId(code) == Some(AngleFrictionResidual) ==> code == "AngleFrictionResidual"
  {
  }

  lemma AngleFrictionResidualDescribed()
    ensures |AngleFrictionResidual.Description()| > 0
  {
  }

  lemma AngleDilationRow(code: string)
    ensures FromCodeId("AngleDilation") == Some(AngleDilation)
    ensures FromCodeId(code) == Some(AngleDilation) ==> code == "AngleDilation"
  {
  }

  lemma AngleDilationDescribed()
    ensures |AngleDilation.Description()| > 0
  {
  }

  lemma CohesionRow(code: string)
    ensures FromCodeId("Cohesion") == Some(Cohesion)
    ensures FromCodeId(code) == Some(Cohesion) ==> code == "Cohesion"
  {
  }

  lemma CohesionDescribed()
    ensures |Cohesion.Description()| > 0
  {
  }

  lemma UndrainedShearStrengthRow(code: string)
    ensures FromCodeId("UndrainedShearStrength") == Some(UndrainedShearStrength)
    ensures FromCodeId(code) == Some(UndrainedShearStrength) ==> code == "UndrainedShearStrength"
  {
  }

  lemma UndrainedShearStrengthDescribed()
    ensures |UndrainedShearStrength.Description()| > 0
  {
  }

  lemma UndrainedShearStrengthTriaxialRow(code: string)
    ensures FromCodeId("UndrainedShearStrengthTriaxial") == Some(UndrainedShearStrengthTriaxial)
    ensures FromCodeId(code) == Some(UndrainedShearStrengthTriaxial) ==> code == "UndrainedShearStrengthTriaxial"
  {
  }

  lemma UndrainedShearStrengthTriaxialDescribed()
    ensures |UndrainedShearStrengthTriaxial.Description()| > 0
  {
  }

  lemma UniaxialCompressiveStrengthRow(code: string)
    ensures FromCodeId("UniaxialCompressiveStrength") == Some(UniaxialCompressiveStrength)
    ensures FromCodeId(code) == Some(UniaxialCompressiveStrength) ==> code == "UniaxialCompressiveStrength"
  {
  }

  lemma UniaxialCompressiveStrengthDescribed()
    ensures |UniaxialCompressiveStrength.Description()| > 0
  {
  }

  lemma YoungsModulusDrainedRow(code: string)
    ensures FromCodeId("YoungsModulusDrained") == Some(YoungsModulusDrained)
    ensures FromCodeId(code) == Some(YoungsModulusDrained) ==> code == "YoungsModulusDrained"
  {
  }

  lemma YoungsModulusDrainedDescribed()
    ensures |YoungsModulusDrained.Description()| > 0
  {
  }

  lemma YoungsModulusUndrainedRow(code: string)
    ensures FromCodeId("YoungsModulusUndrained") == Some(YoungsModulusUndrained)
    ensures FromCodeId(code) == Some(YoungsModulusUndrained) ==> code == "YoungsModulusUndrained"
  {
  }

  lemma YoungsModulusUndrainedDescribed()
    ensures |YoungsModulusUndrained.Description()| > 0
  {
  }

  lemma YoungsModulusDrainedVerticalRow(code: string)
    ensures FromCodeId("YoungsModulusDrainedVertical") == Some(YoungsModulusDrainedVertical)
    ensures FromCodeId(code) == Some(YoungsModulusDrainedVertical) ==> code == "YoungsModulusDrainedVertical"
  {
  }

  lemma YoungsModulusDrainedVerticalDescribed()
    ensures |YoungsModulusDrainedVertical.Description()| > 0
  {
  }

  lemma YoungsModulusUndrainedVerticalRow(code: string)
    ensures FromCodeId("YoungsModulusUndrainedVertical") == Some(YoungsModulusUndrainedVertical)
    ensures FromCodeId(code) == Some(YoungsModulusUndrainedVertical) ==> code == "YoungsModulusUndrainedVertical"
  {
  }

  lemma YoungsModulusUndrainedVerticalDescribed()
    ensures |YoungsModulusUndrainedVertical.Description()| > 0
  {
  }

  lemma YoungsModulusDrainedHorizontalRow(code: string)
    ensures FromCodeId("YoungsModulusDrainedHorizontal") == Some(YoungsModulusDrainedHorizontal)
    ensures FromCodeId(code) == Some(YoungsModulusDrainedHorizontal) ==> code == "YoungsModulusDrainedHorizontal"
  {
  }

  lemma YoungsModulusDrainedHorizontalDescribed()
    ensures |YoungsModulusDrainedHorizontal.Description()| > 0
  {
  }

  lemma YoungsModulusUndrainedHorizontalRow(code: string)
    ensures FromCodeId("YoungsModulusUndrainedHorizontal") == Some(YoungsModulusUndrainedHorizontal)
    ensures FromCodeId(code) == Some(YoungsModulusUndrainedHorizontal) ==> code == "YoungsModulusUndrainedHorizontal"
  {
  }

  lemma YoungsModulusUndrainedHorizontalDescribed()
    ensures |YoungsModulusUndrainedHorizontal.Description()| > 0
  {
  }

  lemma BulkModulusRow(code: string)
    ensures FromCodeId("BulkModulus") == Some(BulkModulus)
    ensures FromCodeId(code) == Some(BulkModulus) ==> code == "BulkModulus"
  {
  }

  lemma BulkModulusDescribed()
    ensures |BulkModulus.Description()| > 0
  {
  }

  lemma ShearModulusDrainedRow(code: string)
    ensures FromCodeId("ShearModulusDrained") == Some(ShearModulusDrained)
    ensures FromCodeId(code) == Some(ShearModulusDrained) ==> code == "ShearModulusDrained"
  {
  }

  lemma ShearModulusDrainedDescribed()
    ensures |ShearModulusDrained.Description()| > 0
  {
  }

  lemma ShearModulusUndrainedRow(code: string)
    ensures FromCodeId("ShearModulusUndrained") == Some(ShearModulusUndrained)
    ensures FromCodeId(code) == Some(ShearModulusUndrained) ==> code == "ShearModulusUndrained"
  {
  }

  lemma ShearModulusUndrainedDescribed()
    ensures |ShearModulusUndrained.Description()| > 0
  {
  }

  lemma PoissonsRatioRow(code: string)
    ensures FromCodeId("PoissonsRatio") == Some(PoissonsRatio)
    ensures FromCodeId(code) == Some(PoissonsRatio) ==> code == "PoissonsRatio"
  {
  }

  lemma PoissonsRatioDescribed()
    ensures |PoissonsRatio.Description()| > 0
  {
  }

  lemma CoefficientLateralEarthPressureAtRestRow(code: string)
    ensures FromCodeId("CoefficientLateralEarthPressureAtRest") == Some(CoefficientLateralEarthPressureAtRest)
    ensures FromCodeId(code) == Some(CoefficientLateralEarthPressureAtRest) ==> code == "CoefficientLateralEarthPressureAtRest"
  {
  }

  lemma CoefficientLateralEarthPressureAtRestDescribed()
    ensures |CoefficientLateralEarthPressureAtRest.Description()| > 0
  {
  }

  lemma CoefficientLateralEarthPressureActiveRow(code: string)
    ensures FromCodeId("CoefficientLateralEarthPressureActive") == Some(CoefficientLateralEarthPressureActive)
    ensures FromCodeId(code) == Some(CoefficientLateralEarthPressureActive) ==> code == "CoefficientLateralEarthPressureActive"
  {
  }

  lemma CoefficientLateralEarthPressureActiveDescribed()
    ensures |CoefficientLateralEarthPressureActive.Description()| > 0
  {
  }

  lemma CoefficientLateralEarthPressurePassiveRow(code: string)
    ensures FromCodeId("CoefficientLateralEarthPressurePassive") == Some(CoefficientLateralEarthPressurePassive)
    ensures FromCodeId(code) == Some(CoefficientLateralEarthPressurePassive) ==> code == "CoefficientLateralEarthPressurePassive"
  {
  }

  lemma CoefficientLateralEarthPressurePassiveDescribed()
    ensures |CoefficientLateralEarthPressurePassive.Description()| > 0
  {
  }

  lemma CoefficientLateralEarthPressureStarRow(code: string)
    ensures FromCodeId("CoefficientLateralEarthPressureStar") == Some(CoefficientLateralEarthPressureStar)
    ensures FromCodeId(code) == Some(CoefficientLateralEarthPressureStar) ==> code == "CoefficientLateralEarthPressureStar"
  {
  }

  lemma CoefficientLateralEarthPressureStarDescribed()
    ensures |CoefficientLateralEarthPressureStar.Description()| > 0
  {
  }

  lemma CBRRow(code: string)
    ensures FromCodeId("CBR") == Some(CBR)
    ensures FromCodeId(code) == Some(CBR) ==> code == "CBR"
  {
  }

  lemma CBRDescribed()
    ensures |CBR.Description()| > 0
  {
  }

  lemma SubgradeSurfaceModulusRow(code: string)
    ensures FromCodeId("SubgradeSurfaceModulus") == Some(SubgradeSurfaceModulus)
    ensures FromCodeId(code) == Some(SubgradeSurfaceModulus) ==> code == "SubgradeSurfaceModulus"
  {
  }

  lemma SubgradeSurfaceModulusDescribed()
    ensures |SubgradeSurfaceModulus.Description()| > 0
  {
  }

  lemma PermeabilityRow(code: string)
    ensures FromCodeId("Permeability") == Some(Permeability)
    ensures FromCodeId(code) == Some(Permeability) ==> code == "Permeability"
  {
  }

  lemma PermeabilityDescribed()
    ensures |Permeability.Description()| > 0
  {
  }

  lemma PermeabilityHorizontalRow(code: string)
    ensures FromCodeId("PermeabilityHorizontal") == Some(PermeabilityHorizontal)
    ensures FromCodeId(code) == Some(PermeabilityHorizontal) ==> code == "PermeabilityHorizontal"
  {
  }

  lemma PermeabilityHorizontalDescribed()
    ensures |PermeabilityHorizontal.Description()| > 0
  {
  }

  lemma PermeabilityVerticalRow(code: string)
    ensures FromCodeId("PermeabilityVertical") == Some(PermeabilityVertical)
    ensures FromCodeId(code) == Some(PermeabilityVertical) ==> code == "PermeabilityVertical"
  {
  }

  lemma PermeabilityVerticalDescribed()
    ensures |PermeabilityVertical.Description()| > 0
  {
  }

  lemma ACECClassRow(code: string)
    ensures FromCodeId("ACECClass") == Some(ACECClass)
    ensures FromCodeId(code) == Some(ACECClass) ==> code == "ACECClass"
  {
  }

  lemma ACECClassDescribed()
    ensures |ACECClass.Description()| > 0
  {
  }

  lemma ACECDSClassRow(code: string)
    ensures FromCodeId("ACECDSClass") == Some(ACECDSClass)
    ensures FromCodeId(code) == Some(ACECDSClass) ==> code == "ACECDSClass"
  {
  }

  lemma ACECDSClassDescribed()
    ensures |ACECDSClass.Description()| > 0
  {
  }

  lemma ACECCDCClassRow(code: string)
    ensures FromCodeId("ACECCDCClass") == Some(ACECCDCClass)
    ensures FromCodeId(code) == Some(ACECCDCClass) ==> code == "ACECCDCClass"
  {
  }

  lemma ACECCDCClassDescribed()
    ensures |ACECCDCClass.Description()| > 0
  {
  }

  /** Every code's identifier parses back to that code. */
  lemma CodeIdRoundTrip(c: AgsiParameterCode)
    ensures FromCodeId(c.AsCodeId()) == Some(c)
  {
    match c
    case Depth => DepthRow("");
    case Elevation => ElevationRow("");
    case AnalysisDrainageCondition => AnalysisDrainageConditionRow("");
    case UnitWeightBulk => UnitWeightBulkRow("");
    case AngleFriction => AngleFrictionRow("");
    case AngleFrictionPeak => AngleFrictionPeakRow("");
    case AngleFrictionCritical => AngleFrictionCriticalRow("");
    case AngleFrictionResidual => AngleFrictionResidualRow("");
    case AngleDilation => AngleDilationRow("");
    case Cohesion => CohesionRow("");
    case UndrainedShearStrength => UndrainedShearStrengthRow("");
    case UndrainedShearStrengthTriaxial => UndrainedShearStrengthTriaxialRow("");
    case UniaxialCompressiveStrength => UniaxialCompressiveStrengthRow("");
    case YoungsModulusDrained => YoungsModulusDrainedRow("");
    case YoungsModulusUndrained => YoungsModulusUndrainedRow("");
    case YoungsModulusDrainedVertical => YoungsModulusDrainedVerticalRow("");
    case YoungsModulusUndrainedVertical => YoungsModulusUndrainedVerticalRow("");
    case YoungsModulusDrainedHorizontal => YoungsModulusDrainedHorizontalRow("");
    case YoungsModulusUndrainedHorizontal => YoungsModulusUndrainedHorizontalRow("");
    case BulkModulus => BulkModulusRow("");
    case ShearModulusDrained => ShearModulusDrainedRow("");
    case ShearModulusUndrained => ShearModulusUndrainedRow("");
    case PoissonsRatio => PoissonsRatioRow("");
    case CoefficientLateralEarthPressureAtRest => CoefficientLateralEarthPressureAtRestRow("");
    case CoefficientLateralEarthPressureActive => CoefficientLateralEarthPressureActiveRow("");
    case CoefficientLateralEarthPressurePassive => CoefficientLateralEarthPressurePassiveRow("");
    case CoefficientLateralEarthPressureStar => CoefficientLateralEarthPressureStarRow("");
    case CBR => CBRRow("");
    case SubgradeSurfaceModulus => SubgradeSurfaceModulusRow("");
    case Permeability => PermeabilityRow("");
    case PermeabilityHorizontal => PermeabilityHorizontalRow("");
    case PermeabilityVertical => PermeabilityVerticalRow("");
    case ACECClass => ACECClassRow("");
    case ACECDSClass => ACECDSClassRow("");
    case ACECCDCClass => ACECCDCClassRow("");
  }

  /** A string parses only to the code whose identifier it is: any other string is free text. */
  lemma FromCodeIdSound(code: string)
    ensures FromCodeId(code).Some? ==> FromCodeId(code).value.AsCodeId() == code
  {
    match FromCodeId(code)
    case None =>
    case Some(c) =>
      match c
      case Depth => DepthRow(code);
      case Elevation => ElevationRow(code);
      case AnalysisDrainageCondition => AnalysisDrainageConditionRow(code);
      case UnitWeightBulk => UnitWeightBulkRow(code);
      case AngleFriction => AngleFrictionRow(code);
      case AngleFrictionPeak => AngleFrictionPeakRow(code);
      case AngleFrictionCritical => AngleFrictionCriticalRow(code);
      case AngleFrictionResidual => AngleFrictionResidualRow(code);
      case AngleDilation => AngleDilationRow(code);
      case Cohesion => CohesionRow(code);
      case UndrainedShearStrength => UndrainedShearStrengthRow(code);
      case UndrainedShearStrengthTriaxial => UndrainedShearStrengthTriaxialRow(code);
      case UniaxialCompressiveStrength => UniaxialCompressiveStrengthRow(code);
      case YoungsModulusDrained => YoungsModulusDrainedRow(code);
      case YoungsModulusUndrained => YoungsModulusUndrainedRow(code);
      case YoungsModulusDrainedVertical => YoungsModulusDrainedVerticalRow(code);
      case YoungsModulusUndrainedVertical => YoungsModulusUndrainedVerticalRow(code);
      case YoungsModulusDrainedHorizontal => YoungsModulusDrainedHorizontalRow(code);
      case YoungsModulusUndrainedHorizontal => YoungsModulusUndrainedHorizontalRow(code);
      case BulkModulus => BulkModulusRow(code);
      case ShearModulusDrained => ShearModulusDrainedRow(code);
      case ShearModulusUndrained => ShearModulusUndrainedRow(code);
      case PoissonsRatio => PoissonsRatioRow(code);
      case CoefficientLateralEarthPressureAtRest => CoefficientLateralEarthPressureAtRestRow(code);
      case CoefficientLateralEarthPressureActive => CoefficientLateralEarthPressureActiveRow(code);
      case CoefficientLateralEarthPressurePassive => CoefficientLateralEarthPressurePassiveRow(code);
      case CoefficientLateralEarthPressureStar => CoefficientLateralEarthPressureStarRow(code);
      case CBR => CBRRow(code);
      case SubgradeSurfaceModulus => SubgradeSurfaceModulusRow(code);
      case Permeability => PermeabilityRow(code);
      case PermeabilityHorizontal => PermeabilityHorizontalRow(code);
      case PermeabilityVertical => PermeabilityVerticalRow(code);
      case ACECClass => ACECClassRow(code);
      case ACECDSClass => ACECDSClassRow(code);
      case ACECCDCClass => ACECCDCClassRow(code);
  }

  /** Every code has a non-empty description. */
  lemma DescriptionNonEmpty(c: AgsiParameterCode)
    ensures |c.Description()| > 0
  {
    match c
    case Depth => DepthDescribed();
    case Elevation => ElevationDescribed();
    case AnalysisDrainageCondition => AnalysisDrainageConditionDescribed();
    case UnitWeightBulk => UnitWeightBulkDescribed();
    case AngleFriction => AngleFrictionDescribed();
    case AngleFrictionPeak => AngleFrictionPeakDescribed();
    case AngleFrictionCritical => AngleFrictionCriticalDescribed();
    case AngleFrictionResidual => AngleFrictionResidualDescribed();
    case AngleDilation => AngleDilationDescribed();
    case Cohesion => CohesionDescribed();
    case UndrainedShearStrength => UndrainedShearStrengthDescribed();
    case UndrainedShearStrengthTriaxial => UndrainedShearStrengthTriaxialDescribed();
    case UniaxialCompressiveStrength => UniaxialCompressiveStrengthDescribed();
    case YoungsModulusDrained => YoungsModulusDrainedDescribed();
    case YoungsModulusUndrained => YoungsModulusUndrainedDescribed();
    case YoungsModulusDrainedVertical => YoungsModulusDrainedVerticalDescribed();
    case YoungsModulusUndrainedVertical => YoungsModulusUndrainedVerticalDescribed();
    case YoungsModulusDrainedHorizontal => YoungsModulusDrainedHorizontalDescribed();
    case YoungsModulusUndrainedHorizontal => YoungsModulusUndrainedHorizontalDescribed();
    case BulkModulus => BulkModulusDescribed();
    case ShearModulusDrained => ShearModulusDrainedDescribed();
    case ShearModulusUndrained => ShearModulusUndrainedDescribed();
    case PoissonsRatio => PoissonsRatioDescribed();
    case CoefficientLateralEarthPressureAtRest => CoefficientLateralEarthPressureAtRestDescribed();
    case CoefficientLateralEarthPressureActive => CoefficientLateralEarthPressureActiveDescribed();
    case CoefficientLateralEarthPressurePassive => CoefficientLateralEarthPressurePassiveDescribed();
    case CoefficientLateralEarthPressureStar => CoefficientLateralEarthPressureStarDescribed();
    case CBR => CBRDescribed();
    case SubgradeSurfaceModulus => SubgradeSurfaceModulusDescribed();
    case Permeability => PermeabilityDescribed();
    case PermeabilityHorizontal => PermeabilityHorizontalDescribed();
    case PermeabilityVertical => PermeabilityVerticalDescribed();
    case ACECClass => ACECClassDescribed();
    case ACECDSClass => ACECDSClassDescribed();
    case ACECCDCClass => ACECCDCClassDescribed();
  }

  /** A string names a standard code exactly when it is some code's identifier, and distinct
      codes have distinct identifiers. */
  lemma CodeIdIsStandardIff(code: string)
    ensures FromCodeId(code).Some? <==> exists c: AgsiParameterCode :: c.AsCodeId() == code
    ensures forall c1: AgsiParameterCode, c2: AgsiParameterCode :: c1.AsCodeId() == c2.AsCodeId() ==> c1 == c2
  {
    FromCodeIdSound(code);
    forall c: AgsiParameterCode
      ensures FromCodeId(c.AsCodeId()) == Some(c)
    {
      CodeIdRoundTrip(c);
    }
  }

  /** The code table example of the crate's tests: undrained shear strength is in kPa, in the
      Strength group, under its own name; and the friction angle's identifier parses back. */
  lemma StandardCodeExamples()
    ensures UndrainedShearStrength.Units() == Some("kPa")
    ensures UndrainedShearStrength.Category() == "Strength"
    ensures UndrainedShearStrength.AsCodeId() == "UndrainedShearStrength"
    ensures AngleFriction.AsCodeId() == "AngleFriction" && FromCodeId("AngleFriction") == Some(AngleFriction)
  {
  }
}
