/**
 * Segmentation constants of the demand model: purposes, trip origins, car
 * availability, user classes and the NoRMS VDM segment naming.  The lemmas
 * record how these tables fit together.
 */
module Constants {
  import opened Wrappers

  const InternalSuffix: string := "_int"
  const ExternalSuffix: string := "_ext"
  const CompressionSuffix: string := ".csv.bz2"

  // ----- purposes -----

  const AllHbP: seq<int> := [1, 2, 3, 4, 5, 6, 7, 8]
  const AllNhbP: seq<int> := [12, 13, 14, 15, 16, 18]
  const AllP: seq<int> := AllHbP + AllNhbP

  /** Purposes segmented by occupation (SOC) and by socio-economic group (NS-SEC). */
  const SocP: seq<int> := [1, 2, 12]
  const NsP: seq<int> := [3, 4, 5, 6, 7, 8, 13, 14, 15, 16, 18]

  const TripOrigins: seq<string> := ["hb", "nhb"]

  /** The purposes of a trip origin; no entry for any other key. */
  function TripOriginPurposes(origin: string): (r: Option<seq<int>>)
    ensures r.Some? <==> origin in TripOrigins
    ensures r.Some? ==> forall p :: p in r.value ==> p in AllP
  {
    if origin == "hb" then Some(AllHbP) else if origin == "nhb" then Some(AllNhbP) else None
  }

  const ValidCa: seq<int> := [1, 2]

  const UserClassPurposes: map<string, seq<int>> :=
    map["commute" := [1], "business" := [2, 12], "other" := [3, 4, 5, 6, 7, 8, 13, 14, 15, 16, 18]]

  const HbUserClassPurposes: map<string, seq<int>> :=
    map["commute" := [1], "business" := [2], "other" := [3, 4, 5, 6, 7, 8]]

  /** Home-based and non-home-based purposes are disjoint and together are all purposes. */
  lemma TripOriginsPartitionPurposes()
    ensures forall p :: p in AllHbP ==> p !in AllNhbP
    ensures forall p :: p in AllP <==> p in TripOriginPurposes("hb").value || p in TripOriginPurposes("nhb").value
  {
  }

  /** SOC and NS-SEC purposes split the purposes between them. */
  lemma SocAndNsPartitionPurposes()
    ensures forall p :: p in SocP ==> p !in NsP
    ensures forall p :: p in AllP <==> p in SocP || p in NsP
  {
  }

  /** Every purpose belongs to exactly one user class. */
  lemma UserClassesPartitionPurposes()
    ensures UserClassPurposes.Keys == {"commute", "business", "other"}
    ensures forall p :: p in AllP <==>
      p in UserClassPurposes["commute"] || p in UserClassPurposes["business"] || p in UserClassPurposes["other"]
    ensures forall p :: p in UserClassPurposes["commute"] ==> p !in UserClassPurposes["business"] && p !in UserClassPurposes["other"]
    ensures forall p :: p in UserClassPurposes["business"] ==> p !in UserClassPurposes["other"]
  {
  }

  /** The home-based user classes are the user classes restricted to home-based purposes. */
  lemma HbUserClassesAreRestriction()
    ensures HbUserClassPurposes.Keys == UserClassPurposes.Keys
    ensures forall uc, p :: uc in UserClassPurposes && p in UserClassPurposes[uc] ==>
      (p in HbUserClassPurposes[uc] <==> p in AllHbP)
    ensures forall uc, p :: uc in HbUserClassPurposes && p in HbUserClassPurposes[uc] ==> p in UserClassPurposes[uc]
  {
  }

  /** Every home-based purpose belongs to exactly one home-based user class. */
  lemma HbUserClassesPartitionHbPurposes()
    ensures forall p :: p in AllHbP <==>
      p in HbUserClassPurposes["commute"] || p in HbUserClassPurposes["business"] || p in HbUserClassPurposes["other"]
    ensures forall p :: p in HbUserClassPurposes["commute"] ==> p !in HbUserClassPurposes["business"] && p !in HbUserClassPurposes["other"]
    ensures forall p :: p in HbUserClassPurposes["business"] ==> p !in HbUserClassPurposes["other"]
  {
  }

  // ----- NoRMS VDM segments -----

  /** The NoRMS VDM matrices, named as the keys of the naming table. */
  datatype VdmMatrix =
    | HB_W_CA_int | HB_W_NCA_int | HB_EB_CA_int | HB_EB_NCA_int | NHB_EB_CA_int
    | NHB_EB_NCA_int | HB_O_CA_int | HB_O_NCA_int | NHB_O_CA_int | NHB_O_NCA_int
    | W_CA_ext | W_NCA_ext | EB_CA_ext | EB_NCA_ext | O_CA_ext | O_NCA_ext

  /** The naming table's keys, in its order. */
  const NormsVdmMatrixNames: seq<VdmMatrix> := [
    HB_W_CA_int, HB_W_NCA_int, HB_EB_CA_int, HB_EB_NCA_int, NHB_EB_CA_int,
    NHB_EB_NCA_int, HB_O_CA_int, HB_O_NCA_int, NHB_O_CA_int, NHB_O_NCA_int,
    W_CA_ext, W_NCA_ext, EB_CA_ext, EB_NCA_ext, O_CA_ext, O_NCA_ext
  ]

  /** The text of a matrix's key. */
  function VdmKey(m: VdmMatrix): string
  {
    match m
    case HB_W_CA_int => "HB_W_CA_int"
    case HB_W_NCA_int => "HB_W_NCA_int"
    case HB_EB_CA_int => "HB_EB_CA_int"
    case HB_EB_NCA_int => "HB_EB_NCA_int"
    case NHB_EB_CA_int => "NHB_EB_CA_int"
    case NHB_EB_NCA_int => "NHB_EB_NCA_int"
    case HB_O_CA_int => "HB_O_CA_int"
    case HB_O_NCA_int => "HB_O_NCA_int"
    case NHB_O_CA_int => "NHB_O_CA_int"
    case NHB_O_NCA_int => "NHB_O_NCA_int"
    case W_CA_ext => "W_CA_ext"
    case W_NCA_ext => "W_NCA_ext"
    case EB_CA_ext => "EB_CA_ext"
    case EB_NCA_ext => "EB_NCA_ext"
    case O_CA_ext => "O_CA_ext"
    case O_NCA_ext => "O_NCA_ext"
  }

  /** The post-ME matrix names a VDM matrix is written as. */
  function PostmeNames(m: VdmMatrix): seq<string>
  {
    match m
    case HB_W_CA_int => ["HBWCA_Int"]
    case HB_W_NCA_int => ["HBWNCA_Int"]
    case HB_EB_CA_int => ["HBEBCA_Int"]
    case HB_EB_NCA_int => ["HBEBNCA_Int"]
    case NHB_EB_CA_int => ["NHBEBCA_Int"]
    case NHB_EB_NCA_int => ["NHBEBNCA_Int"]
    case HB_O_CA_int => ["HBOCA_Int"]
    case HB_O_NCA_int => ["HBONCA_Int"]
    case NHB_O_CA_int => ["NHBOCA_Int"]
    case NHB_O_NCA_int => ["NHBONCA_Int"]
    case W_CA_ext => ["HBWCA_Ext_FM", "HBWCA_Ext_TO"]
    case W_NCA_ext => ["HBWNCA_Ext"]
    case EB_CA_ext => ["EBCA_Ext_FM", "EBCA_Ext_TO"]
    case EB_NCA_ext => ["EBNCA_Ext"]
    case O_CA_ext => ["OCA_Ext_FM", "OCA_Ext_TO"]
    case O_NCA_ext => ["ONCA_Ext_TO"]
  }

  /** One VDM aggregation: trip origins, car-availability values and user class. */
  datatype SegmentAggregation = SegmentAggregation(origins: seq<string>, ca: seq<int>, userClass: string)

  /** The internal aggregation table; no entry for external matrices. */
  function InternalAggregation(m: VdmMatrix): Option<SegmentAggregation>
  {
    match m
    case HB_W_CA_int => Some(SegmentAggregation(["hb"], [2], "commute"))
    case HB_W_NCA_int => Some(SegmentAggregation(["hb"], [1], "commute"))
    case HB_EB_CA_int => Some(SegmentAggregation(["hb"], [2], "business"))
    case HB_EB_NCA_int => Some(SegmentAggregation(["hb"], [1], "business"))
    case NHB_EB_CA_int => Some(SegmentAggregation(["nhb"], [2], "business"))
    case NHB_EB_NCA_int => Some(SegmentAggregation(["nhb"], [1], "business"))
    case HB_O_CA_int => Some(SegmentAggregation(["hb"], [2], "other"))
    case HB_O_NCA_int => Some(SegmentAggregation(["hb"], [1], "other"))
    case NHB_O_CA_int => Some(SegmentAggregation(["nhb"], [2], "other"))
    case NHB_O_NCA_int => Some(SegmentAggregation(["nhb"], [1], "other"))
    case _ => None
  }

  /** The external aggregation table; no entry for internal matrices. */
  function ExternalAggregation(m: VdmMatrix): Option<SegmentAggregation>
  {
    match m
    case W_CA_ext => Some(SegmentAggregation(["hb", "nhb"], [2], "commute"))
    case W_NCA_ext => Some(SegmentAggregation(["hb", "nhb"], [1], "commute"))
    case EB_CA_ext => Some(SegmentAggregation(["hb", "nhb"], [2], "business"))
    case EB_NCA_ext => Some(SegmentAggregation(["hb", "nhb"], [1], "business"))
    case O_CA_ext => Some(SegmentAggregation(["hb", "nhb"], [2], "other"))
    case O_NCA_ext => Some(SegmentAggregation(["hb", "nhb"], [1], "other"))
    case _ => None
  }

  /**
   * Every named matrix is in exactly one of the internal and external
   * aggregation tables, and the name list holds each matrix once.
   */
  lemma VdmSegmentsPartition()
    ensures forall m :: InternalAggregation(m).Some? <==> ExternalAggregation(m).None?
    ensures forall m :: m in NormsVdmMatrixNames
    ensures forall i, j :: 0 <= i < j < |NormsVdmMatrixNames| ==> NormsVdmMatrixNames[i] != NormsVdmMatrixNames[j]
  {
    forall m ensures m in NormsVdmMatrixNames {
      match m
      case HB_W_CA_int => assert NormsVdmMatrixNames[0] == m;
      case HB_W_NCA_int => assert NormsVdmMatrixNames[1] == m;
      case HB_EB_CA_int => assert NormsVdmMatrixNames[2] == m;
      case HB_EB_NCA_int => assert NormsVdmMatrixNames[3] == m;
      case NHB_EB_CA_int => assert NormsVdmMatrixNames[4] == m;
      case NHB_EB_NCA_int => assert NormsVdmMatrixNames[5] == m;
      case HB_O_CA_int => assert NormsVdmMatrixNames[6] == m;
      case HB_O_NCA_int => assert NormsVdmMatrixNames[7] == m;
      case NHB_O_CA_int => assert NormsVdmMatrixNames[8] == m;
      case NHB_O_NCA_int => assert NormsVdmMatrixNames[9] == m;
      case W_CA_ext => assert NormsVdmMatrixNames[10] == m;
      case W_NCA_ext => assert NormsVdmMatrixNames[11] == m;
      case EB_CA_ext => assert NormsVdmMatrixNames[12] == m;
      case EB_NCA_ext => assert NormsVdmMatrixNames[13] == m;
      case O_CA_ext => assert NormsVdmMatrixNames[14] == m;
      case O_NCA_ext => assert NormsVdmMatrixNames[15] == m;
    }
  }

  /** Internal aggregations carry the internal key suffix, external ones the external suffix. */
  lemma VdmKeySuffixes()
    ensures forall m :: |VdmKey(m)| > 4
    ensures forall m :: InternalAggregation(m).Some? ==> VdmKey(m)[|VdmKey(m)| - 4..] == InternalSuffix
    ensures forall m :: ExternalAggregation(m).Some? ==> VdmKey(m)[|VdmKey(m)| - 4..] == ExternalSuffix
  {
    forall m
      ensures |VdmKey(m)| > 4
      ensures InternalAggregation(m).Some? ==> VdmKey(m)[|VdmKey(m)| - 4..] == InternalSuffix
      ensures ExternalAggregation(m).Some? ==> VdmKey(m)[|VdmKey(m)| - 4..] == ExternalSuffix
    {
      match m
      case HB_W_CA_int => assert "HB_W_CA_int"[7..] == "_int";
      case HB_W_NCA_int => assert "HB_W_NCA_int"[8..] == "_int";
      case HB_EB_CA_int => assert "HB_EB_CA_int"[8..] == "_int";
      case HB_EB_NCA_int => assert "HB_EB_NCA_int"[9..] == "_int";
      case NHB_EB_CA_int => assert "NHB_EB_CA_int"[9..] == "_int";
      case NHB_EB_NCA_int => assert "NHB_EB_NCA_int"[10..] == "_int";
      case HB_O_CA_int => assert "HB_O_CA_int"[7..] == "_int";
      case HB_O_NCA_int => assert "HB_O_NCA_int"[8..] == "_int";
      case NHB_O_CA_int => assert "NHB_O_CA_int"[8..] == "_int";
      case NHB_O_NCA_int => assert "NHB_O_NCA_int"[9..] == "_int";
      case W_CA_ext => assert "W_CA_ext"[4..] == "_ext";
      case W_NCA_ext => assert "W_NCA_ext"[5..] == "_ext";
      case EB_CA_ext => assert "EB_CA_ext"[5..] == "_ext";
      case EB_NCA_ext => assert "EB_NCA_ext"[6..] == "_ext";
      case O_CA_ext => assert "O_CA_ext"[4..] == "_ext";
      case O_NCA_ext => assert "O_NCA_ext"[5..] == "_ext";
    }
  }

  /**
   * Every aggregation uses valid car-availability values and a known user
   * class; internal matrices have one trip origin, external ones both.
   */
  lemma VdmAggregationsWellFormed()
    ensures forall m :: InternalAggregation(m).Some? ==>
      |InternalAggregation(m).value.origins| == 1 && InternalAggregation(m).value.origins[0] in TripOrigins
    ensures forall m :: ExternalAggregation(m).Some? ==> ExternalAggregation(m).value.origins == TripOrigins
    ensures forall m, c :: InternalAggregation(m).Some? && c in InternalAggregation(m).value.ca ==> c in ValidCa
    ensures forall m, c :: ExternalAggregation(m).Some? && c in ExternalAggregation(m).value.ca ==> c in ValidCa
    ensures forall m :: InternalAggregation(m).Some? ==> InternalAggregation(m).value.userClass in UserClassPurposes
    ensures forall m :: ExternalAggregation(m).Some? ==> ExternalAggregation(m).value.userClass in UserClassPurposes
  {
  }

  /**
   * Only the three car-available external matrices are written under two
   * names (from-home and to-home); every other matrix has one name.  The
   * no-car other-purpose external matrix carries a to-home suffix, unlike its
   * business and commute siblings.
   */
  lemma PostmeNameCounts()
    ensures forall m :: |PostmeNames(m)| == 2 <==> ExternalAggregation(m).Some? && ExternalAggregation(m).value.ca == [2]
    ensures forall m :: |PostmeNames(m)| == 1 || |PostmeNames(m)| == 2
    ensures PostmeNames(O_NCA_ext) == ["ONCA_Ext_TO"] && PostmeNames(EB_NCA_ext) == ["EBNCA_Ext"]
  {
  }
}
