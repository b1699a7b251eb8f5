/**
 * The landmark index lists of the earlier app's regions, and the choice of
 * list for a region: some regions have one list, some are the left list
 * followed by the right one, and the rest have none.
 */
module LandmarkIndices {
  import opened ClinicalTypes
  import opened FaceLayout

  const LipsIndices: seq<nat> := [
    61, 146, 91, 181, 84, 17, 314, 405, 321, 375, 291,
    409, 270, 269, 267, 0, 37, 39, 40, 185, 61
  ]
  const UpperLipIndices: seq<nat> := [61, 185, 40, 39, 37, 0, 267, 269, 270, 409, 291, 308, 415, 310, 311, 312, 13, 82, 81, 80, 191, 78, 61]
  const LowerLipIndices: seq<nat> := [61, 146, 91, 181, 84, 17, 314, 405, 321, 375, 291, 308, 324, 318, 402, 317, 14, 87, 178, 88, 95, 78, 61]
  const JawlineIndices: seq<nat> := [
    172, 136, 150, 149, 176, 148, 152,
    377, 400, 378, 379, 365, 397, 288
  ]
  const NoseIndices: seq<nat> := [168, 6, 197, 195, 5, 4, 1, 19, 94, 2, 98, 97, 2, 326, 327, 294, 278, 279, 420, 429, 351, 417, 465]
  const CheeksLeft: seq<nat> := [123, 50, 205, 206, 207, 187, 147, 137, 227, 127, 162, 21, 54, 103, 67, 109, 10]
  const CheeksRight: seq<nat> := [352, 280, 425, 426, 427, 411, 376, 366, 447, 356, 389, 251, 284, 332, 297, 338, 338]
  const NasolabialLeft: seq<nat> := [205, 206, 207, 187, 147, 50, 36, 142, 100]
  const NasolabialRight: seq<nat> := [425, 426, 427, 411, 376, 280, 266, 371, 329]
  const TearTroughLeft: seq<nat> := [226, 31, 228, 229, 230, 231, 232, 233, 244]
  const TearTroughRight: seq<nat> := [446, 261, 448, 449, 450, 451, 452, 453, 464]

  /** `getIndicesForRegion` */
  function IndicesForRegion(region: SimulationRegion): (indices: seq<nat>)
    ensures region == Lips ==> indices == LipsIndices
    ensures region == Jawline ==> indices == JawlineIndices
    ensures region == Nose ==> indices == NoseIndices
    ensures region == Cheeks ==>
      (|indices| == |CheeksLeft| + |CheeksRight| && indices[..|CheeksLeft|] == CheeksLeft && indices[|CheeksLeft|..] == CheeksRight)
    ensures region == Nasolabial ==>
      (|indices| == |NasolabialLeft| + |NasolabialRight| && indices[..|NasolabialLeft|] == NasolabialLeft && indices[|NasolabialLeft|..] == NasolabialRight)
    ensures region == TearTroughs ==>
      (|indices| == |TearTroughLeft| + |TearTroughRight| && indices[..|TearTroughLeft|] == TearTroughLeft && indices[|TearTroughLeft|..] == TearTroughRight)
    ensures region == Chin || region == UpperFace ==> indices == []
  {
    match region
    case Lips => LipsIndices
    case Jawline => JawlineIndices
    case Nose => NoseIndices
    case Cheeks => CheeksLeft + CheeksRight
    case Nasolabial => NasolabialLeft + NasolabialRight
    case TearTroughs => TearTroughLeft + TearTroughRight
    case _ => []
  }

  lemma LipAndJawListsInLayout()
    ensures InLayout(LipsIndices) && InLayout(UpperLipIndices) && InLayout(LowerLipIndices) && InLayout(JawlineIndices)
  {
  }

  lemma SideListsInLayout()
    ensures InLayout(CheeksLeft) && InLayout(CheeksRight)
    ensures InLayout(NasolabialLeft) && InLayout(NasolabialRight)
    ensures InLayout(TearTroughLeft) && InLayout(TearTroughRight)
  {
  }

  /** Every region's list names landmarks of the 468-point layout. */
  lemma AllIndicesInLayout(region: SimulationRegion)
    ensures InLayout(IndicesForRegion(region))
  {
    match region
    case Lips => LipAndJawListsInLayout();
    case Jawline => LipAndJawListsInLayout();
    case Nose => assert InLayout(NoseIndices);
    case Cheeks => SideListsInLayout(); InLayoutAppend(CheeksLeft, CheeksRight);
    case Nasolabial => SideListsInLayout(); InLayoutAppend(NasolabialLeft, NasolabialRight);
    case TearTroughs => SideListsInLayout(); InLayoutAppend(TearTroughLeft, TearTroughRight);
    case _ =>
  }

  /** The lists are sequences with repeats: the right cheek ends with 338 twice, and the nose visits 2 twice. */
  lemma ListsHaveRepeats()
    ensures CheeksRight[|CheeksRight| - 2] == CheeksRight[|CheeksRight| - 1] == 338
    ensures NoseIndices[9] == NoseIndices[12] == 2
    ensures |IndicesForRegion(Cheeks)| == 34
  {
  }
}
