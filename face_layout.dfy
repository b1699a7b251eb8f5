/** The MediaPipe face-mesh landmark layout that the mesh, the masks and the morph catalog index into. */
module FaceLayout {
  /** The number of landmarks in the face-mesh layout. */
  const LayoutSize: nat := 468

  /** Every index names a landmark of the layout. */
  predicate InLayout(indices: seq<nat>) {
    forall j :: 0 <= j < |indices| ==> indices[j] < LayoutSize
  }

  lemma InLayoutAppend(s: seq<nat>, t: seq<nat>)
    requires InLayout(s) && InLayout(t)
    ensures InLayout(s + t)
  {
  }
}
