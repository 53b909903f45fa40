/** Concrete inputs that exhibit rules of the model on which the source's behaviour is easy
    to misread. */
module Scenarios {
  import opened Wrappers
  import opened Names
  import opened Documents
  import opened Utils

  /** The swid test of `isShapeChangePower` is exact: a power with swid "Shape-Change" and an
      unrelated name is not a shape-change power, although the swid differs from
      "shape-change" only in case. */
  lemma SwidMatchIsCaseSensitive(flags: Flags)
    ensures !IsShapeChangePower(Some(Item("i", "power", "Wolf", "Shape-Change", "", "", flags)))
  {
    assert "Shape-Change" != SWID_SHAPE_CHANGE by { assert "Shape-Change"[0] != SWID_SHAPE_CHANGE[0]; }
    assert "Shape-Change" != SWID_BALEFUL_POLYMORPH by { assert "Shape-Change"[0] != SWID_BALEFUL_POLYMORPH[0]; }
    assert |ToLower("Wolf")| == 4;
  }
}
