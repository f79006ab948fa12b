/** The automatic-transfer-switch indicator (track.js, updateATSStatus): during
    peak hours the battery (BESS) supplies the load, otherwise the grid does.
    The indicator shows one text and carries exactly one of two classes. */
module Ats {
  import opened ClassList

  const BessMode: string := "bess-mode"
  const GridMode: string := "grid-mode"
  const BessText: string := "ATS Switch is in: BESS Mode (Battery supplying source)"
  const GridText: string := "ATS Switch is in: Grid Mode (Grid supplying power)"

  /** The indicator's classes after one update: add the active mode, remove the other. */
  function AtsClasses(classes: set<string>, peak: bool): set<string>
  {
    if peak then Select(classes, BessMode, GridMode) else Select(classes, GridMode, BessMode)
  }

  /** The indicator's text after one update. */
  function AtsText(peak: bool): string
  {
    if peak then BessText else GridText
  }

  /** After an update exactly one mode class is present, "bess-mode" exactly in
      peak hours, the text names the same mode, and no other class changed. */
  lemma AtsExactlyOne(classes: set<string>, peak: bool)
    ensures BessMode in AtsClasses(classes, peak) <==> peak
    ensures GridMode in AtsClasses(classes, peak) <==> !peak
    ensures AtsText(peak) == BessText <==> peak
    ensures forall c :: c != BessMode && c != GridMode ==> (c in AtsClasses(classes, peak) <==> c in classes)
  {
    assert BessText[18] != GridText[18];
  }

  /** The indicator does not depend on its history: updating twice with the
      same classification is the same as updating once, and the last update
      decides the mode. */
  lemma AtsLastUpdateWins(classes: set<string>, first: bool, second: bool)
    ensures AtsClasses(AtsClasses(classes, first), second) == AtsClasses(classes, second)
  {
    if first == second {
      SelectIdempotent(classes, if first then BessMode else GridMode, if first then GridMode else BessMode);
    } else if second {
      SelectLastWins(classes, GridMode, BessMode);
    } else {
      SelectLastWins(classes, BessMode, GridMode);
    }
  }
}
