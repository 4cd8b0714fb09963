/**
 * The one piece of logic in the results panel: the lookup of the icon and traits
 * shown for the classified face shape (`faceShapeInfo[faceShape] || faceShapeInfo['Oval']`).
 * Unlike `getRecommendations` it does not normalise the label.
 */
module ResultsPanel {
  import opened Haircuts

  /** The shape information the panel shows for `faceShape`. */
  function ShapeInfoFor(faceShape: string): (r: PropertyValue<ShapeInfo>)
    ensures faceShape in FaceShapeInfo ==> r == Own(FaceShapeInfo[faceShape])
    ensures faceShape !in FaceShapeInfo && faceShape !in ObjectPrototypeProperties ==> r == Own(FaceShapeInfo[DefaultShape])
    ensures faceShape !in FaceShapeInfo && faceShape in ObjectPrototypeProperties ==> r == InheritedMember(faceShape)
  {
    var v := Property(FaceShapeInfo, faceShape);
    if v.Undefined? then Own(FaceShapeInfo[DefaultShape]) else v
  }

  /** For the five canonical labels the panel shows the information of the same shape whose
      bundle it lists. */
  lemma CanonicalLabelsAgree(name: string)
    requires name in ShapeNames
    ensures ShapeInfoFor(name) == Own(FaceShapeInfo[name])
    ensures GetRecommendations(name) == HaircutRecommendations[name]
  {
    TablesWellFormed();
    NormalizedFixed(name);
  }

  /** The two lookups disagree on case: "round" lists the Round bundle but shows the Oval
      icon and traits. */
  lemma LowerCaseLabelShowsOvalInfo()
    ensures ShapeInfoFor("round") == Own(FaceShapeInfo["Oval"])
    ensures GetRecommendations("round") == RoundBundle
  {
    LowerCaseLabelIsNoKey();
    CaseVariantsAgree();
  }

  lemma LowerCaseLabelIsNoKey()
    ensures "round" !in FaceShapeInfo && "round" !in ObjectPrototypeProperties
  {
    assert FaceShapeInfo.Keys == {"Oval", "Round", "Square", "Heart", "Diamond"};
  }
}
