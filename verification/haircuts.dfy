/**
 * The static recommendation data of src/data/haircuts.js and its lookup
 * function `getRecommendations`.  Both tables are JavaScript objects keyed by
 * face-shape name; they are modelled as maps keyed by the same strings.
 * Case mapping is ASCII only.
 */
module Haircuts {

  /** One recommended cut; `id` is used as the React list key. */
  datatype Haircut = Haircut(id: string, name: string, image: string, description: string, whyItWorks: string)

  /** A value of `haircutRecommendations`. */
  datatype Bundle = Bundle(description: string, haircuts: seq<Haircut>)

  /** A value of `faceShapeInfo`. */
  datatype ShapeInfo = ShapeInfo(icon: string, traits: seq<string>)

  /** The five face shapes, in the order in which both tables list them. */
  const ShapeNames: seq<string> := ["Oval", "Round", "Square", "Heart", "Diamond"]

  /** The shape whose bundle is used when a label is not a key of the table. */
  const DefaultShape: string := "Oval"

  // ---------------------------------------------------------------------------
  // The two tables
  // ---------------------------------------------------------------------------

  const OvalBundle := Bundle(
    "The oval face shape is considered the most versatile. Your balanced proportions mean you can pull off almost any hairstyle with ease.",
    [ Haircut("pompadour", "Classic Pompadour",
              "https://images.unsplash.com/photo-1560250097-0b93528c311a?w=400&h=500&fit=crop&q=80",
              "A timeless style with volume on top swept back, featuring shorter sides that highlight your balanced features.",
              "Adds dramatic flair while maintaining your natural face symmetry"),
      Haircut("crew-cut", "Modern Crew Cut",
              "https://images.unsplash.com/photo-1506794778202-cad84cf45f1d?w=400&h=500&fit=crop&q=80",
              "Clean and professional with tapered sides and slightly longer top for easy styling.",
              "Low maintenance that showcases your naturally proportional face"),
      Haircut("side-part", "Gentleman's Side Part",
              "https://images.unsplash.com/photo-1519085360753-af0119f7cbe7?w=400&h=500&fit=crop&q=80",
              "A refined, classic look with a defined part and neatly combed sides.",
              "Adds sophistication while complementing your oval shape perfectly"),
      Haircut("textured-crop", "Textured French Crop",
              "https://images.unsplash.com/photo-1507003211169-0a1dd7228f2d?w=400&h=500&fit=crop&q=80",
              "Modern European style with textured fringe and faded sides.",
              "Trendy and youthful, works beautifully with your versatile face shape") ])

  const RoundBundle := Bundle(
    "Round faces have soft angles with similar width and length. The key is adding height and angles to create the illusion of length.",
    [ Haircut("quiff", "Voluminous Quiff",
              "https://images.unsplash.com/photo-1500648767791-00dcc994a43e?w=400&h=500&fit=crop&q=80",
              "Height-focused style with volume at the front, swept up and back from the face.",
              "Adds vertical length to balance your face's natural width"),
      Haircut("faux-hawk", "Textured Faux Hawk",
              "https://images.unsplash.com/photo-1531746020798-e6953c6e8e04?w=400&h=500&fit=crop&q=80",
              "Edgy central height with closely cropped sides creating angular definition.",
              "Creates strong vertical lines that elongate your face"),
      Haircut("high-fade", "High Fade with Spikes",
              "https://images.unsplash.com/photo-1492562080023-ab3db95bfbce?w=400&h=500&fit=crop&q=80",
              "Dramatic high fade with textured, spiked top for maximum height.",
              "The high fade slims the sides while spikes add elongating height"),
      Haircut("angular-fringe", "Angular Fringe",
              "https://images.unsplash.com/photo-1504257432389-52343af06ae3?w=400&h=500&fit=crop&q=80",
              "Asymmetrical fringe styled to one side with sharp, angular lines.",
              "Diagonal lines break up roundness and add visual length") ])

  const SquareBundle := Bundle(
    "Square faces feature a strong jawline and angular features. Softer styles help balance these pronounced angles.",
    [ Haircut("textured-fringe", "Soft Textured Fringe",
              "https://images.unsplash.com/photo-1472099645785-5658abf4ff4e?w=400&h=500&fit=crop&q=80",
              "Messy, textured fringe that falls naturally across the forehead.",
              "Softens your strong jawline with organic, flowing texture"),
      Haircut("layered-medium", "Layered Medium Length",
              "https://images.unsplash.com/photo-1480455624313-e29b44bbfde1?w=400&h=500&fit=crop&q=80",
              "Medium-length cut with soft layers that frame the face.",
              "Layers add movement that softens angular features"),
      Haircut("messy-top", "Messy Top with Taper",
              "https://images.unsplash.com/photo-1534030347209-467a5b0ad3e6?w=400&h=500&fit=crop&q=80",
              "Deliberately tousled top with a clean, tapered neckline.",
              "Controlled chaos on top balances your structured jawline"),
      Haircut("slick-back", "Slicked Back Undercut",
              "https://images.unsplash.com/photo-1621605815971-fbc98d665033?w=400&h=500&fit=crop&q=80",
              "Sleek, swept-back top with disconnected undercut sides.",
              "Embraces your strong features with a powerful, confident look") ])

  const HeartBundle := Bundle(
    "Heart-shaped faces have a wider forehead tapering to a narrower chin. Styles that add width at the jaw work beautifully.",
    [ Haircut("side-swept", "Side Swept Style",
              "https://images.unsplash.com/photo-1552374196-c4e7ffc6e126?w=400&h=500&fit=crop&q=80",
              "Longer top swept to one side, covering part of the forehead.",
              "Minimizes forehead width while framing your face elegantly"),
      Haircut("medium-layers", "Medium with Layers",
              "https://images.unsplash.com/photo-1507591064344-4c6ce005b128?w=400&h=500&fit=crop&q=80",
              "Chin-length layers that add volume around the lower face.",
              "Builds width at the jawline to balance your proportions"),
      Haircut("textured-bangs", "Textured Bangs",
              "https://images.unsplash.com/photo-1508341591423-4347099e1f19?w=400&h=500&fit=crop&q=80",
              "Full, textured bangs that reduce the appearance of a wide forehead.",
              "Draws attention to your eyes while balancing forehead width"),
      Haircut("classic-taper", "Classic Taper",
              "https://images.unsplash.com/photo-1544005313-94ddf0286df2?w=400&h=500&fit=crop&q=80",
              "Traditional tapered cut with slightly longer top and graduated sides.",
              "Creates a balanced silhouette that flatters your features") ])

  const DiamondBundle := Bundle(
    "Diamond faces have narrow forehead and chin with wide cheekbones. Adding width at the forehead and chin creates harmony.",
    [ Haircut("volume-top", "Voluminous Top",
              "https://images.unsplash.com/photo-1519345182560-3f2917c472ef?w=400&h=500&fit=crop&q=80",
              "Full volume on top with side-swept styling to widen the forehead.",
              "Adds width where you need it most - at the forehead"),
      Haircut("deep-side-part", "Deep Side Part",
              "https://images.unsplash.com/photo-1506277886164-e25aa3f4ef7f?w=400&h=500&fit=crop&q=80",
              "Dramatic side part with volume that extends the forehead visually.",
              "Creates the illusion of a wider forehead for balance"),
      Haircut("textured-layers", "Chin-Length Texture",
              "https://images.unsplash.com/photo-1531384441138-2736e62e0919?w=400&h=500&fit=crop&q=80",
              "Longer layers with texture that add width around the chin.",
              "Balances your cheekbones by filling out the lower face"),
      Haircut("swept-fringe", "Long Swept Fringe",
              "https://images.unsplash.com/photo-1463453091185-61582044d556?w=400&h=500&fit=crop&q=80",
              "Longer fringe swept across the forehead with textured ends.",
              "Widens your forehead while adding sophisticated style") ])

  /** `haircutRecommendations`: face-shape name to bundle. */
  const HaircutRecommendations: map<string, Bundle> := map[
    "Oval" := OvalBundle, "Round" := RoundBundle, "Square" := SquareBundle,
    "Heart" := HeartBundle, "Diamond" := DiamondBundle]

  /** `faceShapeInfo`: face-shape name to icon and traits. */
  const FaceShapeInfo: map<string, ShapeInfo> := map[
    "Oval" := ShapeInfo("\U{2B2D}", ["Balanced proportions", "Slightly longer than wide", "Gentle curves"]),
    "Round" := ShapeInfo("\U{25CF}", ["Equal width and length", "Soft angles", "Full cheeks"]),
    "Square" := ShapeInfo("\U{25A0}", ["Strong jawline", "Angular features", "Wide forehead"]),
    "Heart" := ShapeInfo("\U{2665}", ["Wider forehead", "High cheekbones", "Pointed chin"]),
    "Diamond" := ShapeInfo("\U{25C6}", ["Narrow forehead", "Wide cheekbones", "Pointed chin"])]

  /** The bundles in key order. */
  function BundlesInOrder(): (r: seq<Bundle>)
    ensures |r| == |ShapeNames|
    ensures forall k :: 0 <= k < |r| ==> ShapeNames[k] in HaircutRecommendations && r[k] == HaircutRecommendations[ShapeNames[k]]
  {
    [OvalBundle, RoundBundle, SquareBundle, HeartBundle, DiamondBundle]
  }

  /** Every haircut of the table, bundle after bundle. */
  function AllHaircuts(): (r: seq<Haircut>)
    ensures |r| == 20
    ensures forall i, j :: 0 <= i < j < |r| ==> r[i].id != r[j].id
  {
    OvalBundle.haircuts + RoundBundle.haircuts + SquareBundle.haircuts + HeartBundle.haircuts + DiamondBundle.haircuts
  }

  /** Both tables are keyed by exactly the five shape names, every bundle holds four
      haircuts and every shape has three traits. */
  lemma TablesWellFormed()
    ensures HaircutRecommendations.Keys == FaceShapeInfo.Keys
    ensures forall name :: name in HaircutRecommendations <==> name in ShapeNames
    ensures forall name :: name in HaircutRecommendations ==> |HaircutRecommendations[name].haircuts| == 4
    ensures forall name :: name in FaceShapeInfo ==> |FaceShapeInfo[name].traits| == 3
  {
  }

  /** Haircut ids are pairwise distinct across the whole table, so they are valid list keys. */
  lemma HaircutIdsDistinct(a: string, i: nat, b: string, j: nat)
    requires a in HaircutRecommendations && b in HaircutRecommendations
    requires i < |HaircutRecommendations[a].haircuts| && j < |HaircutRecommendations[b].haircuts|
    requires a != b || i != j
    ensures HaircutRecommendations[a].haircuts[i].id != HaircutRecommendations[b].haircuts[j].id
  {
    TablesWellFormed();
    var ka := PositionOf(a);
    var kb := PositionOf(b);
    HaircutAt(ka, i);
    HaircutAt(kb, j);
  }

  /** Where a shape name sits in `ShapeNames`. */
  function PositionOf(name: string): (k: nat)
    requires name in ShapeNames
    ensures k < |ShapeNames| && ShapeNames[k] == name
  {
    if name == "Oval" then 0 else if name == "Round" then 1 else if name == "Square" then 2
    else if name == "Heart" then 3 else 4
  }

  /** `AllHaircuts` lists the bundles' haircuts four by four in key order. */
  lemma HaircutAt(k: nat, i: nat)
    requires k < |ShapeNames| && i < 4
    ensures |HaircutRecommendations[ShapeNames[k]].haircuts| == 4
    ensures AllHaircuts()[4 * k + i] == HaircutRecommendations[ShapeNames[k]].haircuts[i]
  {
    var b := BundlesInOrder();
    assert b[k] == HaircutRecommendations[ShapeNames[k]];
    var all := AllHaircuts();
    if k == 0 {
      assert all[i] == OvalBundle.haircuts[i];
    } else if k == 1 {
      assert all[4 + i] == RoundBundle.haircuts[i];
    } else if k == 2 {
      assert all[8 + i] == SquareBundle.haircuts[i];
    } else if k == 3 {
      assert all[12 + i] == HeartBundle.haircuts[i];
    } else {
      assert all[16 + i] == DiamondBundle.haircuts[i];
    }
  }

  // ---------------------------------------------------------------------------
  // Label normalisation
  // ---------------------------------------------------------------------------

  predicate IsLower(c: char) { 'a' <= c <= 'z' }
  predicate IsUpper(c: char) { 'A' <= c <= 'Z' }

  /** `String.prototype.toUpperCase` on one ASCII character. */
  function ToUpper(c: char): (r: char)
    ensures !IsLower(r)
    ensures IsLower(c) ==> IsUpper(r) && ToLower(r) == c
    ensures !IsLower(c) ==> r == c
  {
    if IsLower(c) then (c as int - 32) as char else c
  }

  /** `String.prototype.toLowerCase` on one ASCII character. */
  function ToLower(c: char): (r: char)
    ensures !IsUpper(r)
    ensures IsUpper(c) ==> IsLower(r) && r as int == c as int + 32
    ensures !IsUpper(c) ==> r == c
  {
    if IsUpper(c) then (c as int + 32) as char else c
  }

  /** `String.prototype.toLowerCase` on an ASCII string. */
  function LowerCase(s: string): (r: string)
    ensures |r| == |s|
    ensures forall i :: 0 <= i < |s| ==> r[i] == ToLower(s[i])
  {
    if s == [] then [] else [ToLower(s[0])] + LowerCase(s[1..])
  }

  /** The label as `getRecommendations` rewrites it: first character upper-cased,
      the rest lower-cased (`charAt(0).toUpperCase() + slice(1).toLowerCase()`). */
  function Normalize(s: string): (r: string)
    ensures |r| == |s|
    ensures |r| > 0 ==> r[0] == ToUpper(s[0])
    ensures forall i :: 0 < i < |r| ==> r[i] == ToLower(s[i])
  {
    if s == [] then [] else [ToUpper(s[0])] + LowerCase(s[1..])
  }

  /** A normalised label: nothing lower-case at its head, nothing upper-case after it. */
  ghost predicate IsNormalized(s: string) {
    (|s| > 0 ==> !IsLower(s[0])) && forall i :: 0 < i < |s| ==> !IsUpper(s[i])
  }

  lemma NormalizeIsNormalized(s: string)
    ensures IsNormalized(Normalize(s))
  {
  }

  /** Normalisation leaves normalised labels unchanged, so applying it twice is applying it once. */
  lemma {:induction false} NormalizeIdempotent(s: string)
    ensures Normalize(Normalize(s)) == Normalize(s)
  {
    NormalizedFixed(Normalize(s));
  }

  lemma {:induction false} NormalizedFixed(s: string)
    requires IsNormalized(s)
    ensures Normalize(s) == s
  {
    var r := Normalize(s);
    forall i | 0 <= i < |s| ensures r[i] == s[i] {
    }
  }

  /** Normalisation ignores case: two labels that agree once lower-cased normalise alike. */
  lemma NormalizeIgnoresCase(a: string, b: string)
    requires LowerCase(a) == LowerCase(b)
    ensures Normalize(a) == Normalize(b)
  {
    var ra, rb := Normalize(a), Normalize(b);
    if |a| > 0 {
      assert ToLower(a[0]) == ToLower(b[0]) by { assert LowerCase(a)[0] == LowerCase(b)[0]; }
      UpperOfLower(a[0]);
      UpperOfLower(b[0]);
    }
    forall i | 0 < i < |a| ensures ra[i] == rb[i] {
      assert LowerCase(a)[i] == LowerCase(b)[i];
    }
  }

  lemma UpperOfLower(c: char)
    ensures ToUpper(ToLower(c)) == ToUpper(c)
  {
  }

  // ---------------------------------------------------------------------------
  // getRecommendations
  // ---------------------------------------------------------------------------

  /** `getRecommendations(faceShape)`: the bundle stored under the normalised label,
      or the Oval bundle when the normalised label is not one of the table's own keys. */
  function GetRecommendations(faceShape: string): (r: Bundle)
    ensures r in HaircutRecommendations.Values
    ensures |r.haircuts| == 4
    ensures Normalize(faceShape) !in ShapeNames ==> r == OvalBundle
  {
    var key := Normalize(faceShape);
    if key in HaircutRecommendations then HaircutRecommendations[key] else HaircutRecommendations[DefaultShape]
  }

  /** The five bundles are different from one another. */
  lemma BundlesDistinct(a: string, b: string)
    requires a in HaircutRecommendations && b in HaircutRecommendations
    requires HaircutRecommendations[a] == HaircutRecommendations[b]
    ensures a == b
  {
  }

  /** Which labels select which bundle: a label selects the bundle of `name` exactly when it
      normalises to `name`, and the Oval bundle also when it normalises to no shape at all. */
  lemma RecommendationSelection(faceShape: string, name: string)
    requires name in ShapeNames
    ensures GetRecommendations(faceShape) == HaircutRecommendations[name]
        <==> Normalize(faceShape) == name || (name == DefaultShape && Normalize(faceShape) !in ShapeNames)
  {
    var key := Normalize(faceShape);
    if key in HaircutRecommendations {
      if GetRecommendations(faceShape) == HaircutRecommendations[name] {
        BundlesDistinct(key, name);
      }
    } else if GetRecommendations(faceShape) == HaircutRecommendations[name] {
      BundlesDistinct(DefaultShape, name);
    }
  }

  /** Labels that differ only in case get the same bundle. */
  lemma RecommendationsIgnoreCase(a: string, b: string)
    requires LowerCase(a) == LowerCase(b)
    ensures GetRecommendations(a) == GetRecommendations(b)
  {
    NormalizeIgnoresCase(a, b);
  }

  /** "round", "ROUND" and "Round" all get the Round bundle. */
  lemma CaseVariantsAgree()
    ensures GetRecommendations("round") == GetRecommendations("ROUND") == GetRecommendations("Round") == RoundBundle
  {
    assert Normalize("Round") == "Round";
    RecommendationsIgnoreCase("round", "Round");
    RecommendationsIgnoreCase("ROUND", "Round");
  }

  /** An unknown label and the empty label get the Oval bundle. */
  lemma UnknownLabelsGetOval()
    ensures GetRecommendations("Unknown") == OvalBundle
    ensures GetRecommendations("") == OvalBundle
  {
    assert Normalize("Unknown") == "Unknown";
  }

  // ---------------------------------------------------------------------------
  // The lookup as written: inherited properties are visible too
  // ---------------------------------------------------------------------------

  /** The properties every JavaScript object literal inherits from `Object.prototype`. */
  const ObjectPrototypeProperties: set<string> := {
    "constructor", "__proto__", "hasOwnProperty", "isPrototypeOf", "propertyIsEnumerable",
    "toLocaleString", "toString", "valueOf",
    "__defineGetter__", "__defineSetter__", "__lookupGetter__", "__lookupSetter__"}

  /** What reading a property of an object literal yields in JavaScript: one of its own
      values, a member inherited from `Object.prototype` (always truthy), or `undefined`. */
  datatype PropertyValue<+T> = Own(value: T) | InheritedMember(name: string) | Undefined

  /** `table[key]` on an object literal: own keys first, then the prototype chain. */
  function Property<T>(table: map<string, T>, key: string): (r: PropertyValue<T>)
    ensures r.Own? <==> key in table
    ensures r.Own? ==> r.value == table[key]
    ensures r.InheritedMember? <==> key !in table && key in ObjectPrototypeProperties
  {
    if key in table then Own(table[key])
    else if key in ObjectPrototypeProperties then InheritedMember(key)
    else Undefined
  }

  /** `getRecommendations` exactly as written: `table[normalised] || table['Oval']`, where the
      first operand may be an inherited member, which is truthy and so is returned. */
  function GetRecommendationsAsWritten(faceShape: string): (r: PropertyValue<Bundle>)
    ensures !r.Undefined?
  {
    var v := Property(HaircutRecommendations, Normalize(faceShape));
    if v.Undefined? then Own(HaircutRecommendations[DefaultShape]) else v
  }

  /** "__proto__" (in any case) survives normalisation unchanged and reaches
      `Object.prototype`, which is not a bundle. */
  lemma ProtoLabelEscapesTable()
    ensures GetRecommendationsAsWritten("__proto__") == InheritedMember("__proto__")
    ensures GetRecommendationsAsWritten("__PROTO__") == InheritedMember("__proto__")
  {
    ProtoNormalizes();
    assert "__proto__" !in HaircutRecommendations by {
      assert HaircutRecommendations.Keys == {"Oval", "Round", "Square", "Heart", "Diamond"};
    }
  }

  lemma ProtoNormalizes()
    ensures Normalize("__proto__") == "__proto__" && Normalize("__PROTO__") == "__proto__"
  {
    NormalizedFixed("__proto__");
    var up := Normalize("__PROTO__");
    forall i | 0 <= i < 9 ensures up[i] == "__proto__"[i] {}
  }

  /** "__proto__" is the only label that escapes: every other inherited name has a
      lower-case first letter or an upper-case letter after it, which normalisation
      never produces.  On every other label the written lookup and `GetRecommendations`
      agree. */
  lemma OnlyProtoEscapes(faceShape: string)
    ensures GetRecommendationsAsWritten(faceShape).InheritedMember? <==> Normalize(faceShape) == "__proto__"
    ensures Normalize(faceShape) != "__proto__" ==>
      GetRecommendationsAsWritten(faceShape) == Own(GetRecommendations(faceShape))
  {
    NormalizeIsNormalized(faceShape);
    NormalizedNotInherited(Normalize(faceShape));
  }

  lemma NormalizedNotInherited(key: string)
    ensures IsNormalized(key) && key in ObjectPrototypeProperties ==> key == "__proto__"
  {
    assert IsLower("constructor"[0]);
    assert IsUpper("hasOwnProperty"[3]) && IsUpper("isPrototypeOf"[2]) && IsUpper("propertyIsEnumerable"[8]);
    assert IsUpper("toLocaleString"[2]) && IsUpper("toString"[2]) && IsUpper("valueOf"[5]);
    assert IsUpper("__defineGetter__"[8]) && IsUpper("__defineSetter__"[8]);
    assert IsUpper("__lookupGetter__"[8]) && IsUpper("__lookupSetter__"[8]);
  }
}
