/** Cabinet_Pieces_1.2.py: the three per-style cut-list calculators and
    their dispatch, the default drawer-height fields of the entry form, and
    the add / delete / edit / piece-edit flows on the cabinet store. */
module CabinetPieces {
  import opened Wrappers
  import opened PyText
  import opened Seqs
  import opened CabinetModel
  import opened CabinetStore
  import opened MaterialSummary

  const Plywood34: string := "Plywood 3/4"
  const Plywood58: string := "Plywood 5/8"
  const Plywood12: string := "Plywood 1/2"
  const Medex34: string := "Medex 3/4"

  /** Height of a drawer rail. */
  const RailHeight: real := 3.0
  /** Default height of the top drawer of a Base_normal cabinet. */
  const DefaultTopDrawer: real := 6.0
  /** A cabinet wider than this gets two doors. */
  const TwoDoorWidth: real := 18.0
  /** What a drawer box is lower than its face: the last box, and the others. */
  const LastBoxMargin: real := 2.125
  const BoxMargin: real := 1.75

  /** Width taken by the drawer slides: `gabinete.get("Slider", "Undermount")`
      selects 0.375 for "Undermount", 1 for "Sidemount" and 3 for anything else. */
  function DrawerMount(c: Cabinet): real {
    var slider := c.slider.GetOr("Undermount");
    if slider == "Undermount" then 0.375
    else if slider == "Sidemount" then 1.0
    else 3.0
  }

  /** The two named slides get their own clearance, a missing key counts as
      Undermount, and every other text falls back to 3. */
  lemma DrawerMountRule(c: Cabinet)
    ensures DrawerMount(c) == 0.375 <==> c.slider.None? || c.slider == Some("Undermount")
    ensures DrawerMount(c) == 1.0 <==> c.slider == Some("Sidemount")
    ensures DrawerMount(c) == 3.0 <==> c.slider.Some? && c.slider.value != "Undermount" && c.slider.value != "Sidemount"
  {
  }

  /** A piece with a material and no other optional key. */
  function Board(name: string, width: real, height: real, material: string): Piece {
    Cut(name, width, height, Some(material))
  }

  // ---------------------------------------------------------------------
  // Base_Drawer

  /** The nine fixed pieces of a drawer cabinet: two laterals with the
      shelf-hole pattern, base, back, four rails and the toe kick. */
  function DrawerCarcass(c: Cabinet): seq<Piece> {
    var inner := c.width - 2.0 * c.thickness;
    [ Board("Lateral Izquierdo", c.depth - 1.0, c.height, Plywood34).(holes := Some(LateralShelfHoles)),
      Board("Lateral Derecho", c.depth - 1.0, c.height, Plywood34).(holes := Some(LateralShelfHoles)),
      Board("Base", inner, c.depth - 1.0, Plywood34),
      Board("Trasera", c.width, c.height - c.thickness, Plywood12),
      Board("Under Drawer Rail Superior", inner, RailHeight, Plywood34),
      Board("Upper Drawer Rail Superior", inner, RailHeight, Plywood34),
      Board("Rear Drawer Rail Superior", inner, RailHeight, Plywood34),
      Board("Under Drawer Rail Media", inner, RailHeight, Plywood34),
      Board("Toe Kick", c.width, ToeKick, Plywood34) ]
  }

  /** "Drawer Face 1" … "Drawer Face n", one per drawer height. */
  function DrawerFaces(c: Cabinet, hs: seq<real>): seq<Piece> {
    seq(|hs|, i requires 0 <= i < |hs| =>
      Board("Drawer Face " + NatToString(i + 1), c.width - FaceGap, hs[i], Medex34))
  }

  /** The height of box i of n below its face height h. */
  function BoxHeight(h: real, i: nat, n: nat): real {
    if i == n - 1 then h - LastBoxMargin else h - BoxMargin
  }

  /** "Box Drawer 1" … "Box Drawer n", one per drawer height. */
  function DrawerBoxes(c: Cabinet, hs: seq<real>): seq<Piece> {
    seq(|hs|, i requires 0 <= i < |hs| =>
      Board("Box Drawer " + NatToString(i + 1), c.width - DrawerMount(c) - c.thickness * 2.0,
            BoxHeight(hs[i], i, |hs|), Plywood58).(depth := Some(BoxDrawerDepth(c.depth))))
  }

  /** `calcular_piezas_base_drawer`. */
  function BaseDrawerPieces(c: Cabinet): seq<Piece> {
    var hs := DrawerHeights(c);
    DrawerCarcass(c) + DrawerFaces(c, hs) + DrawerBoxes(c, hs)
  }

  /** A drawer cabinet has the nine fixed pieces and two per drawer (one
      drawer per count, none when the count is not positive); only the two
      laterals carry the shelf-hole pattern. */
  lemma BaseDrawerShape(c: Cabinet)
    ensures |DrawerHeights(c)| == (if DrawerCount(c) > 0 then DrawerCount(c) else 0)
    ensures |BaseDrawerPieces(c)| == 9 + 2 * |DrawerHeights(c)|
    ensures var ps := BaseDrawerPieces(c);
            && ps[0].holes == Some(LateralShelfHoles) && ps[1].holes == Some(LateralShelfHoles)
            && (forall i :: 2 <= i < |ps| ==> ps[i].holes.None?)
  {
    var hs := DrawerHeights(c);
    var n := |hs|;
    var ps := BaseDrawerPieces(c);
    var carcass := DrawerCarcass(c);
    var faces := DrawerFaces(c, hs);
    var boxes := DrawerBoxes(c, hs);
    assert ps == carcass + faces + boxes;
    forall i | 2 <= i < |ps| ensures ps[i].holes.None? {
      if i < 9 { assert ps[i] == carcass[i]; }
      else if i < 9 + n { assert ps[i] == faces[i - 9]; }
      else { assert ps[i] == boxes[i - 9 - n]; }
    }
  }

  /** After the nine fixed pieces come the faces, "Drawer Face 1" to
      "Drawer Face n": each as high as its drawer and as wide as the
      cabinet less the gap. */
  lemma BaseDrawerFaces(c: Cabinet)
    ensures var ps := BaseDrawerPieces(c);
            var hs := DrawerHeights(c);
            && |ps| == 9 + 2 * |hs|
            && forall i :: 0 <= i < |hs| ==>
                 && ps[9 + i].name == "Drawer Face " + NatToString(i + 1)
                 && ps[9 + i].width == c.width - 0.125
                 && ps[9 + i].height == hs[i]
                 && ps[9 + i].material == Some("Medex 3/4")
  {
    var hs := DrawerHeights(c);
    var ps := BaseDrawerPieces(c);
    var carcass := DrawerCarcass(c);
    var faces := DrawerFaces(c, hs);
    var boxes := DrawerBoxes(c, hs);
    assert ps == carcass + faces + boxes;
    assert |carcass| == 9 && |faces| == |hs| && |boxes| == |hs|;
    forall i | 0 <= i < |hs|
      ensures ps[9 + i].name == "Drawer Face " + NatToString(i + 1)
      ensures ps[9 + i].width == c.width - 0.125
      ensures ps[9 + i].height == hs[i]
      ensures ps[9 + i].material == Some("Medex 3/4")
    {
      assert ps[9 + i] == faces[i];
      FaceAt(c, hs, i);
    }
  }

  /** The pieces carry the drawer-cabinet names in order, so no two pieces
      of one cabinet share a name. */
  lemma BaseDrawerNamesDistinct(c: Cabinet)
    ensures var ps := BaseDrawerPieces(c);
            && |ps| == |DrawerCabinetNames(|DrawerHeights(c)|)|
            && (forall k :: 0 <= k < |ps| ==> ps[k].name == DrawerCabinetNames(|DrawerHeights(c)|)[k])
            && (forall i, j :: 0 <= i < j < |ps| ==> ps[i].name != ps[j].name)
  {
    var n := |DrawerHeights(c)|;
    var ps := BaseDrawerPieces(c);
    DrawerCabinetNamesDistinct(n);
    PieceNameAt(c, 0);
    forall k | 0 <= k < |ps| ensures ps[k].name == DrawerCabinetNames(n)[k] {
      PieceNameAt(c, k);
    }
  }

  /** The name of piece k. */
  lemma PieceNameAt(c: Cabinet, k: nat)
    ensures |BaseDrawerPieces(c)| == 9 + 2 * |DrawerHeights(c)|
    ensures k < |BaseDrawerPieces(c)| ==> BaseDrawerPieces(c)[k].name == DrawerCabinetNames(|DrawerHeights(c)|)[k]
  {
    var hs := DrawerHeights(c);
    var n := |hs|;
    var ps := BaseDrawerPieces(c);
    var carcass := DrawerCarcass(c);
    var faces := DrawerFaces(c, hs);
    var boxes := DrawerBoxes(c, hs);
    assert ps == carcass + faces + boxes;
    if k < |ps| {
      DrawerCabinetNameAt(n, k);
      if k < 9 {
        assert ps[k] == carcass[k];
      } else if k < 9 + n {
        assert ps[k] == faces[k - 9];
      } else {
        assert ps[k] == boxes[k - 9 - n];
      }
    }
  }

  /** The fields of drawer face i. */
  lemma FaceAt(c: Cabinet, hs: seq<real>, i: nat)
    requires i < |hs|
    ensures var f := DrawerFaces(c, hs)[i];
            && f.name == "Drawer Face " + NatToString(i + 1)
            && f.width == c.width - 0.125
            && f.height == hs[i]
            && f.material == Some("Medex 3/4")
  {
  }

  /** After the faces come the boxes, "Box Drawer 1" to "Box Drawer n":
      lower than their face by 2.125 for the last drawer and by 1.75 for the
      others, as wide as the cabinet less the slides and both sides, as deep
      as the depth step gives. */
  lemma BaseDrawerBoxes(c: Cabinet)
    ensures var ps := BaseDrawerPieces(c);
            var hs := DrawerHeights(c);
            var n := |hs|;
            && |ps| == 9 + 2 * n
            && forall i :: 0 <= i < n ==>
                 && ps[9 + n + i].name == "Box Drawer " + NatToString(i + 1)
                 && ps[9 + n + i].width == c.width - DrawerMount(c) - 2.0 * c.thickness
                 && ps[9 + n + i].height == (if i == n - 1 then hs[i] - 2.125 else hs[i] - 1.75)
                 && ps[9 + n + i].depth == Some(BoxDrawerDepth(c.depth))
                 && ps[9 + n + i].material == Some("Plywood 5/8")
  {
    var hs := DrawerHeights(c);
    var n := |hs|;
    var ps := BaseDrawerPieces(c);
    var carcass := DrawerCarcass(c);
    var faces := DrawerFaces(c, hs);
    var boxes := DrawerBoxes(c, hs);
    assert ps == carcass + faces + boxes;
    assert |carcass| == 9 && |faces| == n && |boxes| == n;
    forall i | 0 <= i < n
      ensures ps[9 + n + i].name == "Box Drawer " + NatToString(i + 1)
      ensures ps[9 + n + i].width == c.width - DrawerMount(c) - 2.0 * c.thickness
      ensures ps[9 + n + i].height == (if i == n - 1 then hs[i] - 2.125 else hs[i] - 1.75)
      ensures ps[9 + n + i].depth == Some(BoxDrawerDepth(c.depth))
      ensures ps[9 + n + i].material == Some("Plywood 5/8")
    {
      assert ps[9 + n + i] == boxes[i];
      BoxAt(c, hs, i);
    }
  }

  /** The fields of drawer box i. */
  lemma BoxAt(c: Cabinet, hs: seq<real>, i: nat)
    requires i < |hs|
    ensures var b := DrawerBoxes(c, hs)[i];
            var n := |hs|;
            && b.name == "Box Drawer " + NatToString(i + 1)
            && b.width == c.width - DrawerMount(c) - 2.0 * c.thickness
            && b.height == (if i == n - 1 then hs[i] - 2.125 else hs[i] - 1.75)
            && b.depth == Some(BoxDrawerDepth(c.depth))
            && b.material == Some("Plywood 5/8")
  {
  }

  /** With no height typed in, the faces and the gaps between them fill the
      cabinet above the toe kick exactly. */
  lemma BaseDrawerFacesFill(c: Cabinet)
    requires DrawerCount(c) > 0
    requires forall i: nat :: i < DrawerCount(c) ==> i !in c.drawerHeights
    ensures var ps := BaseDrawerPieces(c);
            var n := DrawerCount(c);
            SumReals(seq(n, i requires 0 <= i < n => ps[9 + i].height)) + (n - 1) as real * 0.25 + 4.0 == c.height
  {
    var n := DrawerCount(c);
    var ps := BaseDrawerPieces(c);
    BaseDrawerShape(c);
    BaseDrawerFaces(c);
    DefaultDrawerHeightsFill(c);
    assert seq(n, i requires 0 <= i < n => ps[9 + i].height) == DrawerHeights(c);
  }

  // ---------------------------------------------------------------------
  // Base_normal and Wall_cabinet

  /** The five basic pieces: two laterals, base, top ("Techo") and back. */
  function Carcass(c: Cabinet): seq<Piece> {
    var inner := c.width - 2.0 * c.thickness;
    [ Board("Lateral Izquierdo", c.depth - 1.0, c.height, Plywood34),
      Board("Lateral Derecho", c.depth - 1.0, c.height, Plywood34),
      Board("Base", inner, c.depth - 1.0, Plywood34),
      Board("Techo", inner, c.depth - 1.0, Plywood34),
      Board("Trasera", c.width, c.height - c.thickness, Plywood12) ]
  }

  /** The doors of an opening `width` wide and `height` high: two when the
      opening is wider than 18, each half the width less the gap; else one
      of the full width. */
  function DoorPieces(width: real, height: real): (d: seq<Piece>)
    ensures |d| == (if width > 18.0 then 2 else 1)
    ensures forall i :: 0 <= i < |d| ==> d[i].height == height && d[i].material == Some("Medex 3/4")
    ensures width > 18.0 ==>
              d[0].name == "Puerta Izquierda" && d[1].name == "Puerta Derecha" &&
              d[0].width == d[1].width && d[0].width + d[1].width + 2.0 * 0.125 == width
    ensures width <= 18.0 ==> d[0].name == "Puerta" && d[0].width == width
  {
    if width > TwoDoorWidth then
      var w := width / 2.0 - FaceGap;
      [Board("Puerta Izquierda", w, height, Medex34), Board("Puerta Derecha", w, height, Medex34)]
    else
      [Board("Puerta", width, height, Medex34)]
  }

  /** `gabinete.get("altura_gaveta", 6)`. */
  function TopDrawerHeight(c: Cabinet): real {
    c.topDrawerHeight.GetOr(DefaultTopDrawer)
  }

  /** `calcular_piezas_base_normal`. */
  function BaseNormalPieces(c: Cabinet): seq<Piece> {
    var top := TopDrawerHeight(c);
    Carcass(c)
    + [ Board("Toe Kick", c.width, ToeKick, Plywood34),
        Board("Gaveta Superior", c.width - FaceGap, top, Medex34).(depth := Some(c.depth - 1.0)),
        Board("Box Drawer", c.width - DrawerMount(c) - c.thickness * 2.0, top - BoxMargin, Plywood58)
          .(depth := Some(BoxDrawerDepth(c.depth))) ]
    + DoorPieces(c.width, c.height - ToeKick - top)
  }

  /** A Base_normal cabinet has 8 pieces and its doors; the toe kick, the
      top drawer and the doors stack up to the cabinet's height; the box is
      1.75 lower than the top drawer. */
  lemma BaseNormalLayout(c: Cabinet)
    ensures var ps := BaseNormalPieces(c);
            var top := if c.topDrawerHeight.Some? then c.topDrawerHeight.value else 6.0;
            && |ps| == 8 + (if c.width > 18.0 then 2 else 1)
            && ps[5].name == "Toe Kick" && ps[5].height == 4.0
            && ps[6].name == "Gaveta Superior" && ps[6].height == top && ps[6].width == c.width - 0.125
            && ps[7].name == "Box Drawer" && ps[7].height == top - 1.75
            && ps[7].width == c.width - DrawerMount(c) - 2.0 * c.thickness
            && ps[7].depth == Some(BoxDrawerDepth(c.depth))
            && (forall i :: 8 <= i < |ps| ==> ps[5].height + ps[6].height + ps[i].height == c.height)
  {
    var ps := BaseNormalPieces(c);
    var doors := DoorPieces(c.width, c.height - ToeKick - TopDrawerHeight(c));
    forall i | 8 <= i < |ps| ensures ps[i] == doors[i - 8] {
    }
  }

  /** `calcular_piezas_wall_cabinet`. */
  function WallCabinetPieces(c: Cabinet): seq<Piece> {
    Carcass(c)
    + [Board("Estante", c.width - 2.0 * c.thickness, c.depth - 2.0, Plywood34)]
    + DoorPieces(c.width, c.height)
  }

  /** A wall cabinet has 6 pieces and its doors; the shelf fits between the
      sides and the doors are as high as the cabinet. */
  lemma WallCabinetLayout(c: Cabinet)
    ensures var ps := WallCabinetPieces(c);
            && |ps| == 6 + (if c.width > 18.0 then 2 else 1)
            && ps[5].name == "Estante" && ps[5].width == c.width - 2.0 * c.thickness && ps[5].height == c.depth - 2.0
            && (forall i :: 6 <= i < |ps| ==> ps[i].height == c.height)
  {
    var ps := WallCabinetPieces(c);
    var doors := DoorPieces(c.width, c.height);
    forall i | 6 <= i < |ps| ensures ps[i] == doors[i - 6] {
    }
  }

  /** `calcular_piezas`: the calculator of the cabinet's style; an unknown
      style has no pieces. */
  function Pieces(c: Cabinet): seq<Piece> {
    if c.style == BaseNormal then BaseNormalPieces(c)
    else if c.style == BaseDrawer then BaseDrawerPieces(c)
    else if c.style == WallCabinet then WallCabinetPieces(c)
    else []
  }

  /** A cabinet gets pieces exactly when its style is one of the three. */
  lemma PiecesKnownStyle(c: Cabinet)
    ensures Pieces(c) != [] <==> c.style in {"Base_Drawer", "Base_normal", "Wall_cabinet"}
    ensures c.style == "Base_Drawer" ==> |Pieces(c)| == 9 + 2 * (if DrawerCount(c) > 0 then DrawerCount(c) else 0)
    ensures c.style == "Base_normal" ==> |Pieces(c)| == 8 + (if c.width > 18.0 then 2 else 1)
    ensures c.style == "Wall_cabinet" ==> |Pieces(c)| == 6 + (if c.width > 18.0 then 2 else 1)
  {
    BaseDrawerShape(c);
    BaseNormalLayout(c);
    WallCabinetLayout(c);
  }

  /** The names of a Base_normal cabinet's pieces, in order. */
  lemma BaseNormalNames(c: Cabinet)
    ensures var ps := BaseNormalPieces(c);
            && |ps| >= 9
            && ps[0].name == "Lateral Izquierdo" && ps[1].name == "Lateral Derecho"
            && ps[2].name == "Base" && ps[3].name == "Techo" && ps[4].name == "Trasera"
            && ps[5].name == "Toe Kick" && ps[6].name == "Gaveta Superior" && ps[7].name == "Box Drawer"
            && (forall i :: 8 <= i < |ps| ==> IsDoorName(ps[i].name))
  {
    var ps := BaseNormalPieces(c);
    var doors := DoorPieces(c.width, c.height - ToeKick - TopDrawerHeight(c));
    forall i | 8 <= i < |ps| ensures ps[i] == doors[i - 8] {
    }
  }

  /** The names of a wall cabinet's pieces, in order. */
  lemma WallCabinetNames(c: Cabinet)
    ensures var ps := WallCabinetPieces(c);
            && |ps| >= 7
            && ps[0].name == "Lateral Izquierdo" && ps[1].name == "Lateral Derecho"
            && ps[2].name == "Base" && ps[3].name == "Techo" && ps[4].name == "Trasera"
            && ps[5].name == "Estante"
            && (forall i :: 6 <= i < |ps| ==> IsDoorName(ps[i].name))
  {
    var ps := WallCabinetPieces(c);
    var doors := DoorPieces(c.width, c.height);
    forall i | 6 <= i < |ps| ensures ps[i] == doors[i - 6] {
    }
  }

  /** The summary row each Base_normal piece lands in. The top drawer face
      has no category word in its name, so it is counted under "Otros
      materiales"; its box counts as drawer wood. */
  lemma BaseNormalCategories(c: Cabinet)
    ensures var ps := BaseNormalPieces(c);
            && Classify(ps[0].name) == Laterals && Classify(ps[1].name) == Laterals
            && Classify(ps[2].name) == BaseTop && Classify(ps[3].name) == BaseTop
            && Classify(ps[4].name) == Back && Classify(ps[5].name) == ToeKickWood
            && Classify(ps[6].name) == Other && Classify(ps[7].name) == Drawers
            && (forall i :: 8 <= i < |ps| ==> Classify(ps[i].name) == Doors)
  {
    BaseNormalNames(c);
    CarcassCategories();
    ClassifyToeKick();
    ClassifyGaveta();
    ClassifyBoxDrawer();
    DoorCategories();
  }

  /** The summary row each wall-cabinet piece lands in. */
  lemma WallCabinetCategories(c: Cabinet)
    ensures var ps := WallCabinetPieces(c);
            && Classify(ps[0].name) == Laterals && Classify(ps[1].name) == Laterals
            && Classify(ps[2].name) == BaseTop && Classify(ps[3].name) == BaseTop
            && Classify(ps[4].name) == Back && Classify(ps[5].name) == Shelves
            && (forall i :: 6 <= i < |ps| ==> Classify(ps[i].name) == Doors)
  {
    WallCabinetNames(c);
    CarcassCategories();
    ClassifyShelf();
    DoorCategories();
  }

  predicate IsDoorName(name: string) {
    name == "Puerta" || name == "Puerta Izquierda" || name == "Puerta Derecha"
  }

  /** A name without the letters D, L, B, T, P and E mentions no category. */
  lemma NoCategoryWord(name: string)
    requires forall k :: 0 <= k < |name| ==>
               name[k] != 'D' && name[k] != 'L' && name[k] != 'B' && name[k] != 'T' && name[k] != 'P' && name[k] != 'E'
    ensures Classify(name) == Other
  {
    NotContainsWithoutChar(name, "Drawer", 0);
    NotContainsWithoutChar(name, "Lateral", 0);
    NotContainsWithoutChar(name, "Base", 0);
    NotContainsWithoutChar(name, "Techo", 0);
    NotContainsWithoutChar(name, "Trasera", 0);
    NotContainsWithoutChar(name, "Puerta", 0);
    NotContainsWithoutChar(name, "Estante", 0);
    NotContainsWithoutChar(name, "Toe Kick", 0);
  }

  lemma ClassifyGaveta()
    ensures Classify("Gaveta Superior") == Other
  {
    var s := "Gaveta Superior";
    assert forall k :: 0 <= k < |s| ==>
      s[k] != 'D' && s[k] != 'L' && s[k] != 'B' && s[k] != 'T' && s[k] != 'P' && s[k] != 'E';
    NoCategoryWord(s);
  }

  /** A name starting with "Lateral" and without a 'w' is a lateral. */
  lemma ClassifyLateral(name: string)
    requires |name| >= 7 && name[..7] == "Lateral"
    requires forall k :: 0 <= k < |name| ==> name[k] != 'w'
    ensures Classify(name) == Laterals
  {
    NotContainsWithoutChar(name, "Drawer", 3);
    ContainsAt(name, "Lateral", 0);
  }

  /** A name starting with "Puerta" without the letters w, L, B and T is a door. */
  lemma ClassifyDoor(name: string)
    requires |name| >= 6 && name[..6] == "Puerta"
    requires forall k :: 0 <= k < |name| ==> name[k] != 'w' && name[k] != 'L' && name[k] != 'B' && name[k] != 'T'
    ensures Classify(name) == Doors
  {
    NotContainsWithoutChar(name, "Drawer", 3);
    NotContainsWithoutChar(name, "Lateral", 0);
    NotContainsWithoutChar(name, "Base", 0);
    NotContainsWithoutChar(name, "Techo", 0);
    NotContainsWithoutChar(name, "Trasera", 0);
    ContainsAt(name, "Puerta", 0);
  }

  lemma LateralCategories()
    ensures Classify("Lateral Izquierdo") == Laterals && Classify("Lateral Derecho") == Laterals
  {
    var li, ld := "Lateral Izquierdo", "Lateral Derecho";
    assert forall k :: 0 <= k < |li| ==> li[k] != 'w';
    assert forall k :: 0 <= k < |ld| ==> ld[k] != 'w';
    ClassifyLateral(li);
    ClassifyLateral(ld);
  }

  lemma BaseTopCategories()
    ensures Classify("Base") == BaseTop && Classify("Techo") == BaseTop
  {
    var b := "Base";
    assert forall k :: 0 <= k < |b| ==> b[k] != 'D' && b[k] != 'L';
    NotContainsWithoutChar(b, "Drawer", 0);
    NotContainsWithoutChar(b, "Lateral", 0);
    ContainsAt(b, "Base", 0);
    var t := "Techo";
    assert forall k :: 0 <= k < |t| ==> t[k] != 'D' && t[k] != 'L';
    NotContainsWithoutChar(t, "Drawer", 0);
    NotContainsWithoutChar(t, "Lateral", 0);
    ContainsAt(t, "Techo", 0);
  }

  lemma BackCategory()
    ensures Classify("Trasera") == Back
  {
    var r := "Trasera";
    assert forall k :: 0 <= k < |r| ==> r[k] != 'D' && r[k] != 'L' && r[k] != 'B' && r[k] != 'c';
    NotContainsWithoutChar(r, "Drawer", 0);
    NotContainsWithoutChar(r, "Lateral", 0);
    NotContainsWithoutChar(r, "Base", 0);
    NotContainsWithoutChar(r, "Techo", 2);
    ContainsAt(r, "Trasera", 0);
  }

  /** The rows of the five carcass boards. */
  lemma CarcassCategories()
    ensures Classify("Lateral Izquierdo") == Laterals && Classify("Lateral Derecho") == Laterals
    ensures Classify("Base") == BaseTop && Classify("Techo") == BaseTop && Classify("Trasera") == Back
  {
    LateralCategories();
    BaseTopCategories();
    BackCategory();
  }

  lemma DoorCategories()
    ensures Classify("Puerta") == Doors
    ensures Classify("Puerta Izquierda") == Doors
    ensures Classify("Puerta Derecha") == Doors
  {
    var p, pi, pd := "Puerta", "Puerta Izquierda", "Puerta Derecha";
    assert forall k :: 0 <= k < |p| ==> p[k] != 'w' && p[k] != 'L' && p[k] != 'B' && p[k] != 'T';
    assert forall k :: 0 <= k < |pi| ==> pi[k] != 'w' && pi[k] != 'L' && pi[k] != 'B' && pi[k] != 'T';
    assert forall k :: 0 <= k < |pd| ==> pd[k] != 'w' && pd[k] != 'L' && pd[k] != 'B' && pd[k] != 'T';
    ClassifyDoor(p);
    ClassifyDoor(pi);
    ClassifyDoor(pd);
  }

  lemma ClassifyToeKick()
    ensures Classify("Toe Kick") == ToeKickWood
  {
    var s := "Toe Kick";
    assert forall k :: 0 <= k < |s| ==>
      s[k] != 'D' && s[k] != 'L' && s[k] != 'B' && s[k] != 'h' && s[k] != 'r' && s[k] != 'P' && s[k] != 'E';
    NotContainsWithoutChar(s, "Drawer", 0);
    NotContainsWithoutChar(s, "Lateral", 0);
    NotContainsWithoutChar(s, "Base", 0);
    NotContainsWithoutChar(s, "Techo", 3);
    NotContainsWithoutChar(s, "Trasera", 1);
    NotContainsWithoutChar(s, "Puerta", 0);
    NotContainsWithoutChar(s, "Estante", 0);
    ContainsAt(s, "Toe Kick", 0);
  }

  lemma ClassifyBoxDrawer()
    ensures Classify("Box Drawer") == Drawers
  {
    ContainsAt("Box Drawer", "Drawer", 4);
  }

  lemma ClassifyShelf()
    ensures Classify("Estante") == Shelves
  {
    var s := "Estante";
    assert forall k :: 0 <= k < |s| ==>
      s[k] != 'D' && s[k] != 'L' && s[k] != 'B' && s[k] != 'T' && s[k] != 'P';
    NotContainsWithoutChar(s, "Drawer", 0);
    NotContainsWithoutChar(s, "Lateral", 0);
    NotContainsWithoutChar(s, "Base", 0);
    NotContainsWithoutChar(s, "Techo", 0);
    NotContainsWithoutChar(s, "Trasera", 0);
    NotContainsWithoutChar(s, "Puerta", 0);
    ContainsAt(s, "Estante", 0);
  }

  // ---------------------------------------------------------------------
  // Default drawer heights of the entry form

  /** `_realizar_actualizacion_gavetas`: from the total height and drawer
      count fields, the space for the drawers and the number each of the
      count fields first shows (the equal share to two decimals), or None
      when a field does not parse (the handler then does nothing). */
  method DefaultDrawerFields(total: Option<real>, count: Option<int>) returns (r: Option<(real, seq<real>)>)
    ensures r.None? <==> total.None? || count.None?
    ensures r.Some? ==>
              var n := count.value;
              var (space, shown) := r.value;
              && space == total.value - 4.0 - (n - 1) as real * 0.25
              && shown == ShownDrawerHeights(total.value, n)
              && |shown| == (if n > 0 then n else 0)
              && (forall i :: 0 <= i < |shown| ==> IsHundredth(shown[i]) && -0.005 < shown[i] - space / n as real <= 0.005)
              && (n > 0 ==> -0.005 * n as real < SumReals(shown) - space <= 0.005 * n as real)
  {
    if total.None? || count.None? {
      return None;
    }
    var n := count.value;
    var space := AvailableDrawerHeight(total.value, n);
    var shown: seq<real> := [];
    var i := 0;
    while i < n
      invariant 0 <= i <= (if n > 0 then n else 0)
      invariant |shown| == i
      invariant forall j :: 0 <= j < i ==> n > 0 && shown[j] == Round2(space / n as real)
    {
      shown := shown + [Round2(space / n as real)];
      i := i + 1;
    }
    assert shown == ShownDrawerHeights(total.value, n);
    if n > 0 {
      ShownDrawerHeightsClose(total.value, n);
    }
    return Some((space, shown));
  }

  // ---------------------------------------------------------------------
  // Flows on the store

  /** `agregar_gabinete`: read the form into a cabinet with the given ID,
      compute its pieces and append both; a field that does not parse
      leaves the store as it was. */
  method AddCabinet(store: Store, form: CabinetForm, id: string) returns (outcome: Outcome)
    modifies store
    ensures BuildCabinet(form, id).None? ==>
              outcome == InvalidData && store.cabinets == old(store.cabinets) && store.pieces == old(store.pieces)
    ensures BuildCabinet(form, id).Some? ==>
              var c := BuildCabinet(form, id).value;
              && outcome == Saved
              && store.cabinets == old(store.cabinets) + [c]
              && store.pieces == old(store.pieces) + Tag(Pieces(c), id, c.thickness)
    ensures old(store.Valid()) ==> store.Valid()
  {
    var built := BuildCabinet(form, id);
    if built.None? {
      return InvalidData;
    }
    BuildCabinetSpec(form, id);
    store.Add(built.value, Pieces(built.value));
    return Saved;
  }

  /** The assignments of the edit dialog (`editar_gabinete.guardar_cambios`)
      for a cabinet of the given style: the five dimensions, the slider,
      and for a drawer cabinet the count and every non-blank height field. */
  function DialogWrites(style: string, height: Option<real>, width: Option<real>, depth: Option<real>,
                        quantity: Option<int>, thickness: Option<real>, slider: string,
                        drawerCount: Option<int>, entries: seq<Entry>): seq<FieldWrite>
  {
    [SetHeight(height), SetWidth(width), SetDepth(depth), SetQuantity(quantity), SetThickness(thickness),
     SetSlider(slider)]
    + (if style == BaseDrawer then [SetDrawerCount(drawerCount)] + DrawerEntryWrites(entries, 0) else [])
  }

  /** The assignments of the edit panel (`guardar_cambios_gabinete`): the
      five dimensions, the slider written from both slider boxes (the second
      overwrites the first), the top drawer height of a Base_normal
      cabinet, and the drawer fields of a Base_Drawer cabinet. */
  function PanelWrites(style: string, height: Option<real>, width: Option<real>, depth: Option<real>,
                       quantity: Option<int>, thickness: Option<real>, slider: string, slider1: string,
                       topDrawer: Option<real>, drawerCount: Option<int>, entries: seq<Entry>): seq<FieldWrite>
  {
    [SetHeight(height), SetWidth(width), SetDepth(depth), SetQuantity(quantity), SetThickness(thickness),
     SetSlider(slider), SetSlider(slider1)]
    + (if style == BaseNormal then [SetTopDrawerHeight(topDrawer)] else [])
    + (if style == BaseDrawer then [SetDrawerCount(drawerCount)] + DrawerEntryWrites(entries, 0) else [])
  }

  /** A saved panel edit keeps the second slider box's value. */
  lemma PanelSliderIsSecond(c: Cabinet, height: Option<real>, width: Option<real>, depth: Option<real>,
                            quantity: Option<int>, thickness: Option<real>, slider: string, slider1: string,
                            topDrawer: Option<real>, drawerCount: Option<int>, entries: seq<Entry>)
    ensures var r := ApplyWrites(c, PanelWrites(c.style, height, width, depth, quantity, thickness, slider, slider1,
                                                topDrawer, drawerCount, entries));
            r.complete ==> r.cabinet.slider == Some(slider1)
  {
    var first := [SetHeight(height), SetWidth(width), SetDepth(depth), SetQuantity(quantity), SetThickness(thickness),
                  SetSlider(slider)];
    var rest := (if c.style == BaseNormal then [SetTopDrawerHeight(topDrawer)] else [])
      + (if c.style == BaseDrawer then [SetDrawerCount(drawerCount)] + DrawerEntryWrites(entries, 0) else []);
    var ws := PanelWrites(c.style, height, width, depth, quantity, thickness, slider, slider1,
                          topDrawer, drawerCount, entries);
    assert ws == (first + [SetSlider(slider1)]) + rest;
    ApplyWritesAppend(c, first + [SetSlider(slider1)], rest);
    ApplyWritesAppend(c, first, [SetSlider(slider1)]);
    DrawerEntryWritesHeightsOnly(entries, 0);
    var top := if c.style == BaseNormal then [SetTopDrawerHeight(topDrawer)] else [];
    var drawers := if c.style == BaseDrawer then [SetDrawerCount(drawerCount)] + DrawerEntryWrites(entries, 0) else [];
    assert rest == top + drawers;
    forall i | 0 <= i < |rest| ensures !rest[i].SetSlider? {
      if i >= |top| {
        var j := i - |top|;
        assert rest[i] == drawers[j];
        if j > 0 {
          assert drawers[j] == DrawerEntryWrites(entries, 0)[j - 1];
        }
      }
    }
    var mid := ApplyWrites(c, first + [SetSlider(slider1)]);
    if mid.complete {
      ApplyWritesKeepsSlider(mid.cabinet, rest);
    }
  }

  /** Saving the edit dialog of the cabinet with the given ID: the
      assignments for its style, then the pieces recomputed by
      `calcular_piezas`. A missing cabinet is reported and nothing changes. */
  method SaveDialogEdit(store: Store, id: string, height: Option<real>, width: Option<real>, depth: Option<real>,
                        quantity: Option<int>, thickness: Option<real>, slider: string,
                        drawerCount: Option<int>, entries: seq<Entry>) returns (outcome: Outcome)
    modifies store
    ensures FirstMatch(old(store.cabinets), HasId(id)).None? ==>
              outcome == NotFound && store.cabinets == old(store.cabinets) && store.pieces == old(store.pieces)
    ensures FirstMatch(old(store.cabinets), HasId(id)).Some? ==>
              var k := FirstMatch(old(store.cabinets), HasId(id)).value;
              var c := old(store.cabinets)[k];
              var r := ApplyWrites(c, DialogWrites(c.style, height, width, depth, quantity, thickness, slider, drawerCount, entries));
              && store.cabinets == old(store.cabinets)[k := r.cabinet]
              && (r.complete ==>
                    outcome == Saved &&
                    store.pieces == WithoutCabinet(old(store.pieces), id) + Tag(Pieces(r.cabinet), id, r.cabinet.thickness))
              && (!r.complete ==> outcome == InvalidData && store.pieces == old(store.pieces))
    ensures old(store.Valid()) ==> store.Valid()
  {
    var k := FindFirst(store.cabinets, HasId(id));
    if k.None? {
      return NotFound;
    }
    var style := store.cabinets[k.value].style;
    var writes := DialogWrites(style, height, width, depth, quantity, thickness, slider, drawerCount, entries);
    outcome := store.Edit(id, writes, Pieces);
  }

  /** Saving the edit panel (`guardar_cambios_gabinete`). */
  method SavePanelEdit(store: Store, id: string, height: Option<real>, width: Option<real>, depth: Option<real>,
                       quantity: Option<int>, thickness: Option<real>, slider: string, slider1: string,
                       topDrawer: Option<real>, drawerCount: Option<int>, entries: seq<Entry>) returns (outcome: Outcome)
    modifies store
    ensures FirstMatch(old(store.cabinets), HasId(id)).None? ==>
              outcome == NotFound && store.cabinets == old(store.cabinets) && store.pieces == old(store.pieces)
    ensures FirstMatch(old(store.cabinets), HasId(id)).Some? ==>
              var k := FirstMatch(old(store.cabinets), HasId(id)).value;
              var c := old(store.cabinets)[k];
              var r := ApplyWrites(c, PanelWrites(c.style, height, width, depth, quantity, thickness, slider, slider1,
                                                  topDrawer, drawerCount, entries));
              && store.cabinets == old(store.cabinets)[k := r.cabinet]
              && (r.complete ==>
                    outcome == Saved &&
                    store.pieces == WithoutCabinet(old(store.pieces), id) + Tag(Pieces(r.cabinet), id, r.cabinet.thickness))
              && (!r.complete ==> outcome == InvalidData && store.pieces == old(store.pieces))
    ensures old(store.Valid()) ==> store.Valid()
  {
    var k := FindFirst(store.cabinets, HasId(id));
    if k.None? {
      return NotFound;
    }
    var style := store.cabinets[k.value].style;
    var writes := PanelWrites(style, height, width, depth, quantity, thickness, slider, slider1,
                              topDrawer, drawerCount, entries);
    outcome := store.Edit(id, writes, Pieces);
  }

  /** The assignments of `guardar_cambios_pieza`: name, width, height,
      thickness and material, in that order. */
  function PieceEditWrites(name: string, width: Option<real>, height: Option<real>, thickness: Option<real>,
                           material: string): seq<PieceWrite>
  {
    [SetName(name), SetPieceWidth(width), SetPieceHeight(height), SetPieceThickness(thickness), SetMaterial(material)]
  }

  /** Saving a piece edit on the first piece of the cabinet with that name. */
  method SavePieceEdit(store: Store, id: string, oldName: string, name: string, width: Option<real>,
                       height: Option<real>, thickness: Option<real>, material: string) returns (outcome: Outcome)
    modifies store
    ensures store.cabinets == old(store.cabinets)
    ensures FirstMatch(old(store.pieces), IsPiece(id, oldName)).None? ==>
              outcome == NotFound && store.pieces == old(store.pieces)
    ensures FirstMatch(old(store.pieces), IsPiece(id, oldName)).Some? ==>
              var k := FirstMatch(old(store.pieces), IsPiece(id, oldName)).value;
              var r := ApplyPieceWrites(old(store.pieces)[k], PieceEditWrites(name, width, height, thickness, material));
              && store.pieces == old(store.pieces)[k := r.0]
              && outcome == (if r.1 then Saved else InvalidData)
    ensures old(store.Valid()) ==> store.Valid()
  {
    outcome := store.UpdatePiece(id, oldName, PieceEditWrites(name, width, height, thickness, material));
  }
}
