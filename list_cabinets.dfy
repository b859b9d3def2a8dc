/** List_Cabinets2.py, the older cut-list application: its drawer-cabinet
    calculator (fixed slides clearance and box height, no materials), the
    basic calculator it uses when editing any other style, and its add /
    edit / piece-edit flows on the cabinet store. Deleting a cabinet and the
    material summary are the same code as in the newer application and are
    `CabinetStore.Store.Delete` and `MaterialSummary.Summarize`. */
module ListCabinets {
  import opened Wrappers
  import opened PyText
  import opened Seqs
  import opened CabinetModel
  import opened CabinetStore
  import opened MaterialSummary
  import CabinetPieces

  /** Clearance for the slides: always 3, whatever the cabinet's "Slider". */
  const Mount: real := 3.0
  /** Height of every drawer box. */
  const BoxHeight: real := 4.0
  /** Height of a drawer rail. */
  const RailHeight: real := 3.0

  // ---------------------------------------------------------------------
  // calcular_piezas

  /** The nine fixed pieces: two laterals with the shelf-hole pattern,
      base, back, four rails and the toe kick. No piece has a material. */
  function DrawerCarcass(c: Cabinet): seq<Piece> {
    var inner := c.width - 2.0 * c.thickness;
    [ Cut("Lateral Izquierdo", c.depth - 1.0, c.height, None).(holes := Some(LateralShelfHoles)),
      Cut("Lateral Derecho", c.depth - 1.0, c.height, None).(holes := Some(LateralShelfHoles)),
      Cut("Base", inner, c.depth - 1.0, None),
      Cut("Trasera", c.width, c.height - c.thickness, None),
      Cut("Under Drawer Rail Superior", inner, RailHeight, None),
      Cut("Upper Drawer Rail Superior", inner, RailHeight, None),
      Cut("Rear Drawer Rail Superior", inner, RailHeight, None),
      Cut("Under Drawer Rail Media", inner, RailHeight, None),
      Cut("Toe Kick", c.width, ToeKick, None) ]
  }

  /** "Drawer Face 1" … "Drawer Face n", one per drawer height. */
  function DrawerFaces(c: Cabinet, hs: seq<real>): seq<Piece> {
    seq(|hs|, i requires 0 <= i < |hs| =>
      Cut("Drawer Face " + NatToString(i + 1), c.width - FaceGap, hs[i], None))
  }

  /** "Box Drawer 1" … "Box Drawer n", one per drawer height. */
  function DrawerBoxes(c: Cabinet, hs: seq<real>): seq<Piece> {
    seq(|hs|, i requires 0 <= i < |hs| =>
      Cut(BoxName(i + 1), c.width - Mount - c.thickness * 2.0, BoxHeight, None)
        .(depth := Some(BoxDrawerDepth(c.depth))))
  }

  /** "Box Drawer k". */
  function BoxName(k: nat): string {
    "Box Drawer " + NatToString(k)
  }

  /** `calcular_piezas`. */
  function DrawerPieces(c: Cabinet): seq<Piece> {
    var hs := DrawerHeights(c);
    DrawerCarcass(c) + DrawerFaces(c, hs) + DrawerBoxes(c, hs)
  }

  /** Nine fixed pieces and two per drawer; none has a material, and only
      the two laterals carry the shelf-hole pattern. */
  lemma DrawerPiecesShape(c: Cabinet)
    ensures |DrawerHeights(c)| == (if DrawerCount(c) > 0 then DrawerCount(c) else 0)
    ensures |DrawerPieces(c)| == 9 + 2 * |DrawerHeights(c)|
    ensures var ps := DrawerPieces(c);
            && ps[0].holes == Some(LateralShelfHoles) && ps[1].holes == Some(LateralShelfHoles)
            && (forall i :: 2 <= i < |ps| ==> ps[i].holes.None?)
            && (forall i :: 0 <= i < |ps| ==> ps[i].material.None?)
  {
    var hs := DrawerHeights(c);
    var n := |hs|;
    var ps := DrawerPieces(c);
    var carcass := DrawerCarcass(c);
    var faces := DrawerFaces(c, hs);
    var boxes := DrawerBoxes(c, hs);
    assert ps == carcass + faces + boxes;
    forall i | 0 <= i < |ps| ensures (i >= 2 ==> ps[i].holes.None?) && ps[i].material.None? {
      if i < 9 { assert ps[i] == carcass[i]; }
      else if i < 9 + n { assert ps[i] == faces[i - 9]; }
      else { assert ps[i] == boxes[i - 9 - n]; }
    }
  }

  /** The pieces carry the drawer-cabinet names in order, so no two pieces
      of one cabinet share a name. */
  lemma DrawerPiecesNamesDistinct(c: Cabinet)
    ensures var ps := DrawerPieces(c);
            && |ps| == |DrawerCabinetNames(|DrawerHeights(c)|)|
            && (forall k :: 0 <= k < |ps| ==> ps[k].name == DrawerCabinetNames(|DrawerHeights(c)|)[k])
            && (forall i, j :: 0 <= i < j < |ps| ==> ps[i].name != ps[j].name)
  {
    var n := |DrawerHeights(c)|;
    var ps := DrawerPieces(c);
    DrawerCabinetNamesDistinct(n);
    PieceNameAt(c, 0);
    forall k | 0 <= k < |ps| ensures ps[k].name == DrawerCabinetNames(n)[k] {
      PieceNameAt(c, k);
    }
  }

  /** The name of piece k. */
  lemma PieceNameAt(c: Cabinet, k: nat)
    ensures |DrawerPieces(c)| == 9 + 2 * |DrawerHeights(c)|
    ensures k < |DrawerPieces(c)| ==> DrawerPieces(c)[k].name == DrawerCabinetNames(|DrawerHeights(c)|)[k]
  {
    var hs := DrawerHeights(c);
    var n := |hs|;
    var ps := DrawerPieces(c);
    var carcass := DrawerCarcass(c);
    var faces := DrawerFaces(c, hs);
    var boxes := DrawerBoxes(c, hs);
    assert ps == carcass + faces + boxes;
    if k < |ps| {
      DrawerCabinetNameAt(n, k);
      if k < 9 {
        assert ps[k] == carcass[k];
      } else if k < 9 + n {
        assert ps[k] == faces[k - 9];
      } else {
        assert ps[k] == boxes[k - 9 - n];
      }
    }
  }

  /** The fields of drawer face i. */
  lemma FaceAt(c: Cabinet, hs: seq<real>, i: nat)
    requires i < |hs|
    ensures var f := DrawerFaces(c, hs)[i];
            f.name == "Drawer Face " + NatToString(i + 1) && f.width == c.width - 0.125 && f.height == hs[i]
  {
  }

  /** After the fixed pieces come the faces, each as high as its drawer. */
  lemma DrawerPiecesFaces(c: Cabinet)
    ensures var ps := DrawerPieces(c);
            var hs := DrawerHeights(c);
            && |ps| == 9 + 2 * |hs|
            && forall i :: 0 <= i < |hs| ==>
                 ps[9 + i].name == "Drawer Face " + NatToString(i + 1) &&
                 ps[9 + i].width == c.width - 0.125 && ps[9 + i].height == hs[i]
  {
    var hs := DrawerHeights(c);
    var ps := DrawerPieces(c);
    var carcass := DrawerCarcass(c);
    var faces := DrawerFaces(c, hs);
    var boxes := DrawerBoxes(c, hs);
    assert ps == carcass + faces + boxes;
    assert |carcass| == 9 && |faces| == |hs| && |boxes| == |hs|;
    forall i | 0 <= i < |hs|
      ensures ps[9 + i].name == "Drawer Face " + NatToString(i + 1)
      ensures ps[9 + i].width == c.width - 0.125 && ps[9 + i].height == hs[i]
    {
      assert ps[9 + i] == faces[i];
      FaceAt(c, hs, i);
    }
  }

  /** The fields of drawer box i. */
  lemma BoxAt(c: Cabinet, hs: seq<real>, i: nat)
    requires i < |hs|
    ensures var b := DrawerBoxes(c, hs)[i];
            && b.name == BoxName(i + 1)
            && b.width == c.width - 3.0 - 2.0 * c.thickness
            && b.height == 4.0
            && b.depth == Some(BoxDrawerDepth(c.depth))
  {
  }

  /** After the faces come the boxes: every box is 4 high and as wide as
      the cabinet less 3 and both sides, whatever the slider and the drawer
      heights. */
  lemma DrawerPiecesBoxes(c: Cabinet)
    ensures var ps := DrawerPieces(c);
            var n := |DrawerHeights(c)|;
            && |ps| == 9 + 2 * n
            && forall j :: 9 + n <= j < |ps| ==>
                 && ps[j].name == BoxName(j - 8 - n)
                 && ps[j].width == c.width - 3.0 - 2.0 * c.thickness
                 && ps[j].height == 4.0
                 && ps[j].depth == Some(BoxDrawerDepth(c.depth))
  {
    var hs := DrawerHeights(c);
    var n := |hs|;
    var ps := DrawerPieces(c);
    assert |ps| == 9 + 2 * n;
    forall j | 9 + n <= j < |ps|
      ensures ps[j].name == BoxName(j - 8 - n)
      ensures ps[j].width == c.width - 3.0 - 2.0 * c.thickness
      ensures ps[j].height == 4.0
      ensures ps[j].depth == Some(BoxDrawerDepth(c.depth))
    {
      var i := j - 9 - n;
      PieceIsBox(c, j);
      BoxAt(c, hs, i);
      assert j - 8 - n == i + 1;
    }
  }

  /** Position j past the faces holds box j - 9 - n. */
  lemma PieceIsBox(c: Cabinet, j: nat)
    requires 9 + |DrawerHeights(c)| <= j < |DrawerPieces(c)|
    ensures DrawerPieces(c)[j] == DrawerBoxes(c, DrawerHeights(c))[j - 9 - |DrawerHeights(c)|]
  {
    var hs := DrawerHeights(c);
    assert DrawerPieces(c) == (DrawerCarcass(c) + DrawerFaces(c, hs)) + DrawerBoxes(c, hs);
  }

  /** The slider never changes the drawer pieces. */
  lemma DrawerPiecesIgnoreSlider(c: Cabinet, slider: Option<string>)
    ensures DrawerPieces(c.(slider := slider)) == DrawerPieces(c)
  {
    var d := c.(slider := slider);
    assert DrawerHeights(d) == DrawerHeights(c);
    assert DrawerCarcass(d) == DrawerCarcass(c);
    assert DrawerFaces(d, DrawerHeights(c)) == DrawerFaces(c, DrawerHeights(c));
    assert DrawerBoxes(d, DrawerHeights(c)) == DrawerBoxes(c, DrawerHeights(c));
  }

  // ---------------------------------------------------------------------
  // calcular_piezas_basico

  /** `calcular_piezas_basico`: the five basic pieces, a shelf for a wall
      cabinet, a door and a toe kick for a Base_normal cabinet. */
  function BasicPieces(c: Cabinet): seq<Piece> {
    var inner := c.width - 2.0 * c.thickness;
    [ Cut("Lateral Izquierdo", c.depth - 1.0, c.height, None),
      Cut("Lateral Derecho", c.depth - 1.0, c.height, None),
      Cut("Base", inner, c.depth - 1.0, None),
      Cut("Techo", inner, c.depth - 1.0, None),
      Cut("Trasera", c.width, c.height - c.thickness, None) ]
    + (if c.style == WallCabinet then [Cut("Estante", inner, c.depth - 2.0, None)] else [])
    + (if c.style == BaseNormal then [Cut("Puerta", c.width, c.height - ToeKick, None),
                                      Cut("Toe Kick", c.width, ToeKick, None)] else [])
  }

  /** Every style gets the five basic pieces; a wall cabinet adds one shelf,
      a Base_normal cabinet one full-width door above the toe kick and the
      toe kick, and any other style nothing. */
  lemma BasicLayout(c: Cabinet)
    ensures var ps := BasicPieces(c);
            && |ps| == (if c.style == "Wall_cabinet" then 6 else if c.style == "Base_normal" then 7 else 5)
            && ps[0].name == "Lateral Izquierdo" && ps[1].name == "Lateral Derecho"
            && ps[2].name == "Base" && ps[3].name == "Techo" && ps[4].name == "Trasera"
            && (c.style == "Wall_cabinet" ==>
                  ps[5].name == "Estante" && ps[5].width == c.width - 2.0 * c.thickness && ps[5].height == c.depth - 2.0)
            && (c.style == "Base_normal" ==>
                  && ps[5].name == "Puerta" && ps[5].width == c.width && ps[5].height == c.height - 4.0
                  && ps[6].name == "Toe Kick" && ps[6].width == c.width && ps[6].height == 4.0
                  && ps[5].height + ps[6].height == c.height)
            && (forall i :: 0 <= i < |ps| ==> ps[i].material.None?)
  {
  }

  /** The summary row of each basic piece. */
  lemma BasicCategories(c: Cabinet)
    ensures var ps := BasicPieces(c);
            && |ps| >= 5
            && Classify(ps[0].name) == Laterals && Classify(ps[1].name) == Laterals
            && Classify(ps[2].name) == BaseTop && Classify(ps[3].name) == BaseTop && Classify(ps[4].name) == Back
            && (c.style == "Wall_cabinet" ==> Classify(ps[5].name) == Shelves)
            && (c.style == "Base_normal" ==> Classify(ps[5].name) == Doors && Classify(ps[6].name) == ToeKickWood)
  {
    BasicLayout(c);
    CabinetPieces.CarcassCategories();
    CabinetPieces.ClassifyShelf();
    CabinetPieces.DoorCategories();
    CabinetPieces.ClassifyToeKick();
  }

  // ---------------------------------------------------------------------
  // Flows on the store

  /** The calculator an edit uses: drawer pieces for a Base_Drawer cabinet,
      basic pieces for every other style. */
  function EditPieces(c: Cabinet): seq<Piece> {
    if c.style == BaseDrawer then DrawerPieces(c) else BasicPieces(c)
  }

  /** Adding a cabinet always uses the drawer calculator, so a cabinet of
      any other style gets a different cut list when it is first added than
      after it is edited: at least nine pieces, against at most seven. */
  lemma AddAndEditDiffer(c: Cabinet)
    requires c.style != "Base_Drawer"
    ensures |DrawerPieces(c)| >= 9 && |EditPieces(c)| <= 7
    ensures DrawerPieces(c) != EditPieces(c)
  {
    DrawerPiecesShape(c);
    BasicLayout(c);
  }

  /** `agregar_gabinete`: read the form into a cabinet with the given ID and
      append it with its tagged drawer pieces, whatever its style; a field
      that does not parse leaves the store as it was. */
  method AddCabinet(store: Store, form: CabinetForm, id: string) returns (outcome: Outcome)
    modifies store
    ensures BuildCabinet(form, id).None? ==>
              outcome == InvalidData && store.cabinets == old(store.cabinets) && store.pieces == old(store.pieces)
    ensures BuildCabinet(form, id).Some? ==>
              var c := BuildCabinet(form, id).value;
              && outcome == Saved
              && store.cabinets == old(store.cabinets) + [c]
              && store.pieces == old(store.pieces) + Tag(DrawerPieces(c), id, c.thickness)
    ensures old(store.Valid()) ==> store.Valid()
  {
    var built := BuildCabinet(form, id);
    if built.None? {
      return InvalidData;
    }
    BuildCabinetSpec(form, id);
    store.Add(built.value, DrawerPieces(built.value));
    return Saved;
  }

  /** The assignments of both edit handlers for a cabinet of the given
      style: the five dimensions, and for a drawer cabinet the count and
      every non-blank height field. The slider is never written. */
  function EditWrites(style: string, height: Option<real>, width: Option<real>, depth: Option<real>,
                      quantity: Option<int>, thickness: Option<real>,
                      drawerCount: Option<int>, entries: seq<Entry>): seq<FieldWrite>
  {
    [SetHeight(height), SetWidth(width), SetDepth(depth), SetQuantity(quantity), SetThickness(thickness)]
    + (if style == BaseDrawer then [SetDrawerCount(drawerCount)] + DrawerEntryWrites(entries, 0) else [])
  }

  /** An edit, complete or not, keeps the slider the cabinet was added with. */
  lemma EditKeepsSlider(c: Cabinet, height: Option<real>, width: Option<real>, depth: Option<real>,
                        quantity: Option<int>, thickness: Option<real>, drawerCount: Option<int>, entries: seq<Entry>)
    ensures ApplyWrites(c, EditWrites(c.style, height, width, depth, quantity, thickness, drawerCount, entries)).cabinet.slider
            == c.slider
  {
    var ws := EditWrites(c.style, height, width, depth, quantity, thickness, drawerCount, entries);
    var drawers := DrawerEntryWrites(entries, 0);
    DrawerEntryWritesHeightsOnly(entries, 0);
    forall i | 0 <= i < |ws| ensures !ws[i].SetSlider? {
      if i > 5 {
        assert ws[i] == drawers[i - 6];
      }
    }
    ApplyWritesKeepsSlider(c, ws);
  }

  /** Saving an edit (`editar_gabinete.guardar_cambios` and
      `guardar_cambios_gabinete` run the same assignments): apply them to the
      first cabinet with the ID and, when all parse, replace its pieces by
      the edit calculator's. */
  method SaveEdit(store: Store, id: string, height: Option<real>, width: Option<real>, depth: Option<real>,
                  quantity: Option<int>, thickness: Option<real>,
                  drawerCount: Option<int>, entries: seq<Entry>) returns (outcome: Outcome)
    modifies store
    ensures FirstMatch(old(store.cabinets), HasId(id)).None? ==>
              outcome == NotFound && store.cabinets == old(store.cabinets) && store.pieces == old(store.pieces)
    ensures FirstMatch(old(store.cabinets), HasId(id)).Some? ==>
              var k := FirstMatch(old(store.cabinets), HasId(id)).value;
              var c := old(store.cabinets)[k];
              var r := ApplyWrites(c, EditWrites(c.style, height, width, depth, quantity, thickness, drawerCount, entries));
              && store.cabinets == old(store.cabinets)[k := r.cabinet]
              && (r.complete ==>
                    outcome == Saved &&
                    store.pieces == WithoutCabinet(old(store.pieces), id) + Tag(EditPieces(r.cabinet), id, r.cabinet.thickness))
              && (!r.complete ==> outcome == InvalidData && store.pieces == old(store.pieces))
    ensures old(store.Valid()) ==> store.Valid()
  {
    var k := FindFirst(store.cabinets, HasId(id));
    if k.None? {
      return NotFound;
    }
    var style := store.cabinets[k.value].style;
    var writes := EditWrites(style, height, width, depth, quantity, thickness, drawerCount, entries);
    outcome := store.Edit(id, writes, EditPieces);
  }

  /** The assignments of `guardar_cambios_pieza`: name, width, height and
      thickness; this application has no material field. */
  function PieceEditWrites(name: string, width: Option<real>, height: Option<real>, thickness: Option<real>): seq<PieceWrite>
  {
    [SetName(name), SetPieceWidth(width), SetPieceHeight(height), SetPieceThickness(thickness)]
  }

  /** A piece edit sets the four fields when all parse, stops at the first
      that does not, and never changes the material, depth, holes or owner. */
  lemma PieceEditEffect(p: Piece, name: string, width: Option<real>, height: Option<real>, thickness: Option<real>)
    ensures var r := ApplyPieceWrites(p, PieceEditWrites(name, width, height, thickness));
            && r.1 == (width.Some? && height.Some? && thickness.Some?)
            && r.0.material == p.material && r.0.depth == p.depth && r.0.holes == p.holes
            && r.0.cabinetId == p.cabinetId
            && (r.1 ==> r.0.name == name && r.0.width == width.value && r.0.height == height.value
                        && r.0.thickness == thickness)
            && (width.None? ==> r.0 == p.(name := name))
  {
    var ws := PieceEditWrites(name, width, height, thickness);
    var p1 := p.(name := name);
    assert ApplyPieceWrites(p, ws) == ApplyPieceWrites(p1, ws[1..]);
    if width.Some? {
      var p2 := p1.(width := width.value);
      assert ApplyPieceWrites(p1, ws[1..]) == ApplyPieceWrites(p2, ws[2..]);
      if height.Some? {
        var p3 := p2.(height := height.value);
        assert ApplyPieceWrites(p2, ws[2..]) == ApplyPieceWrites(p3, ws[3..]);
        if thickness.Some? {
          var p4 := p3.(thickness := thickness);
          assert ApplyPieceWrites(p3, ws[3..]) == ApplyPieceWrites(p4, ws[4..]);
          assert ws[4..] == [];
        }
      }
    }
  }

  /** `guardar_cambios_pieza` on the first piece of the cabinet with that
      name. */
  method SavePieceEdit(store: Store, id: string, oldName: string, name: string, width: Option<real>,
                       height: Option<real>, thickness: Option<real>) returns (outcome: Outcome)
    modifies store
    ensures store.cabinets == old(store.cabinets)
    ensures FirstMatch(old(store.pieces), IsPiece(id, oldName)).None? ==>
              outcome == NotFound && store.pieces == old(store.pieces)
    ensures FirstMatch(old(store.pieces), IsPiece(id, oldName)).Some? ==>
              var k := FirstMatch(old(store.pieces), IsPiece(id, oldName)).value;
              var r := ApplyPieceWrites(old(store.pieces)[k], PieceEditWrites(name, width, height, thickness));
              && store.pieces == old(store.pieces)[k := r.0]
              && outcome == (if r.1 then Saved else InvalidData)
    ensures old(store.Valid()) ==> store.Valid()
  {
    outcome := store.UpdatePiece(id, oldName, PieceEditWrites(name, width, height, thickness));
  }
}
