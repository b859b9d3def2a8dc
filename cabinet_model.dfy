/** The cabinet and piece records shared by both cut-list applications
    (Cabinet_Pieces_1.2.py and List_Cabinets2.py), the drawer-height rule and
    box-drawer depth step both use, entry-form parsing, and the in-place
    field edits of a stored cabinet. */
module CabinetModel {
  import opened Wrappers
  import opened Seqs
  import opened PyText

  /** Height of the toe kick under a base cabinet. */
  const ToeKick: real := 4.0
  /** Vertical gap between two drawer faces. */
  const DrawerSpacing: real := 0.25
  /** Width taken off a drawer face or a door for the gap beside it. */
  const FaceGap: real := 0.125

  const BaseDrawer: string := "Base_Drawer"
  const BaseNormal: string := "Base_normal"
  const WallCabinet: string := "Wall_cabinet"

  /** The shelf-pin hole pattern recorded on the laterals of a drawer cabinet. */
  datatype ShelfHoles = ShelfHoles(
    count: int, diameter: real, rows: int, front: real, rear: real,
    spacing: real, bottom: real, top: real)

  const LateralShelfHoles: ShelfHoles := ShelfHoles(6, 0.25, 2, 2.0, 2.0, 1.26, 12.0, 14.0)

  /** A cabinet record. Optional fields are dict keys that may be absent:
      `slider` ("Slider"), `drawerCount` ("num_gavetas"), `topDrawerHeight`
      ("altura_gaveta"); `drawerHeights` holds the keys "high_drawer_i". */
  datatype Cabinet = Cabinet(
    id: string,
    height: real,           // Alto
    width: real,            // Ancho
    depth: real,            // Profundidad
    quantity: int,          // Cantidad
    thickness: real,        // Espesor
    style: string,          // Estilo
    slider: Option<string>,
    drawerCount: Option<int>,
    drawerHeights: map<nat, real>,
    topDrawerHeight: Option<real>)

  /** A rectangular piece of a cut list. A calculator leaves `cabinetId`
      ("gabinete_id") and `thickness` ("grosor") unset; storing the piece
      tags it with both. */
  datatype Piece = Piece(
    name: string,
    width: real,
    height: real,
    depth: Option<real>,
    material: Option<string>,
    holes: Option<ShelfHoles>,
    cabinetId: Option<string>,
    thickness: Option<real>)

  /** A piece as a calculator writes it: name, width, height, material. */
  function Cut(name: string, width: real, height: real, material: Option<string>): Piece {
    Piece(name, width, height, None, material, None, None, None)
  }

  // ---------------------------------------------------------------------
  // Drawer heights

  /** `gabinete.get("num_gavetas", 1)`. */
  function DrawerCount(c: Cabinet): int {
    c.drawerCount.GetOr(1)
  }

  /** Height left for n drawer faces: total height minus the toe kick and
      the n - 1 gaps between faces. */
  function AvailableDrawerHeight(height: real, n: int): real {
    height - ToeKick - (n - 1) as real * DrawerSpacing
  }

  /** The height a drawer gets when the user gave none: an equal share. */
  function EqualShare(height: real, n: int): real
    requires n > 0
  {
    AvailableDrawerHeight(height, n) / n as real
  }

  /** The height list `alturas_gavetas`: one entry per drawer (none when the
      count is not positive, as `range` is then empty), the user's
      "high_drawer_i" when present, else the equal share. */
  function DrawerHeights(c: Cabinet): seq<real> {
    var n := DrawerCount(c);
    var k := if n > 0 then n else 0;
    seq(k, i requires 0 <= i < k =>
      if i in c.drawerHeights then c.drawerHeights[i] else EqualShare(c.height, n))
  }

  lemma DrawerHeightsRule(c: Cabinet, i: nat)
    requires DrawerCount(c) > 0
    ensures |DrawerHeights(c)| == DrawerCount(c)
    ensures i < DrawerCount(c) && i in c.drawerHeights ==> DrawerHeights(c)[i] == c.drawerHeights[i]
    ensures i < DrawerCount(c) && i !in c.drawerHeights ==>
              DrawerHeights(c)[i] == (c.height - ToeKick - (DrawerCount(c) - 1) as real * DrawerSpacing) / DrawerCount(c) as real
  {
  }

  lemma DrawerHeightsEmpty(c: Cabinet)
    requires DrawerCount(c) <= 0
    ensures DrawerHeights(c) == []
  {
  }

  /** With no user heights, the drawer faces exactly fill the space left
      by the toe kick and the gaps. */
  lemma DefaultDrawerHeightsFill(c: Cabinet)
    requires DrawerCount(c) > 0
    requires forall i: nat :: i < DrawerCount(c) ==> i !in c.drawerHeights
    ensures SumReals(DrawerHeights(c)) == c.height - ToeKick - (DrawerCount(c) - 1) as real * DrawerSpacing
  {
    var n := DrawerCount(c);
    SumOfConstant(DrawerHeights(c), EqualShare(c.height, n));
  }

  // ---------------------------------------------------------------------
  // Drawer heights shown in the entry form

  /** r is a whole number of hundredths. */
  predicate IsHundredth(r: real) {
    (r * 100.0).Floor as real == r * 100.0
  }

  /** `float(f"{x:.2f}")`: x to the nearest hundredth, a tie rounded up.
      The result is the one hundredth in the interval (x - 0.005, x + 0.005]. */
  function Round2(x: real): (r: real)
    ensures IsHundredth(r)
    ensures x - 0.005 < r <= x + 0.005
  {
    (x * 100.0 + 0.5).Floor as real / 100.0
  }

  /** The text first put in each of the n drawer-height fields, read back as
      a number: the equal share to two decimals (no field when n is not
      positive). */
  function ShownDrawerHeights(height: real, n: int): seq<real> {
    var k := if n > 0 then n else 0;
    seq(k, i requires 0 <= i < k => Round2(AvailableDrawerHeight(height, n) / n as real))
  }

  /** Each shown height is within half a hundredth of the equal share, so the
      n shown heights add up to the space within n half-hundredths; they do
      not in general add up to it exactly. */
  lemma ShownDrawerHeightsClose(height: real, n: int)
    requires n > 0
    ensures var shown := ShownDrawerHeights(height, n);
            var space := AvailableDrawerHeight(height, n);
            && |shown| == n
            && (forall i :: 0 <= i < n ==> IsHundredth(shown[i]) && -0.005 < shown[i] - space / n as real <= 0.005)
            && -0.005 * n as real < SumReals(shown) - space <= 0.005 * n as real
  {
    var shown := ShownDrawerHeights(height, n);
    var space := AvailableDrawerHeight(height, n);
    var share := space / n as real;
    var v := Round2(share);
    SumOfConstant(shown, v);
    var d := v - share;
    assert share * n as real == space;
    assert SumReals(shown) - space == n as real * d;
    assert n as real * d <= n as real * 0.005 && n as real * -0.005 < n as real * d by {
      assert n as real * (0.005 - d) >= 0.0;
      assert n as real * (d + 0.005) > 0.0;
    }
  }

  /** Alto 31 with 3 drawers leaves 26.5 for the faces; each field shows
      8.83, and the three shown heights add up to 26.49. */
  lemma ShownDrawerHeightsExample()
    ensures AvailableDrawerHeight(31.0, 3) == 26.5
    ensures ShownDrawerHeights(31.0, 3) == [8.83, 8.83, 8.83]
    ensures SumReals(ShownDrawerHeights(31.0, 3)) == 26.49
  {
    var share := AvailableDrawerHeight(31.0, 3) / 3 as real;
    var x := share * 100.0 + 0.5;
    assert x == 5303.0 / 6.0;
    assert x.Floor == 883;
    assert Round2(share) == 8.83;
    var shown := ShownDrawerHeights(31.0, 3);
    assert |shown| == 3 && shown[0] == shown[1] == shown[2] == Round2(share);
    assert shown == [8.83, 8.83, 8.83];
    assert shown[..2] == [8.83, 8.83] && shown[..2][..1] == [8.83] && [8.83][..0] == [];
    assert SumReals([8.83]) == 8.83;
    assert SumReals([8.83, 8.83]) == 17.66;
  }

  // ---------------------------------------------------------------------
  // Piece names of a drawer cabinet

  /** The names of the nine fixed pieces of a drawer cabinet. */
  const DrawerCarcassNames: seq<string> :=
    [ "Lateral Izquierdo", "Lateral Derecho", "Base", "Trasera", "Under Drawer Rail Superior",
      "Upper Drawer Rail Superior", "Rear Drawer Rail Superior", "Under Drawer Rail Media", "Toe Kick" ]

  /** The piece names of a drawer cabinet with n drawers, in order: the
      fixed pieces, "Drawer Face 1" … "Drawer Face n", "Box Drawer 1" …
      "Box Drawer n". */
  function DrawerCabinetNames(n: nat): seq<string> {
    DrawerCarcassNames
      + seq(n, i requires 0 <= i < n => "Drawer Face " + NatToString(i + 1))
      + seq(n, i requires 0 <= i < n => "Box Drawer " + NatToString(i + 1))
  }

  /** The fixed names are pairwise distinct; none starts with 'D' or "Bo". */
  lemma DrawerCarcassNamesHeads(k: nat)
    requires k < 9
    ensures |DrawerCarcassNames[k]| >= 2
    ensures DrawerCarcassNames[k][0] != 'D' && DrawerCarcassNames[k][..2] != "Bo"
    ensures forall l :: 0 <= l < 9 && l != k ==> DrawerCarcassNames[l] != DrawerCarcassNames[k]
  {
    var heads := ["La", "La", "Ba", "Tr", "Un", "Up", "Re", "Un", "To"];
    var lengths := [17, 15, 4, 7, 26, 26, 25, 23, 8];
    assert DrawerCarcassNames[k][..2] == heads[k];
    assert |DrawerCarcassNames[k]| == lengths[k];
    forall l | 0 <= l < 9 && l != k ensures DrawerCarcassNames[l] != DrawerCarcassNames[k] {
      assert DrawerCarcassNames[l][..2] == heads[l] && |DrawerCarcassNames[l]| == lengths[l];
    }
  }

  /** Name i of a drawer cabinet with n drawers. */
  lemma DrawerCabinetNameAt(n: nat, k: nat)
    requires k < 9 + 2 * n
    ensures |DrawerCabinetNames(n)| == 9 + 2 * n
    ensures k < 9 ==> DrawerCabinetNames(n)[k] == DrawerCarcassNames[k]
    ensures 9 <= k < 9 + n ==> DrawerCabinetNames(n)[k] == "Drawer Face " + NatToString(k - 8)
    ensures 9 + n <= k ==> DrawerCabinetNames(n)[k] == "Box Drawer " + NatToString(k - 8 - n)
  {
  }

  /** No two pieces of a drawer cabinet share a name, so a piece is found by
      (cabinet ID, name) unambiguously. */
  lemma DrawerCabinetNamesDistinct(n: nat)
    ensures var names := DrawerCabinetNames(n);
            |names| == 9 + 2 * n && forall i, j :: 0 <= i < j < |names| ==> names[i] != names[j]
  {
    var names := DrawerCabinetNames(n);
    forall i, j | 0 <= i < j < |names| ensures names[i] != names[j] {
      DrawerCabinetNameAt(n, i);
      DrawerCabinetNameAt(n, j);
      if j < 9 {
        DrawerCarcassNamesHeads(j);
      } else if i < 9 {
        DrawerCarcassNamesHeads(i);
        if j < 9 + n {
          assert names[j][0] == 'D';
        } else {
          assert names[j][..2] == "Bo";
        }
      } else if j < 9 + n {
        if names[i] == names[j] { NumberedNameInjective("Drawer Face ", i - 8, j - 8); }
      } else if i < 9 + n {
        assert names[i][0] == 'D' && names[j][0] == 'B';
      } else {
        if names[i] == names[j] { NumberedNameInjective("Box Drawer ", i - 8 - n, j - 8 - n); }
      }
    }
  }

  // ---------------------------------------------------------------------
  // Box drawer depth

  /** Depth of a drawer box for a cabinet of the given depth. */
  function BoxDrawerDepth(depth: real): (d: real)
    ensures d in {9.0, 12.0, 15.0, 18.0, 21.0, 24.0}
  {
    if depth > 26.0 then 24.0
    else if depth > 23.0 then 21.0
    else if depth > 20.0 then 18.0
    else if depth > 17.0 then 15.0
    else if depth > 14.0 then 12.0
    else if depth > 11.0 then 9.0
    else 21.0
  }

  /** The box leaves more than 2 of clearance inside the cabinet exactly
      when the cabinet is deeper than 11; at depth 11 or less the default
      21 is used, which is deeper than the cabinet. */
  lemma BoxDrawerClearance(depth: real)
    ensures BoxDrawerDepth(depth) < depth - 2.0 <==> depth > 11.0
  {
  }

  /** Above depth 11 a deeper cabinet never gets a shallower box. */
  lemma BoxDrawerDepthMonotone(d1: real, d2: real)
    requires 11.0 < d1 <= d2
    ensures BoxDrawerDepth(d1) <= BoxDrawerDepth(d2)
  {
  }

  // ---------------------------------------------------------------------
  // Tagging and per-cabinet views of the piece list

  /** `pieza["gabinete_id"] = ID; pieza["grosor"] = Espesor` for every piece. */
  function Tag(ps: seq<Piece>, id: string, thickness: real): (r: seq<Piece>)
    ensures |r| == |ps|
    ensures forall i :: 0 <= i < |ps| ==> r[i].cabinetId == Some(id) && r[i].thickness == Some(thickness)
    ensures forall i :: 0 <= i < |ps| ==>
              r[i].name == ps[i].name && r[i].width == ps[i].width && r[i].height == ps[i].height &&
              r[i].depth == ps[i].depth && r[i].material == ps[i].material && r[i].holes == ps[i].holes
  {
    seq(|ps|, i requires 0 <= i < |ps| => ps[i].(cabinetId := Some(id), thickness := Some(thickness)))
  }

  /** The pieces of the cabinet with the given ID, in list order. */
  function PiecesOf(ps: seq<Piece>, id: string): seq<Piece> {
    Filter(ps, (p: Piece) => p.cabinetId == Some(id))
  }

  /** `[p for p in piezas if p.get("gabinete_id") != id]`: an untagged piece
      is never equal to the ID, so it is kept. */
  function WithoutCabinet(ps: seq<Piece>, id: string): seq<Piece> {
    Filter(ps, (p: Piece) => p.cabinetId != Some(id))
  }

  /** Removing one cabinet's pieces leaves none of them and takes no piece of
      another cabinet. */
  lemma WithoutCabinetSeparates(ps: seq<Piece>, id: string, other: string)
    requires other != id
    ensures PiecesOf(WithoutCabinet(ps, id), id) == []
    ensures PiecesOf(WithoutCabinet(ps, id), other) == PiecesOf(ps, other)
  {
    var w := WithoutCabinet(ps, id);
    forall j | 0 <= j < |w| ensures w[j].cabinetId != Some(id) {
      assert w[j] in w;
    }
    FilterNone(w, (p: Piece) => p.cabinetId == Some(id));
    FilterFilter(ps, (p: Piece) => p.cabinetId != Some(id), (p: Piece) => p.cabinetId == Some(other));
  }

  /** Tagged pieces belong to their cabinet only. */
  lemma TagOwnership(ps: seq<Piece>, id: string, t: real, other: string)
    requires other != id
    ensures PiecesOf(Tag(ps, id, t), id) == Tag(ps, id, t)
    ensures PiecesOf(Tag(ps, id, t), other) == []
  {
    FilterAll(Tag(ps, id, t), (p: Piece) => p.cabinetId == Some(id));
    FilterNone(Tag(ps, id, t), (p: Piece) => p.cabinetId == Some(other));
  }

  /** Replacing a cabinet's pieces (filter, then extend with the newly
      tagged pieces) gives that cabinet exactly the new pieces and leaves
      every other cabinet's pieces as they were, in order. */
  lemma ReplacePiecesSpec(ps: seq<Piece>, computed: seq<Piece>, id: string, t: real, other: string)
    requires other != id
    ensures PiecesOf(WithoutCabinet(ps, id) + Tag(computed, id, t), id) == Tag(computed, id, t)
    ensures PiecesOf(WithoutCabinet(ps, id) + Tag(computed, id, t), other) == PiecesOf(ps, other)
  {
    FilterAppend(WithoutCabinet(ps, id), Tag(computed, id, t), (p: Piece) => p.cabinetId == Some(id));
    FilterAppend(WithoutCabinet(ps, id), Tag(computed, id, t), (p: Piece) => p.cabinetId == Some(other));
    WithoutCabinetSeparates(ps, id, other);
    TagOwnership(computed, id, t, other);
  }

  // ---------------------------------------------------------------------
  // The entry form of a new cabinet

  /** A drawer-height text field: empty, a number, or text float() rejects. */
  datatype Entry = Blank | Number(value: real) | Malformed

  /** The entry form read by `obtener_datos_gabinete`. A numeric field is
      None when its text does not parse. */
  datatype CabinetForm = CabinetForm(
    height: Option<real>, width: Option<real>, depth: Option<real>,
    quantity: Option<int>, thickness: Option<real>,
    style: string, slider: string,
    drawerCount: Option<int>, drawerEntries: seq<Entry>)

  /** The "high_drawer_i" keys of the non-blank entries from index `from`
      on, or None when one of them does not parse. */
  function EntryHeights(entries: seq<Entry>, from: nat): (r: Option<map<nat, real>>)
    requires from <= |entries|
    decreases |entries| - from
  {
    if from == |entries| then Some(map[])
    else
      match EntryHeights(entries, from + 1)
      case None => None
      case Some(m) =>
        match entries[from]
        case Blank => Some(m)
        case Malformed => None
        case Number(v) => Some(m[from := v])
  }

  lemma {:induction false} EntryHeightsSpec(entries: seq<Entry>, from: nat)
    requires from <= |entries|
    ensures EntryHeights(entries, from).Some? <==> forall i :: from <= i < |entries| ==> !entries[i].Malformed?
    ensures EntryHeights(entries, from).Some? ==>
              var m := EntryHeights(entries, from).value;
              && (forall i: nat :: i in m <==> from <= i < |entries| && entries[i].Number?)
              && (forall i: nat :: i in m ==> m[i] == entries[i].value)
    decreases |entries| - from
  {
    if from < |entries| {
      EntryHeightsSpec(entries, from + 1);
    }
  }

  /** `obtener_datos_gabinete`: the record of a new cabinet with the given
      ID, or None when a field raises ValueError. Drawer fields are read
      only for a Base_Drawer cabinet. */
  function BuildCabinet(f: CabinetForm, id: string): Option<Cabinet> {
    if f.height.None? || f.width.None? || f.depth.None? || f.quantity.None? || f.thickness.None? then None
    else if f.style != BaseDrawer then
      Some(Cabinet(id, f.height.value, f.width.value, f.depth.value, f.quantity.value, f.thickness.value,
                   f.style, Some(f.slider), None, map[], None))
    else if f.drawerCount.None? then None
    else
      match EntryHeights(f.drawerEntries, 0)
      case None => None
      case Some(hs) =>
        Some(Cabinet(id, f.height.value, f.width.value, f.depth.value, f.quantity.value, f.thickness.value,
                     f.style, Some(f.slider), f.drawerCount, hs, None))
  }

  /** A cabinet is built exactly when every field it reads parses, and then
      it carries the form's values and one height per non-blank entry. */
  lemma BuildCabinetSpec(f: CabinetForm, id: string)
    ensures BuildCabinet(f, id).Some? <==>
              && f.height.Some? && f.width.Some? && f.depth.Some? && f.quantity.Some? && f.thickness.Some?
              && (f.style == BaseDrawer ==> f.drawerCount.Some? && forall i :: 0 <= i < |f.drawerEntries| ==> !f.drawerEntries[i].Malformed?)
    ensures BuildCabinet(f, id).Some? ==>
              var c := BuildCabinet(f, id).value;
              && c.id == id && c.height == f.height.value && c.width == f.width.value && c.depth == f.depth.value
              && c.quantity == f.quantity.value && c.thickness == f.thickness.value
              && c.style == f.style && c.slider == Some(f.slider) && c.topDrawerHeight == None
              && (f.style == BaseDrawer ==> c.drawerCount == f.drawerCount)
              && (f.style != BaseDrawer ==> c.drawerCount == None && c.drawerHeights == map[])
              && (forall i: nat :: i in c.drawerHeights <==> f.style == BaseDrawer && i < |f.drawerEntries| && f.drawerEntries[i].Number?)
  {
    EntryHeightsSpec(f.drawerEntries, 0);
  }

  /** An add that leaves every drawer field as first shown stores the shown
      text: the new cabinet's drawer heights are the rounded shares, not the
      exact ones (ShownDrawerHeightsExample: they need not fill the space). */
  lemma ShownHeightsStored(f: CabinetForm, id: string)
    requires f.style == BaseDrawer
    requires f.height.Some? && f.width.Some? && f.depth.Some? && f.quantity.Some? && f.thickness.Some?
    requires f.drawerCount.Some? && f.drawerCount.value > 0 && |f.drawerEntries| == f.drawerCount.value
    requires forall i :: 0 <= i < |f.drawerEntries| ==>
               f.drawerEntries[i] == Number(ShownDrawerHeights(f.height.value, f.drawerCount.value)[i])
    ensures BuildCabinet(f, id).Some?
    ensures DrawerHeights(BuildCabinet(f, id).value) == ShownDrawerHeights(f.height.value, f.drawerCount.value)
  {
    EntryHeightsSpec(f.drawerEntries, 0);
    var c := BuildCabinet(f, id).value;
    assert c.drawerHeights == EntryHeights(f.drawerEntries, 0).value;
    var shown := ShownDrawerHeights(f.height.value, f.drawerCount.value);
    forall i | 0 <= i < |shown| ensures DrawerHeights(c)[i] == shown[i] {
      assert i in c.drawerHeights;
    }
  }

  // ---------------------------------------------------------------------
  // Editing a stored cabinet in place

  /** One assignment `gabinete_seleccionado[key] = parse(text)` of an edit
      handler; a None value is text that raises ValueError. */
  datatype FieldWrite =
    | SetHeight(h: Option<real>)
    | SetWidth(w: Option<real>)
    | SetDepth(d: Option<real>)
    | SetQuantity(q: Option<int>)
    | SetThickness(t: Option<real>)
    | SetSlider(s: string)
    | SetTopDrawerHeight(th: Option<real>)
    | SetDrawerCount(n: Option<int>)
    | SetDrawerHeight(index: nat, v: Option<real>)

  predicate Parses(w: FieldWrite) {
    match w
    case SetHeight(h) => h.Some?
    case SetWidth(x) => x.Some?
    case SetDepth(d) => d.Some?
    case SetQuantity(q) => q.Some?
    case SetThickness(t) => t.Some?
    case SetSlider(_) => true
    case SetTopDrawerHeight(th) => th.Some?
    case SetDrawerCount(n) => n.Some?
    case SetDrawerHeight(_, v) => v.Some?
  }

  function ApplyWrite(c: Cabinet, w: FieldWrite): Cabinet
    requires Parses(w)
  {
    match w
    case SetHeight(h) => c.(height := h.value)
    case SetWidth(x) => c.(width := x.value)
    case SetDepth(d) => c.(depth := d.value)
    case SetQuantity(q) => c.(quantity := q.value)
    case SetThickness(t) => c.(thickness := t.value)
    case SetSlider(s) => c.(slider := Some(s))
    case SetTopDrawerHeight(th) => c.(topDrawerHeight := Some(th.value))
    case SetDrawerCount(n) => c.(drawerCount := Some(n.value))
    case SetDrawerHeight(i, v) => c.(drawerHeights := c.drawerHeights[i := v.value])
  }

  /** The cabinet after an edit handler's assignments, and whether all of
      them ran. */
  datatype Applied = Applied(cabinet: Cabinet, complete: bool)

  /** Run the assignments in order; the first that raises ValueError stops
      the handler, and the assignments before it stay in the record. */
  function ApplyWrites(c: Cabinet, ws: seq<FieldWrite>): Applied
    decreases |ws|
  {
    if ws == [] then Applied(c, true)
    else if !Parses(ws[0]) then Applied(c, false)
    else ApplyWrites(ApplyWrite(c, ws[0]), ws[1..])
  }

  /** No edit changes a cabinet's ID or style, and an edit completes exactly
      when every assignment parses. */
  lemma {:induction false} ApplyWritesKeepsIdentity(c: Cabinet, ws: seq<FieldWrite>)
    ensures ApplyWrites(c, ws).cabinet.id == c.id
    ensures ApplyWrites(c, ws).cabinet.style == c.style
    ensures ApplyWrites(c, ws).complete <==> forall i :: 0 <= i < |ws| ==> Parses(ws[i])
    decreases |ws|
  {
    if ws != [] && Parses(ws[0]) {
      ApplyWritesKeepsIdentity(ApplyWrite(c, ws[0]), ws[1..]);
      assert forall i :: 1 <= i < |ws| ==> ws[i] == ws[1..][i - 1];
    }
  }

  /** A failed edit leaves the record as the assignments before the first
      unparsable one made it. */
  lemma {:induction false} ApplyWritesPartial(c: Cabinet, ws: seq<FieldWrite>, k: nat)
    requires k < |ws| && !Parses(ws[k])
    requires forall i :: 0 <= i < k ==> Parses(ws[i])
    ensures !ApplyWrites(c, ws).complete
    ensures ApplyWrites(c, ws).cabinet == ApplyWrites(c, ws[..k]).cabinet
    ensures ApplyWrites(c, ws[..k]).complete
    decreases k
  {
    if k > 0 {
      assert ws[1..][..k - 1] == ws[..k][1..];
      ApplyWritesPartial(ApplyWrite(c, ws[0]), ws[1..], k - 1);
    }
  }

  /** Running two lists of assignments one after the other is running
      their concatenation; the second list runs only when the first
      completed. */
  lemma {:induction false} ApplyWritesAppend(c: Cabinet, a: seq<FieldWrite>, b: seq<FieldWrite>)
    ensures ApplyWrites(c, a + b) ==
              if ApplyWrites(c, a).complete then ApplyWrites(ApplyWrites(c, a).cabinet, b) else ApplyWrites(c, a)
    decreases |a|
  {
    if a == [] {
      assert a + b == b;
    } else if Parses(a[0]) {
      assert (a + b)[1..] == a[1..] + b;
      ApplyWritesAppend(ApplyWrite(c, a[0]), a[1..], b);
    }
  }

  /** Assignments that do not write the slider leave it as it was. */
  lemma {:induction false} ApplyWritesKeepsSlider(c: Cabinet, ws: seq<FieldWrite>)
    requires forall i :: 0 <= i < |ws| ==> !ws[i].SetSlider?
    ensures ApplyWrites(c, ws).cabinet.slider == c.slider
    decreases |ws|
  {
    if ws != [] && Parses(ws[0]) {
      ApplyWritesKeepsSlider(ApplyWrite(c, ws[0]), ws[1..]);
    }
  }

  /** Every write in ws sets a drawer height with an index in [from, n). */
  predicate HeightWritesIn(ws: seq<FieldWrite>, from: nat, n: nat) {
    forall i :: 0 <= i < |ws| ==> ws[i].SetDrawerHeight? && from <= ws[i].index < n
  }

  /** The drawer-entry writes touch only the heights of the entries read. */
  lemma {:induction false} DrawerEntryWritesHeightsOnly(entries: seq<Entry>, from: nat)
    requires from <= |entries|
    ensures HeightWritesIn(DrawerEntryWrites(entries, from), from, |entries|)
    decreases |entries| - from
  {
    if from < |entries| {
      DrawerEntryWritesHeightsOnly(entries, from + 1);
      var rest := DrawerEntryWrites(entries, from + 1);
      var ws := DrawerEntryWrites(entries, from);
      if !entries[from].Blank? {
        assert ws == [ws[0]] + rest;
        assert ws[0].SetDrawerHeight? && ws[0].index == from;
        forall i | 0 <= i < |ws| ensures ws[i].SetDrawerHeight? && from <= ws[i].index < |entries| {
          if i > 0 {
            assert ws[i] == rest[i - 1];
          }
        }
      } else {
        assert ws == rest;
      }
    }
  }

  /** The writes of the drawer-height fields: one per non-blank entry, in
      order (`for i, entry in enumerate(entries): if entry.get(): ...`). */
  function DrawerEntryWrites(entries: seq<Entry>, from: nat): seq<FieldWrite>
    requires from <= |entries|
    decreases |entries| - from
  {
    if from == |entries| then []
    else
      var rest := DrawerEntryWrites(entries, from + 1);
      match entries[from]
      case Blank => rest
      case Number(v) => [SetDrawerHeight(from, Some(v))] + rest
      case Malformed => [SetDrawerHeight(from, None)] + rest
  }
}
