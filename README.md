# Cabinet cut lists and material catalogue: a Dafny model

This project models the logic of a small woodworking suite written in
Python/Tkinter: two cut-list applications (`Cabinet_Pieces_1.2.py`, and its
older version `List_Cabinets2.py`) and a material catalogue
(`MaterialManager.py`).

A cut-list application keeps a list of cabinets (`gabinetes`) and a list of
rectangular pieces (`piezas`). Every piece is tagged with the ID of its cabinet
(`gabinete_id`) and the material thickness (`grosor`). A calculator turns a
cabinet record into its pieces. There is one calculator per style:

- `Base_Drawer`: drawer cabinets;
- `Base_normal`: a top drawer above doors;
- `Wall_cabinet`: a shelf and doors.

The store operations are:

- adding a cabinet with its pieces;
- deleting a cabinet with its pieces;
- editing a cabinet, which recomputes its pieces;
- editing one piece.

A material summary puts each piece into one wood category, by the words in its
name. It then adds up a count and an area in m² per category.

The catalogue keeps a list of sheet materials. It gives each new material the
next free numeric ID, deletes and edits by ID, and names a material's image
file after its ID.

Modules, one file each:

- `wrappers.dfy` (`Wrappers`): `Option`, standing for a missing dict key or a
  `float()`/`int()` that raises `ValueError`; and `Outcome`, what an operation
  reports.
- `text.dfy` (`PyText`):
  - `str(n)` and `int(s)` on strings;
  - Python's `sub in s`;
  - `s.split('.')[-1]`.
- `seqs.dfy` (`Seqs`): the list idioms of the source: first-match search,
  `del xs[i]`, comprehension filters and sums.
- `cabinet_model.dfy` (`CabinetModel`), shared by both applications:
  - the cabinet and piece records;
  - the drawer-height rule;
  - the box-depth step;
  - tagging;
  - the entry form;
  - in-place field edits of a cabinet.
- `store.dfy` (`CabinetStore`): the class `Store` with the fields `cabinets`
  and `pieces`, and its four operations.
- `summary.dfy` (`MaterialSummary`): the summary (`actualizar_resumen_materiales`,
  the same code in both applications).
- `cabinet_pieces.dfy` (`CabinetPieces`): the three calculators of
  `Cabinet_Pieces_1.2.py` and its add/edit flows.
- `list_cabinets.dfy` (`ListCabinets`): the two calculators of
  `List_Cabinets2.py` and its add/edit flows.
- `material_manager.dfy` (`MaterialManager`): the class `Catalog` with the
  field `materials`.

Modelling choices:

- Dimensions are exact `real` numbers.
- A text field is passed in already parsed, as an `Option`: `None` is text that
  `float()`/`int()` rejects. The exception is catalogue IDs. For those, `int()`
  is modelled on the string itself (ASCII whitespace, optional sign, digits
  with single underscores), because the freshness of a new ID depends on it.
- A cabinet edit writes the fields of the dict one by one. A `ValueError`
  stops it, and the writes before the failing one stay: `FieldWrite` lists
  run by `ApplyWrites`. Piece edits work the same way.
- A material edit works on a copy, so it is all-or-nothing.
- The selected ID and the new cabinet's ID are parameters. In the source they
  are the tree selection and `uuid4`.

## Model

| member | source | states |
|---|---|---|
| PyText.NatToString | MaterialManager.py:243 | `str(n)` of a natural number is a non-empty string of decimal digits; it has one digit exactly when n < 10 |
| PyText.ParseIntOfNatToString | MaterialManager.py:236-243 | `ParseInt` (Python `int()` on a string) inverts `NatToString`, `int(str(n)) == n`, so what `obtener_siguiente_id` returns parses back to the number it was made from |
| PyText.NatToStringInjective | Cabinet_Pieces_1.2.py:950-956 | `str` is injective on natural numbers: equal numerals come from equal numbers |
| PyText.NumberedNameInjective | Cabinet_Pieces_1.2.py:950-956 | numbered names with a common prefix, such as `f"Drawer Face {i+1}"`, are equal only for equal numbers |
| PyText.AfterLastDot | MaterialManager.py:407 | `split('.')[-1]` is the suffix after the last dot: it contains no dot; it is preceded by a dot unless it is the whole string; it is the whole string exactly when there is no dot |
| PyText.AfterLastDotOfJoin | MaterialManager.py:407 | for `base + "." + ext` with a dot-free ext, the suffix is ext |
| Seqs.FindFirst | Cabinet_Pieces_1.2.py:1807-1810 | the `for … if …: break` search returns the index of the first match, or None when nothing matches |
| Seqs.RemoveAt | Cabinet_Pieces_1.2.py:1518 | `del s[k]` shortens the list by one, keeps the elements before k, shifts those after k, and removes exactly one copy of `s[k]` |
| Seqs.RemoveFirstLength | Cabinet_Pieces_1.2.py:1516-1519 | deleting the first match shortens the list by one when something matches, and leaves it as it was otherwise |
| Seqs.Filter | Cabinet_Pieces_1.2.py:1522 | the comprehension keeps only elements satisfying the condition, all of them from the input |
| Seqs.FilterKeeps | Cabinet_Pieces_1.2.py:1522 | every element satisfying the condition survives the comprehension |
| CabinetModel.DrawerHeightsRule | Cabinet_Pieces_1.2.py:913-923 | `DrawerHeights` (the `alturas_gavetas` list of `calcular_piezas_base_drawer`): there is one height per drawer; drawer i gets `high_drawer_i` when that key is present, else `(Alto − 4 − (n−1)·0.25)/n` |
| CabinetModel.DrawerHeightsEmpty | Cabinet_Pieces_1.2.py:918 | `DrawerHeights`: a drawer count of zero or less gives no drawers, because `range` is then empty, and nothing is divided |
| CabinetModel.DefaultDrawerHeightsFill | Cabinet_Pieces_1.2.py:913-923 | `DrawerHeights`: with no user heights, the drawer heights add up to `Alto − 4 − (n−1)·0.25` |
| CabinetModel.Round2 | Cabinet_Pieces_1.2.py:576-577 | `float(f"{x:.2f}")` is the one whole number of hundredths in (x − 0.005, x + 0.005] |
| CabinetModel.ShownDrawerHeightsClose | Cabinet_Pieces_1.2.py:570-577 | `ShownDrawerHeights`, the n drawer fields as first filled: each within half a hundredth of the equal share, so their sum is within n half-hundredths of the space, not equal to it |
| CabinetModel.ShownDrawerHeightsExample | Cabinet_Pieces_1.2.py:570-577 | Alto 31 with 3 drawers: the space is 26.5, every field shows 8.83, and the fields add up to 26.49 |
| CabinetModel.ShownHeightsStored | Cabinet_Pieces_1.2.py:869-874 | `BuildCabinet` of a form whose drawer fields are left as first filled stores the rounded shares: the cabinet's drawer heights are `ShownDrawerHeights`, not the exact shares |
| CabinetModel.DrawerCabinetNamesDistinct | Cabinet_Pieces_1.2.py:926-987 | `DrawerCabinetNames`, the nine fixed names then "Drawer Face 1…n" then "Box Drawer 1…n", are pairwise distinct |
| CabinetModel.BoxDrawerDepth | Cabinet_Pieces_1.2.py:959-971 | the box depth is always one of 9, 12, 15, 18, 21 and 24 |
| CabinetModel.BoxDrawerClearance | Cabinet_Pieces_1.2.py:959-971 | the box is more than 2 shallower than the cabinet exactly when the cabinet is deeper than 11; at depth 11 or less, the default 21 is used |
| CabinetModel.BoxDrawerDepthMonotone | Cabinet_Pieces_1.2.py:959-971 | above depth 11, a deeper cabinet never gets a shallower box |
| CabinetModel.Tag | Cabinet_Pieces_1.2.py:828-830 | tagging keeps the number and every field of the pieces, and sets `gabinete_id` and `grosor` on each |
| CabinetModel.TagOwnership | Cabinet_Pieces_1.2.py:828-834 | the tagged pieces belong to the new cabinet and to no other |
| CabinetModel.WithoutCabinetSeparates | Cabinet_Pieces_1.2.py:1522 | the filter leaves no piece of the cabinet, and keeps every other cabinet's pieces in order |
| CabinetModel.ReplacePiecesSpec | Cabinet_Pieces_1.2.py:1650-1669 | after filtering and extending, the cabinet's pieces are exactly the new tagged pieces, and every other cabinet's pieces are unchanged and in order |
| CabinetModel.EntryHeightsSpec | Cabinet_Pieces_1.2.py:869-874 | `EntryHeights` (the drawer-field loop of `obtener_datos_gabinete`): the height keys are read exactly when no non-blank field is malformed; there is one key per non-blank field, holding its value |
| CabinetModel.BuildCabinetSpec | Cabinet_Pieces_1.2.py:849-876 | `BuildCabinet` (`obtener_datos_gabinete`): a record is built exactly when every field it reads parses; it carries the form's values and slider, and its drawer fields only for `Base_Drawer` |
| CabinetModel.ApplyWritesKeepsIdentity | Cabinet_Pieces_1.2.py:1630-1647 | `ApplyWrites` (the in-place assignments of an edit handler): an edit never changes ID or style, and it completes exactly when every assignment parses |
| CabinetModel.ApplyWritesPartial | Cabinet_Pieces_1.2.py:1630-1647 | `ApplyWrites`: when assignment k is the first that raises, the record keeps the assignments before k and the edit is incomplete |
| CabinetModel.ApplyWritesAppend | Cabinet_Pieces_1.2.py:1818-1841 | `ApplyWrites`: running two assignment lists one after the other is running their concatenation; the second runs only if the first completed |
| CabinetModel.ApplyWritesKeepsSlider | Cabinet_Pieces_1.2.py:1829-1841 | `ApplyWrites`: assignments that do not write "Slider" leave it unchanged |
| CabinetModel.DrawerEntryWritesHeightsOnly | Cabinet_Pieces_1.2.py:1839-1841 | `DrawerEntryWrites` (the `high_drawer_i` loop of the edit handlers): the drawer-field loop writes only `high_drawer_i` keys, with i among the fields read |
| CabinetStore.RemoveFirstUnique | Cabinet_Pieces_1.2.py:1516-1519 | with distinct IDs, deleting the first cabinet with an ID removes every cabinet with it, keeps all others and keeps the IDs distinct |
| CabinetStore.ApplyPieceWritesKeepsOwner | Cabinet_Pieces_1.2.py:1933-1937 | a piece edit never moves the piece to another cabinet |
| CabinetStore.Store.Add | Cabinet_Pieces_1.2.py:832-834 | appends the cabinet and its tagged pieces; every tagged piece keeps naming an existing cabinet; distinct IDs stay distinct when the new ID is fresh |
| CabinetStore.Store.Delete | Cabinet_Pieces_1.2.py:1516-1522 | removes only the first cabinet with the ID and every piece tagged with it; the same code is List_Cabinets2.py lines 1176-1182 |
| CabinetStore.Store.Edit | Cabinet_Pieces_1.2.py:1630-1669 | runs the assignments in place on the first cabinet with the ID. When all parse: its pieces are replaced by the tagged recomputed ones at the end. When one does not: the earlier writes stay and the pieces are untouched. A missing ID changes nothing |
| CabinetStore.Store.UpdatePiece | Cabinet_Pieces_1.2.py:1921-1937 | changes only the first piece matching (cabinet ID, name), by the assignments up to the first that raises; no other piece and no cabinet changes |
| MaterialSummary.Classify | Cabinet_Pieces_1.2.py:1467-1482 | a piece named into a category mentions that category's word |
| MaterialSummary.ClassifyFirstMention | Cabinet_Pieces_1.2.py:1467-1482 | a name is in category c exactly when it mentions c's word and no word tested earlier; it is in "Otros materiales" exactly when it mentions none |
| MaterialSummary.LabelsDistinct | Cabinet_Pieces_1.2.py:1467-1482 | distinct categories have distinct labels, so the label-keyed dict and the category-keyed map hold the same rows |
| MaterialSummary.QuantityFor | Cabinet_Pieces_1.2.py:1455-1461 | `Cantidad` of the first cabinet whose ID is the piece's, and 1 when none is |
| MaterialSummary.Summarize | Cabinet_Pieces_1.2.py:1451-1489 | `SummaryOf` (the `materiales` dict of `actualizar_resumen_materiales`): the loop builds exactly the summary map of the pieces; the same code is List_Cabinets2.py lines 1111-1149 |
| MaterialSummary.SummaryPerCategory | Cabinet_Pieces_1.2.py:1453-1489 | `SummaryOf`: a category has a row exactly when some piece falls in it; the row holds that category's pieces' quantities and areas `ancho·alto/10000·Cantidad`, summed |
| MaterialSummary.AccumulateOver | Cabinet_Pieces_1.2.py:1485-1489 | adding one piece to its row raises the total over the categories by that piece's quantity and area |
| MaterialSummary.SummaryGrandTotal | Cabinet_Pieces_1.2.py:1453-1489 | `SummaryOf`: the rows add up to the quantity and area totals over all pieces |
| CabinetPieces.DrawerMountRule | Cabinet_Pieces_1.2.py:904-911 | `DrawerMount` (`drawer_mount` of `calcular_piezas_base_drawer`): the slide clearance is 0.375 exactly for Undermount or no key, 1 exactly for Sidemount, and 3 exactly for any other text |
| CabinetPieces.BaseDrawerShape | Cabinet_Pieces_1.2.py:913-987 | `BaseDrawerPieces` (`calcular_piezas_base_drawer`): a drawer cabinet has 9 + 2n pieces, with n the drawer count (0 when not positive); only the two laterals carry the shelf-hole pattern |
| CabinetPieces.BaseDrawerFaces | Cabinet_Pieces_1.2.py:949-956 | `BaseDrawerPieces`: pieces 9 … 8+n are "Drawer Face 1" … "Drawer Face n", each `Ancho − 0.125` wide, as high as its drawer, in Medex 3/4 |
| CabinetPieces.BaseDrawerBoxes | Cabinet_Pieces_1.2.py:973-987 | `BaseDrawerPieces`: the last n pieces are "Box Drawer 1" … "Box Drawer n". Each is `Ancho − mount − 2·Espesor` wide, the depth-step deep and in Plywood 5/8. Each is lower than its face by 2.125 for the last drawer and by 1.75 for the others |
| CabinetPieces.BaseDrawerNamesDistinct | Cabinet_Pieces_1.2.py:926-987 | `BaseDrawerPieces` names its pieces `DrawerCabinetNames(n)` in order, so no two pieces of a drawer cabinet share a name and a piece edit, which looks a piece up by (cabinet ID, name), finds the one piece with that name |
| CabinetPieces.BaseDrawerFacesFill | Cabinet_Pieces_1.2.py:913-956 | `BaseDrawerPieces`: with no user heights, the face heights, the gaps and the toe kick add up to `Alto` |
| CabinetPieces.DoorPieces | Cabinet_Pieces_1.2.py:1064-1075 | above width 18: two equal doors, whose widths and gaps add up to the opening. Otherwise one door of the full width. The doors are as high as asked, in Medex 3/4 |
| CabinetPieces.BaseNormalLayout | Cabinet_Pieces_1.2.py:991-1077 | `BaseNormalPieces` (`calcular_piezas_base_normal`): 8 + doors pieces; toe kick 4; top drawer of `altura_gaveta` (default 6); box 1.75 lower; toe kick, top drawer and door heights add up to `Alto` |
| CabinetPieces.WallCabinetLayout | Cabinet_Pieces_1.2.py:1079-1120 | `WallCabinetPieces` (`calcular_piezas_wall_cabinet`): 6 + doors pieces; the shelf is `(Ancho − 2·Espesor) × (Profundidad − 2)`; the doors are as high as the cabinet |
| CabinetPieces.PiecesKnownStyle | Cabinet_Pieces_1.2.py:806-819 | `Pieces` (`calcular_piezas`): the dispatch gives pieces exactly for the three known styles, with 9 + 2n, 8 + doors and 6 + doors pieces |
| CabinetPieces.BaseNormalNames | Cabinet_Pieces_1.2.py:1015-1075 | `BaseNormalPieces`: the names of a Base_normal cabinet's pieces, in order |
| CabinetPieces.WallCabinetNames | Cabinet_Pieces_1.2.py:1093-1118 | `WallCabinetPieces`: the names of a wall cabinet's pieces, in order |
| CabinetPieces.BaseNormalCategories | Cabinet_Pieces_1.2.py:1467-1482 | the summary row of every Base_normal piece; "Gaveta Superior" falls under "Otros materiales" and its box under drawer wood |
| CabinetPieces.WallCabinetCategories | Cabinet_Pieces_1.2.py:1467-1482 | the summary row of every wall-cabinet piece |
| CabinetPieces.DefaultDrawerFields | Cabinet_Pieces_1.2.py:548-589 | the drawer space is `Alto − 4 − (n−1)·0.25`; the loop fills n fields (none when n ≤ 0) with `ShownDrawerHeights`, the equal share as `.2f` text: each a whole number of hundredths within 0.005 of the share, and their sum within n·0.005 of the space; an unparsable field shows nothing. The same code is List_Cabinets2.py lines 480-520 |
| CabinetPieces.AddCabinet | Cabinet_Pieces_1.2.py:821-847 | appends the form's cabinet and its tagged pieces, or changes nothing when a field does not parse |
| CabinetPieces.PanelSliderIsSecond | Cabinet_Pieces_1.2.py:1825-1826 | a saved panel edit keeps the second slider box's value |
| CabinetPieces.SaveDialogEdit | Cabinet_Pieces_1.2.py:1629-1683 | the edit dialog writes the dimensions and the slider, and, for Base_Drawer, the drawer fields; then it recomputes with the style's calculator |
| CabinetPieces.SavePanelEdit | Cabinet_Pieces_1.2.py:1794-1875 | the edit panel writes as the dialog does, plus the second slider box, plus `altura_gaveta` for Base_normal |
| CabinetPieces.SavePieceEdit | Cabinet_Pieces_1.2.py:1907-1946 | name, width, height, thickness and material of the first matching piece, stopping at the first unparsable field |
| ListCabinets.DrawerPiecesShape | List_Cabinets2.py:805-870 | `DrawerPieces` (`calcular_piezas`): 9 + 2n pieces, none with a material; only the laterals carry the shelf-hole pattern |
| ListCabinets.DrawerPiecesNamesDistinct | List_Cabinets2.py:817-870 | `DrawerPieces` names its pieces `DrawerCabinetNames(n)` in order, so no two of them share a name |
| ListCabinets.DrawerPiecesFaces | List_Cabinets2.py:845-846 | `DrawerPieces`: the faces "Drawer Face i" follow the nine fixed pieces, `Ancho − 0.125` wide and as high as their drawers |
| ListCabinets.DrawerPiecesBoxes | List_Cabinets2.py:864-870 | `DrawerPieces`: every box is 4 high whatever the drawer heights, `Ancho − 3 − 2·Espesor` wide, and the depth-step deep |
| ListCabinets.DrawerPiecesIgnoreSlider | List_Cabinets2.py:817 | `DrawerPieces`: the slider never changes the drawer pieces |
| ListCabinets.BasicLayout | List_Cabinets2.py:874-893 | `BasicPieces` (`calcular_piezas_basico`): the 5 basic pieces for every style; wall cabinets add a `(Ancho − 2·Espesor) × (Profundidad − 2)` shelf; Base_normal adds an `Ancho × (Alto − 4)` door and an `Ancho × 4` toe kick; other styles add nothing |
| ListCabinets.BasicCategories | List_Cabinets2.py:1127-1142 | the summary row of every basic piece |
| ListCabinets.AddAndEditDiffer | List_Cabinets2.py:742 | adding uses the drawer calculator for every style, so a non-drawer cabinet's cut list changes when it is first edited: at least 9 pieces before, at most 7 after |
| ListCabinets.AddCabinet | List_Cabinets2.py:738-762 | appends the form's cabinet with its tagged drawer pieces, or changes nothing when a field does not parse |
| ListCabinets.EditKeepsSlider | List_Cabinets2.py:1284-1296 | the edit handlers never write the slider |
| ListCabinets.SaveEdit | List_Cabinets2.py:1282-1315 | writes the dimensions and, for Base_Drawer, the drawer fields; recomputes with the drawer calculator for Base_Drawer and the basic one otherwise. `guardar_cambios_gabinete` (lines 1421-1487) runs the same steps |
| ListCabinets.PieceEditEffect | List_Cabinets2.py:1539-1542 | a piece edit sets name, width, height and thickness when all parse, stops at the first that does not, and never changes the material, depth, holes or owner |
| ListCabinets.SavePieceEdit | List_Cabinets2.py:1513-1545 | the piece edit applies to the first piece matching (cabinet ID, name) only |
| MaterialManager.MaxNumericId | MaterialManager.py:234-242 | the result is at least every ID that `int()` accepts, and it is 0 or one of them |
| MaterialManager.NextIdFresh | MaterialManager.py:232-243 | `NextIdOf` (`obtener_siguiente_id`): the next ID parses to a number ≥ 1 that is greater than every numeric ID, so no material has it; an empty catalogue gives "1" |
| MaterialManager.RemoveFirstUnique | MaterialManager.py:166-175 | with distinct IDs, deleting the first material with an ID removes every material with it and keeps the IDs distinct |
| MaterialManager.ImageFileNameSpec | MaterialManager.py:407 | `ImageFileName` (the file name of `guardar_imagen_material`): the name is `material_<id>.` followed by a dot-free extension; for `base.ext` that extension is ext, and a dot-free path is used whole |
| MaterialManager.Catalog.NextId | MaterialManager.py:232-243 | the one-pass loop computes `str(max + 1)` and returns an ID no material has |
| MaterialManager.Catalog.Add | MaterialManager.py:245-275 | when every number parses: appends exactly one record, with the next ID and no image, and keeps IDs distinct. Otherwise: changes nothing |
| MaterialManager.Catalog.Delete | MaterialManager.py:140-182 | removes only the first record with the ID, one shorter; reports NotFound and changes nothing when there is none; with distinct IDs no record keeps the ID |
| MaterialManager.Catalog.SaveChanges | MaterialManager.py:335-373 | replaces only the record at the first matching index by an edited copy that keeps ID and image. It reports InvalidData, changing nothing, when a number does not parse, and NotFound when no record matches |

## Left out

- Tkinter widgets and Treeview refreshes are user interface and are not
  modelled. So are the tooltip class, the matplotlib drawings, message boxes,
  confirmation dialogs and the selection itself; the selected ID is a
  parameter.
- JSON save, load and autosave, file dialogs, `os.makedirs`, `shutil.copy`,
  `os.remove` of a deleted material's image, and PIL image handling are I/O
  and are not modelled.
- Attaching an image (`cargar_imagen_derecho`) is not modelled beyond the file
  name rule. Nor is the folder join `os.path.join`, which depends on the
  operating system.
- `uuid4` cabinet IDs are random; the ID is a parameter.
- The interactive redistribution of drawer heights (`actualizar_espacio_restante`,
  `_editar` and the edit-window field set-up) reads and writes entry text,
  branches on a dialog answer and formats with `%.2f`. Only the initial
  equal-share fields are modelled.
- The volume and surface text of `actualizar_detalles` and the two-decimal
  labels of the tables are display only. The two-decimal text put in the
  drawer-height fields is not: it is read back as `high_drawer_i`, and is
  modelled by `Round2`.
- CabinetModel.Round2: rounds a tie (an exact half hundredth) up. Python's
  `.2f` rounds the binary double nearest to the value, so on a tie the two
  can differ; away from ties they agree.
- IEEE floating point is not modelled: every dimension is an exact real, and
  `float()` is an Option-valued input.
- PyText.ParseInt: accepts ASCII digits and the space characters listed in
  `IsSpace` only. Python's `int()` also accepts other Unicode digits and
  spaces; the freshness argument does not depend on them.
- No sheet-nesting or packing logic appears in these sources, so none is
  modelled.
- The order in which `materiales.items()` lists the summary rows is
  insertion order; the map model keeps the rows but not their display order.
- CabinetStore.Store.Edit and the edit flows: the selected cabinet is found
  when the edit window opens, not when it is saved. The model looks it up at
  save time, which is the same unless the list changes while the window is
  open.
