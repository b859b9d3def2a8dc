/** MaterialManager.py: the catalogue of sheet materials (`self.materiales`),
    the allocation of a fresh numeric ID, adding, deleting and editing a
    material, and the file name under which a material's image is stored. */
module MaterialManager {
  import opened Wrappers
  import opened PyText
  import opened Seqs

  /** A catalogue record; `image` ("Imagen") is None until an image is attached. */
  datatype Material = Material(
    id: string,        // ID
    kind: string,      // Tipo
    height: real,      // Alto
    width: real,       // Ancho
    thickness: real,   // Grosor
    grain: bool,       // Grano
    price: real,       // Precio
    image: Option<string>)

  /** The entry fields of a material; a numeric field is None when float()
      rejects its text. */
  datatype MaterialForm = MaterialForm(
    height: Option<real>, width: Option<real>, thickness: Option<real>,
    kind: string, grain: bool, price: Option<real>)

  predicate FormParses(f: MaterialForm) {
    f.height.Some? && f.width.Some? && f.thickness.Some? && f.price.Some?
  }

  function HasId(id: string): Material -> bool {
    (m: Material) => m.id == id
  }

  /** The material IDs are pairwise distinct. */
  ghost predicate UniqueIds(ms: seq<Material>) {
    forall i, j :: 0 <= i < j < |ms| ==> ms[i].id != ms[j].id
  }

  // ---------------------------------------------------------------------
  // Fresh IDs

  /** The largest value among 0 and the IDs that int() accepts. */
  function MaxNumericId(ms: seq<Material>): (r: nat)
    ensures forall i :: 0 <= i < |ms| && ParseInt(ms[i].id).Some? ==> ParseInt(ms[i].id).value <= r
    ensures r == 0 || exists i :: 0 <= i < |ms| && ParseInt(ms[i].id) == Some(r)
  {
    if ms == [] then 0
    else
      var m := MaxNumericId(ms[..|ms| - 1]);
      match ParseInt(ms[|ms| - 1].id)
      case None => m
      case Some(v) => if v > m then v else m
  }

  /** The running maximum after one more material. */
  lemma MaxNumericIdPrefix(ms: seq<Material>, i: nat)
    requires i < |ms|
    ensures var m := MaxNumericId(ms[..i]);
            var p := ParseInt(ms[i].id);
            MaxNumericId(ms[..i + 1]) == if p.Some? && p.value > m then p.value else m
  {
    assert ms[..i + 1][..i] == ms[..i];
  }

  /** `str(max_id + 1)`. */
  function NextIdOf(ms: seq<Material>): string {
    NatToString(MaxNumericId(ms) + 1)
  }

  /** The next ID is a positive number larger than every numeric ID, so it
      is the ID of no material, numeric or not; an empty catalogue starts
      at "1". */
  lemma NextIdFresh(ms: seq<Material>)
    ensures ParseInt(NextIdOf(ms)).Some? && ParseInt(NextIdOf(ms)).value >= 1
    ensures forall i :: 0 <= i < |ms| && ParseInt(ms[i].id).Some? ==>
              ParseInt(ms[i].id).value < ParseInt(NextIdOf(ms)).value
    ensures forall i :: 0 <= i < |ms| ==> ms[i].id != NextIdOf(ms)
    ensures ms == [] ==> NextIdOf(ms) == "1"
  {
    ParseIntOfNatToString(MaxNumericId(ms) + 1);
  }

  /** With distinct IDs, deleting the first material with an ID removes
      every material with it and keeps the rest distinct. */
  lemma RemoveFirstUnique(ms: seq<Material>, id: string)
    requires UniqueIds(ms)
    ensures UniqueIds(RemoveFirst(ms, HasId(id)))
    ensures forall i :: 0 <= i < |RemoveFirst(ms, HasId(id))| ==> RemoveFirst(ms, HasId(id))[i].id != id
  {
    match FirstMatch(ms, HasId(id))
    case None =>
    case Some(k) =>
      var r := RemoveFirst(ms, HasId(id));
      forall i | 0 <= i < |r| ensures r[i].id != id {
        if i >= k { assert r[i] == ms[i + 1]; }
      }
      forall i, j | 0 <= i < j < |r| ensures r[i].id != r[j].id {
        var i' := if i < k then i else i + 1;
        var j' := if j < k then j else j + 1;
        assert r[i] == ms[i'] && r[j] == ms[j'];
      }
  }

  // ---------------------------------------------------------------------
  // Image file name

  /** `f"material_{id}.{path.split('.')[-1]}"`. */
  function ImageFileName(path: string, id: string): string {
    "material_" + id + "." + AfterLastDot(path)
  }

  /** The stored name keeps the extension of the chosen file: a path
      `base.ext` whose extension has no dot is stored as
      `material_<id>.ext`; a path with no dot at all lends its whole text as
      the extension. The name never has a dot after the one that starts the
      extension. */
  lemma ImageFileNameSpec(path: string, id: string, base: string, ext: string)
    ensures var name := ImageFileName(path, id);
            && name[..9 + |id| + 1] == "material_" + id + "."
            && '.' !in name[9 + |id| + 1..]
    ensures path == base + "." + ext && '.' !in ext ==> ImageFileName(path, id) == "material_" + id + "." + ext
    ensures '.' !in path ==> ImageFileName(path, id) == "material_" + id + "." + path
  {
    var name := ImageFileName(path, id);
    assert name == ("material_" + id + ".") + AfterLastDot(path);
    assert name[9 + |id| + 1..] == AfterLastDot(path);
    if path == base + "." + ext && '.' !in ext {
      AfterLastDotOfJoin(base, ext);
    }
    if '.' !in path {
      assert AfterLastDot(path) == path[|path| - |AfterLastDot(path)|..];
    }
  }

  // ---------------------------------------------------------------------
  // The catalogue

  /** The record a successful edit stores: the form's fields over a copy of
      the old record, which keeps its ID and image. */
  function Edited(m: Material, f: MaterialForm): Material
    requires FormParses(f)
  {
    m.(height := f.height.value, width := f.width.value, thickness := f.thickness.value,
       kind := f.kind, grain := f.grain, price := f.price.value)
  }

  class Catalog {
    var materials: seq<Material>

    ghost predicate Valid()
      reads this
    {
      UniqueIds(materials)
    }

    constructor ()
      ensures materials == [] && Valid()
    {
      materials := [];
    }

    /** `obtener_siguiente_id`: one pass keeping the largest numeric ID. */
    method NextId() returns (id: string)
      ensures id == NextIdOf(materials)
      ensures forall i :: 0 <= i < |materials| ==> materials[i].id != id
    {
      var maxId := 0;
      var i := 0;
      while i < |materials|
        invariant 0 <= i <= |materials|
        invariant maxId == MaxNumericId(materials[..i])
      {
        var parsed := ParseInt(materials[i].id);
        MaxNumericIdPrefix(materials, i);
        if parsed.Some? && parsed.value > maxId {
          maxId := parsed.value;
        }
        i := i + 1;
      }
      assert materials[..i] == materials;
      id := NatToString(maxId + 1);
      NextIdFresh(materials);
    }

    /** `agregar_material`: when every numeric field parses, append one
        record with the next ID and no image; otherwise change nothing. */
    method Add(form: MaterialForm) returns (outcome: Outcome)
      modifies this
      ensures !FormParses(form) ==> outcome == InvalidData && materials == old(materials)
      ensures FormParses(form) ==>
                && outcome == Saved
                && materials == old(materials) + [Material(NextIdOf(old(materials)), form.kind, form.height.value,
                                                           form.width.value, form.thickness.value, form.grain,
                                                           form.price.value, None)]
      ensures old(Valid()) ==> Valid()
    {
      if form.height.None? || form.width.None? || form.thickness.None? || form.price.None? {
        return InvalidData;
      }
      var id := NextId();
      var m := Material(id, form.kind, form.height.value, form.width.value, form.thickness.value,
                        form.grain, form.price.value, None);
      materials := materials + [m];
      outcome := Saved;
    }

    /** `eliminar_material`: delete the first record with the ID; report
        NotFound and change nothing when there is none. */
    method Delete(id: string) returns (outcome: Outcome)
      modifies this
      ensures materials == RemoveFirst(old(materials), HasId(id))
      ensures outcome == (if FirstMatch(old(materials), HasId(id)).Some? then Saved else NotFound)
      ensures outcome == Saved ==> |materials| == |old(materials)| - 1
      ensures old(Valid()) ==> Valid() && forall i :: 0 <= i < |materials| ==> materials[i].id != id
    {
      var index: Option<nat> := None;
      var i := 0;
      while i < |materials|
        invariant 0 <= i <= |materials|
        invariant forall j :: 0 <= j < i ==> materials[j].id != id
      {
        if materials[i].id == id {
          index := Some(i);
          break;
        }
        i := i + 1;
      }
      FirstMatchUnique(materials, HasId(id), index);
      if old(Valid()) {
        RemoveFirstUnique(materials, id);
      }
      if index.Some? {
        materials := RemoveAt(materials, index.value);
        outcome := Saved;
      } else {
        outcome := NotFound;
      }
    }

    /** `guardar_cambios_material`: find the first record with the ID, then
        store an edited copy of it at the same index; a field that does not
        parse, or a missing ID, changes nothing. */
    method SaveChanges(id: string, form: MaterialForm) returns (outcome: Outcome)
      modifies this
      ensures FirstMatch(old(materials), HasId(id)).None? ==> outcome == NotFound && materials == old(materials)
      ensures FirstMatch(old(materials), HasId(id)).Some? && !FormParses(form) ==>
                outcome == InvalidData && materials == old(materials)
      ensures FirstMatch(old(materials), HasId(id)).Some? && FormParses(form) ==>
                var k := FirstMatch(old(materials), HasId(id)).value;
                outcome == Saved && materials == old(materials)[k := Edited(old(materials)[k], form)]
      ensures old(Valid()) ==> Valid()
    {
      var index: Option<nat> := None;
      var i := 0;
      while i < |materials|
        invariant 0 <= i <= |materials|
        invariant forall j :: 0 <= j < i ==> materials[j].id != id
      {
        if materials[i].id == id {
          index := Some(i);
          break;
        }
        i := i + 1;
      }
      FirstMatchUnique(materials, HasId(id), index);
      if index.None? {
        return NotFound;
      }
      if form.height.None? || form.width.None? || form.thickness.None? || form.price.None? {
        return InvalidData;
      }
      var k := index.value;
      materials := materials[k := Edited(materials[k], form)];
      outcome := Saved;
    }
  }
}
