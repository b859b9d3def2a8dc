/** The application's lists of cabinets (`self.gabinetes`) and pieces
    (`self.piezas`) and the operations both cut-list applications run on
    them: appending a cabinet with its tagged pieces, deleting a cabinet,
    saving an edit of a cabinet and saving an edit of a piece. */
module CabinetStore {
  import opened Wrappers
  import opened Seqs
  import opened CabinetModel

  function HasId(id: string): Cabinet -> bool {
    (c: Cabinet) => c.id == id
  }

  /** The cabinet IDs are pairwise distinct. */
  ghost predicate UniqueIds(cs: seq<Cabinet>) {
    forall i, j :: 0 <= i < j < |cs| ==> cs[i].id != cs[j].id
  }

  /** Every tagged piece names a cabinet that is in the list. */
  ghost predicate OwnersExist(cs: seq<Cabinet>, ps: seq<Piece>) {
    forall p :: p in ps && p.cabinetId.Some? ==> exists c :: c in cs && c.id == p.cabinetId.value
  }

  /** With distinct IDs, deleting the first cabinet with an ID deletes every
      cabinet with it and keeps the others distinct. */
  lemma RemoveFirstUnique(cs: seq<Cabinet>, id: string)
    requires UniqueIds(cs)
    ensures UniqueIds(RemoveFirst(cs, HasId(id)))
    ensures forall c :: c in RemoveFirst(cs, HasId(id)) ==> c.id != id
    ensures forall c :: c in cs && c.id != id ==> c in RemoveFirst(cs, HasId(id))
  {
    var r := RemoveFirst(cs, HasId(id));
    match FirstMatch(cs, HasId(id))
    case None =>
    case Some(k) =>
      forall c | c in r ensures c.id != id {
        var j :| 0 <= j < |r| && r[j] == c;
        if j >= k { assert r[j] == cs[j + 1]; }
      }
      forall c | c in cs && c.id != id ensures c in r {
        var j :| 0 <= j < |cs| && cs[j] == c;
        if j < k { assert r[j] == c; } else { assert j > k; assert r[j - 1] == c; }
      }
  }

  /** One edit assignment of `guardar_cambios_pieza`. */
  datatype PieceWrite =
    | SetName(name: string)
    | SetPieceWidth(w: Option<real>)
    | SetPieceHeight(h: Option<real>)
    | SetPieceThickness(t: Option<real>)
    | SetMaterial(m: string)

  predicate PieceWriteParses(w: PieceWrite) {
    match w
    case SetPieceWidth(x) => x.Some?
    case SetPieceHeight(h) => h.Some?
    case SetPieceThickness(t) => t.Some?
    case _ => true
  }

  /** The piece after the assignments in order, stopping at the first that
      raises ValueError, and whether all of them ran. */
  function ApplyPieceWrites(p: Piece, ws: seq<PieceWrite>): (Piece, bool)
    decreases |ws|
  {
    if ws == [] then (p, true)
    else if !PieceWriteParses(ws[0]) then (p, false)
    else
      var q := match ws[0]
        case SetName(n) => p.(name := n)
        case SetPieceWidth(x) => p.(width := x.value)
        case SetPieceHeight(h) => p.(height := h.value)
        case SetPieceThickness(t) => p.(thickness := Some(t.value))
        case SetMaterial(m) => p.(material := Some(m));
      ApplyPieceWrites(q, ws[1..])
  }

  /** A piece edit never moves the piece to another cabinet. */
  lemma {:induction false} ApplyPieceWritesKeepsOwner(p: Piece, ws: seq<PieceWrite>)
    ensures ApplyPieceWrites(p, ws).0.cabinetId == p.cabinetId
    decreases |ws|
  {
    if ws != [] && PieceWriteParses(ws[0]) {
      var q := match ws[0]
        case SetName(n) => p.(name := n)
        case SetPieceWidth(x) => p.(width := x.value)
        case SetPieceHeight(h) => p.(height := h.value)
        case SetPieceThickness(t) => p.(thickness := Some(t.value))
        case SetMaterial(m) => p.(material := Some(m));
      ApplyPieceWritesKeepsOwner(q, ws[1..]);
    }
  }

  function IsPiece(id: string, name: string): Piece -> bool {
    (p: Piece) => p.cabinetId == Some(id) && p.name == name
  }

  class Store {
    var cabinets: seq<Cabinet>
    var pieces: seq<Piece>

    ghost predicate Valid()
      reads this
    {
      OwnersExist(cabinets, pieces)
    }

    constructor ()
      ensures cabinets == [] && pieces == [] && Valid()
    {
      cabinets := [];
      pieces := [];
    }

    /** `gabinetes.append(c); piezas.extend(tagged)`. */
    method Add(c: Cabinet, computed: seq<Piece>)
      modifies this
      ensures cabinets == old(cabinets) + [c]
      ensures pieces == old(pieces) + Tag(computed, c.id, c.thickness)
      ensures old(Valid()) ==> Valid()
      ensures old(UniqueIds(cabinets)) && (forall d :: d in old(cabinets) ==> d.id != c.id) ==> UniqueIds(cabinets)
    {
      var tagged := Tag(computed, c.id, c.thickness);
      cabinets := cabinets + [c];
      pieces := pieces + tagged;
      assert c in cabinets;
      assert forall p :: p in old(pieces) ==> p in pieces;
      forall p | p in pieces && p.cabinetId.Some? && old(Valid())
        ensures exists d :: d in cabinets && d.id == p.cabinetId.value
      {
        if p !in old(pieces) {
          var j :| 0 <= j < |pieces| && pieces[j] == p;
          assert pieces[j] == tagged[j - |old(pieces)|];
        }
      }
    }

    /** `eliminar_gabinete`: delete the first cabinet with the ID (the list
        is left alone when there is none) and every piece tagged with it. */
    method Delete(id: string)
      modifies this
      ensures cabinets == RemoveFirst(old(cabinets), HasId(id))
      ensures pieces == WithoutCabinet(old(pieces), id)
      ensures old(Valid()) ==> Valid()
    {
      ghost var found: Option<nat> := None;
      var i := 0;
      while i < |cabinets|
        invariant 0 <= i <= |cabinets|
        invariant cabinets == old(cabinets)
        invariant forall j :: 0 <= j < i ==> cabinets[j].id != id
      {
        if cabinets[i].id == id {
          FirstMatchUnique(cabinets, HasId(id), Some(i));
          cabinets := RemoveAt(cabinets, i);
          found := Some(i);
          break;
        }
        i := i + 1;
      }
      if found.None? {
        FirstMatchUnique(cabinets, HasId(id), None);
      }
      pieces := WithoutCabinet(pieces, id);
      forall p | p in pieces && p.cabinetId.Some? && old(Valid())
        ensures exists d :: d in cabinets && d.id == p.cabinetId.value
      {
        var d :| d in old(cabinets) && d.id == p.cabinetId.value;
        assert p.cabinetId != Some(id);
        if found.Some? {
          var j :| 0 <= j < |old(cabinets)| && old(cabinets)[j] == d;
          var k := found.value;
          if j < k { assert cabinets[j] == d; } else { assert j != k; assert cabinets[j - 1] == d; }
        }
      }
    }

    /** Saving an edit of a cabinet: find the first cabinet with the ID, run
        the assignments on it in place, and, when they all parse, replace its
        pieces by the tagged output of `calculator` at the end of the piece list.
        An assignment that does not parse stops the edit; the assignments
        before it stay in the record and the pieces are not recomputed. */
    method Edit(id: string, writes: seq<FieldWrite>, calculator: Cabinet -> seq<Piece>) returns (outcome: Outcome)
      modifies this
      ensures FirstMatch(old(cabinets), HasId(id)).None? ==>
                outcome == NotFound && cabinets == old(cabinets) && pieces == old(pieces)
      ensures FirstMatch(old(cabinets), HasId(id)).Some? ==>
                var k := FirstMatch(old(cabinets), HasId(id)).value;
                var r := ApplyWrites(old(cabinets)[k], writes);
                && cabinets == old(cabinets)[k := r.cabinet]
                && (r.complete ==>
                      outcome == Saved &&
                      pieces == WithoutCabinet(old(pieces), id) + Tag(calculator(r.cabinet), id, r.cabinet.thickness))
                && (!r.complete ==> outcome == InvalidData && pieces == old(pieces))
      ensures old(Valid()) ==> Valid()
    {
      var k := FindFirst(cabinets, HasId(id));
      if k.None? {
        return NotFound;
      }
      var i := k.value;
      var r := ApplyWrites(cabinets[i], writes);
      ApplyWritesKeepsIdentity(cabinets[i], writes);
      cabinets := cabinets[i := r.cabinet];
      assert cabinets[i] == r.cabinet;
      if !r.complete {
        assert forall d :: d in old(cabinets) && d.id != id ==> d in cabinets by {
          forall d | d in old(cabinets) && d.id != id ensures d in cabinets {
            var j :| 0 <= j < |old(cabinets)| && old(cabinets)[j] == d;
            assert cabinets[j] == d;
          }
        }
        assert r.cabinet in cabinets && r.cabinet.id == id;
        return InvalidData;
      }
      var computed := calculator(r.cabinet);
      var tagged := Tag(computed, r.cabinet.id, r.cabinet.thickness);
      var kept := WithoutCabinet(pieces, id);
      pieces := kept + tagged;
      outcome := Saved;
      forall p | p in pieces && p.cabinetId.Some? && old(Valid())
        ensures exists d :: d in cabinets && d.id == p.cabinetId.value
      {
        assert r.cabinet in cabinets;
        var j :| 0 <= j < |pieces| && pieces[j] == p;
        if j < |kept| {
          assert p in kept;
          var d :| d in old(cabinets) && d.id == p.cabinetId.value;
          var jd :| 0 <= jd < |old(cabinets)| && old(cabinets)[jd] == d;
          assert d.id != id;
          assert cabinets[jd] == d;
        } else {
          assert p == tagged[j - |kept|];
        }
      }
    }

    /** `guardar_cambios_pieza`: run the assignments on the first piece of
        the cabinet with the given name; no other piece and no cabinet
        changes. */
    method UpdatePiece(id: string, name: string, writes: seq<PieceWrite>) returns (outcome: Outcome)
      modifies this
      ensures cabinets == old(cabinets)
      ensures FirstMatch(old(pieces), IsPiece(id, name)).None? ==> outcome == NotFound && pieces == old(pieces)
      ensures FirstMatch(old(pieces), IsPiece(id, name)).Some? ==>
                var k := FirstMatch(old(pieces), IsPiece(id, name)).value;
                var r := ApplyPieceWrites(old(pieces)[k], writes);
                && pieces == old(pieces)[k := r.0]
                && outcome == (if r.1 then Saved else InvalidData)
      ensures old(Valid()) ==> Valid()
    {
      var k := FindFirst(pieces, IsPiece(id, name));
      if k.None? {
        return NotFound;
      }
      var i := k.value;
      var r := ApplyPieceWrites(pieces[i], writes);
      ApplyPieceWritesKeepsOwner(pieces[i], writes);
      pieces := pieces[i := r.0];
      outcome := if r.1 then Saved else InvalidData;
      forall p | p in pieces && p.cabinetId.Some? && old(Valid())
        ensures exists d :: d in cabinets && d.id == p.cabinetId.value
      {
        var j :| 0 <= j < |pieces| && pieces[j] == p;
        if j == i { assert old(pieces)[i] in old(pieces); } else { assert old(pieces)[j] == p; }
      }
    }
  }
}
