/** The material summary (`actualizar_resumen_materiales`, identical in
    both applications): every piece is put in one wood category by the
    words its name contains, and a count and an area in square metres are
    accumulated per category. */
module MaterialSummary {
  import opened Wrappers
  import opened PyText
  import opened Seqs
  import opened CabinetModel
  import opened CabinetStore

  datatype Category = Drawers | Laterals | BaseTop | Back | Doors | Shelves | ToeKickWood | Other

  /** The category's name as the summary table shows it. */
  function Label(c: Category): string {
    match c
    case Drawers => "Madera para Gavetas"
    case Laterals => "Madera para Laterales"
    case BaseTop => "Madera para Base/Techo"
    case Back => "Madera para Trasera"
    case Doors => "Madera para Puertas"
    case Shelves => "Madera para Estantes"
    case ToeKickWood => "Madera para Toe Kick"
    case Other => "Otros materiales"
  }

  /** Position of a category in the order the names are tested. */
  function Rank(c: Category): nat {
    match c
    case Drawers => 0
    case Laterals => 1
    case BaseTop => 2
    case Back => 3
    case Doors => 4
    case Shelves => 5
    case ToeKickWood => 6
    case Other => 7
  }

  /** The name contains one of the category's words. */
  predicate Mentions(name: string, c: Category) {
    match c
    case Drawers => Contains(name, "Drawer")
    case Laterals => Contains(name, "Lateral")
    case BaseTop => Contains(name, "Base") || Contains(name, "Techo")
    case Back => Contains(name, "Trasera")
    case Doors => Contains(name, "Puerta")
    case Shelves => Contains(name, "Estante")
    case ToeKickWood => Contains(name, "Toe Kick")
    case Other => false
  }

  /** The category of a piece name: the first one, in test order, whose
      word occurs in the name; "Otros materiales" when none does. */
  function Classify(name: string): (r: Category)
    ensures r != Other ==> Mentions(name, r)
  {
    if Contains(name, "Drawer") then Drawers
    else if Contains(name, "Lateral") then Laterals
    else if Contains(name, "Base") || Contains(name, "Techo") then BaseTop
    else if Contains(name, "Trasera") then Back
    else if Contains(name, "Puerta") then Doors
    else if Contains(name, "Estante") then Shelves
    else if Contains(name, "Toe Kick") then ToeKickWood
    else Other
  }

  /** A name is put in a category exactly when it mentions that category
      and no category tested earlier, and under "Otros materiales" exactly
      when it mentions none. */
  lemma ClassifyFirstMention(name: string, c: Category)
    ensures Classify(name) == c <==>
              (c == Other || Mentions(name, c)) && forall d :: Rank(d) < Rank(c) ==> !Mentions(name, d)
  {
  }

  /** Different categories are shown under different names, so a table
      keyed by label and one keyed by category hold the same data. */
  lemma LabelsDistinct(a: Category, b: Category)
    requires a != b
    ensures Label(a) != Label(b)
  {
  }

  /** `cantidad`: the quantity of the first cabinet whose ID is the
      piece's; 1 when no cabinet has it. */
  function QuantityFor(cs: seq<Cabinet>, key: string): (q: int)
    ensures (forall j :: 0 <= j < |cs| ==> cs[j].id != key) ==> q == 1
    ensures (exists j :: 0 <= j < |cs| && cs[j].id == key) ==>
              exists j :: 0 <= j < |cs| && cs[j].id == key && q == cs[j].quantity &&
                forall i :: 0 <= i < j ==> cs[i].id != key
  {
    match FirstMatch(cs, HasId(key))
    case None => 1
    case Some(k) => cs[k].quantity
  }

  /** `pieza.get("gabinete_id", "")`. */
  function OwnerKey(p: Piece): string {
    p.cabinetId.GetOr("")
  }

  /** Area of a piece in square metres times its cabinet's quantity. */
  function PieceArea(p: Piece, q: int): real {
    p.width * p.height / 10000.0 * q as real
  }

  datatype Totals = Totals(count: int, area: real)

  /** The dictionary update for one piece. */
  function Accumulate(m: map<Category, Totals>, c: Category, q: int, a: real): map<Category, Totals> {
    if c in m then m[c := Totals(m[c].count + q, m[c].area + a)]
    else m[c := Totals(q, a)]
  }

  /** The `materiales` dictionary after the loop has seen the pieces ps. */
  function SummaryOf(ps: seq<Piece>, cs: seq<Cabinet>): map<Category, Totals> {
    if ps == [] then map[]
    else
      var p := ps[|ps| - 1];
      var q := QuantityFor(cs, OwnerKey(p));
      Accumulate(SummaryOf(ps[..|ps| - 1], cs), Classify(p.name), q, PieceArea(p, q))
  }

  /** The summary of one more piece of ps. */
  lemma SummaryOfPrefix(ps: seq<Piece>, cs: seq<Cabinet>, i: nat)
    requires i < |ps|
    ensures var q := QuantityFor(cs, OwnerKey(ps[i]));
            SummaryOf(ps[..i + 1], cs) == Accumulate(SummaryOf(ps[..i], cs), Classify(ps[i].name), q, PieceArea(ps[i], q))
  {
    assert ps[..i + 1][..i] == ps[..i];
  }

  /** The two branches of the dictionary update. */
  lemma AccumulateCases(m: map<Category, Totals>, c: Category, q: int, a: real)
    ensures c in m ==> Accumulate(m, c, q, a) == m[c := Totals(m[c].count + q, m[c].area + a)]
    ensures c !in m ==> Accumulate(m, c, q, a) == m[c := Totals(q, a)]
  {
  }

  /** The summary loop. */
  method Summarize(ps: seq<Piece>, cs: seq<Cabinet>) returns (m: map<Category, Totals>)
    ensures m == SummaryOf(ps, cs)
  {
    m := map[];
    var i := 0;
    while i < |ps|
      invariant 0 <= i <= |ps|
      invariant m == SummaryOf(ps[..i], cs)
    {
      var p := ps[i];
      var key := OwnerKey(p);
      var q := 1;
      var k := FindFirst(cs, HasId(key));
      if k.Some? {
        q := cs[k.value].quantity;
      }
      var area := PieceArea(p, q);
      var material := Classify(p.name);
      assert q == QuantityFor(cs, key);
      SummaryOfPrefix(ps, cs, i);
      AccumulateCases(m, material, q, area);
      if material in m {
        m := m[material := Totals(m[material].count + q, m[material].area + area)];
      } else {
        m := m[material := Totals(q, area)];
      }
      i := i + 1;
    }
    assert ps[..i] == ps;
  }

  function InCategory(c: Category): Piece -> bool {
    (p: Piece) => Classify(p.name) == c
  }

  function QuantitySum(ps: seq<Piece>, cs: seq<Cabinet>): int {
    if ps == [] then 0 else QuantitySum(ps[..|ps| - 1], cs) + QuantityFor(cs, OwnerKey(ps[|ps| - 1]))
  }

  function AreaSum(ps: seq<Piece>, cs: seq<Cabinet>): real {
    if ps == [] then 0.0
    else
      var p := ps[|ps| - 1];
      AreaSum(ps[..|ps| - 1], cs) + PieceArea(p, QuantityFor(cs, OwnerKey(p)))
  }

  /** A category's row, or zeros when the category has no row. */
  function TotalsOf(m: map<Category, Totals>, c: Category): Totals {
    if c in m then m[c] else Totals(0, 0.0)
  }

  /** One more piece changes only its own category's row. */
  lemma SummaryStep(ps: seq<Piece>, cs: seq<Cabinet>, c: Category)
    requires ps != []
    ensures var p := ps[|ps| - 1];
            var q := QuantityFor(cs, OwnerKey(p));
            var before := SummaryOf(ps[..|ps| - 1], cs);
            (c in SummaryOf(ps, cs) <==> c in before || Classify(p.name) == c) &&
            TotalsOf(SummaryOf(ps, cs), c) ==
              if Classify(p.name) == c
              then Totals(TotalsOf(before, c).count + q, TotalsOf(before, c).area + PieceArea(p, q))
              else TotalsOf(before, c)
  {
    var p := ps[|ps| - 1];
    var q := QuantityFor(cs, OwnerKey(p));
    AccumulateRow(SummaryOf(ps[..|ps| - 1], cs), Classify(p.name), q, PieceArea(p, q), c);
  }

  /** Accumulating into row d changes only row d. */
  lemma AccumulateRow(m: map<Category, Totals>, d: Category, q: int, a: real, c: Category)
    ensures c in Accumulate(m, d, q, a) <==> c in m || d == c
    ensures TotalsOf(Accumulate(m, d, q, a), c) ==
              if d == c then Totals(TotalsOf(m, c).count + q, TotalsOf(m, c).area + a) else TotalsOf(m, c)
  {
  }

  /** Filtering one more piece. */
  lemma CategoryStep(ps: seq<Piece>, cs: seq<Cabinet>, c: Category)
    requires ps != []
    ensures var p := ps[|ps| - 1];
            var q := QuantityFor(cs, OwnerKey(p));
            var fi := Filter(ps[..|ps| - 1], InCategory(c));
            var f := Filter(ps, InCategory(c));
            if Classify(p.name) == c
            then f != [] && QuantitySum(f, cs) == QuantitySum(fi, cs) + q && AreaSum(f, cs) == AreaSum(fi, cs) + PieceArea(p, q)
            else f == fi
  {
    var p := ps[|ps| - 1];
    if Classify(p.name) == c {
      var f := Filter(ps, InCategory(c));
      assert f == Filter(ps[..|ps| - 1], InCategory(c)) + [p];
      assert f[..|f| - 1] == Filter(ps[..|ps| - 1], InCategory(c)) && f[|f| - 1] == p;
    }
  }

  /** A category has a row exactly when some piece falls in it, and the row
      holds the quantity and area summed over the pieces of that category. */
  lemma {:induction false} SummaryPerCategory(ps: seq<Piece>, cs: seq<Cabinet>, c: Category)
    ensures c in SummaryOf(ps, cs) <==> Filter(ps, InCategory(c)) != []
    ensures TotalsOf(SummaryOf(ps, cs), c) ==
              Totals(QuantitySum(Filter(ps, InCategory(c)), cs), AreaSum(Filter(ps, InCategory(c)), cs))
  {
    if ps != [] {
      SummaryPerCategory(ps[..|ps| - 1], cs, c);
      SummaryStep(ps, cs, c);
      CategoryStep(ps, cs, c);
    }
  }

  /** All categories, each once. */
  const AllCategories: seq<Category> := [Drawers, Laterals, BaseTop, Back, Doors, Shelves, ToeKickWood, Other]

  function CountOver(m: map<Category, Totals>, cats: seq<Category>): int {
    if cats == [] then 0 else CountOver(m, cats[..|cats| - 1]) + TotalsOf(m, cats[|cats| - 1]).count
  }

  function AreaOver(m: map<Category, Totals>, cats: seq<Category>): real {
    if cats == [] then 0.0 else AreaOver(m, cats[..|cats| - 1]) + TotalsOf(m, cats[|cats| - 1]).area
  }

  lemma {:induction false} AccumulateOver(m: map<Category, Totals>, c: Category, q: int, a: real, cats: seq<Category>)
    requires forall i, j :: 0 <= i < j < |cats| ==> cats[i] != cats[j]
    ensures CountOver(Accumulate(m, c, q, a), cats) == CountOver(m, cats) + (if c in cats then q else 0)
    ensures AreaOver(Accumulate(m, c, q, a), cats) == AreaOver(m, cats) + (if c in cats then a else 0.0)
  {
    if cats != [] {
      var init := cats[..|cats| - 1];
      AccumulateOver(m, c, q, a, init);
      assert c in cats <==> c in init || c == cats[|cats| - 1];
      if c == cats[|cats| - 1] {
        assert c !in init;
      }
    }
  }

  lemma {:induction false} OverEmpty(cats: seq<Category>)
    ensures CountOver(map[], cats) == 0 && AreaOver(map[], cats) == 0.0
  {
    if cats != [] {
      OverEmpty(cats[..|cats| - 1]);
    }
  }

  /** The category rows add up to the totals over all pieces. */
  lemma {:induction false} SummaryGrandTotal(ps: seq<Piece>, cs: seq<Cabinet>)
    ensures CountOver(SummaryOf(ps, cs), AllCategories) == QuantitySum(ps, cs)
    ensures AreaOver(SummaryOf(ps, cs), AllCategories) == AreaSum(ps, cs)
  {
    if ps != [] {
      var p := ps[|ps| - 1];
      var q := QuantityFor(cs, OwnerKey(p));
      var init := ps[..|ps| - 1];
      SummaryGrandTotal(init, cs);
      assert Classify(p.name) in AllCategories;
      AccumulateOver(SummaryOf(init, cs), Classify(p.name), q, PieceArea(p, q), AllCategories);
      assert SummaryOf(ps, cs) == Accumulate(SummaryOf(init, cs), Classify(p.name), q, PieceArea(p, q));
      assert QuantitySum(ps, cs) == QuantitySum(init, cs) + q;
      assert AreaSum(ps, cs) == AreaSum(init, cs) + PieceArea(p, q);
    } else {
      OverEmpty(AllCategories);
    }
  }
}
