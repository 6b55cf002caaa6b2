/** The recipe cost simulator: each line picks a product and a quantity, and
    the total adds up the cost of every complete line. */
module Recipe {
  import opened Records
  import Domain

  /** What a product option carries: its price and its egg flag. */
  datatype Choix = Choix(prix: Parsed, isOeuf: bool)

  /** The option built for a product: `data-prix` is the price written out
      and parsed back, `data-isoeuf` is `isOeuf || false`. */
  function ChoixProduit(p: Record): Choix
    requires p.Produit?
  {
    Choix(p.prix, p.isOeuf)
  }

  /** One simulator line: `None` for the empty option or the empty quantity. */
  datatype Ligne = Ligne(choix: Option<Choix>, quantite: Option<real>)

  predicate Complete(l: Ligne) {
    l.choix.Some? && l.quantite.Some?
  }

  /** Eggs are priced per ten, everything else per kilogram with the quantity
      in grams. */
  function Unite(c: Choix): real {
    if c.isOeuf then 10.0 else 1000.0
  }

  /** What one line adds to the total; an incomplete line adds nothing. */
  function CoutLigne(l: Ligne): Parsed {
    if Complete(l) then Times(Over(l.choix.value.prix, Unite(l.choix.value)), Num(l.quantite.value))
    else Num(0.0)
  }

  /** The running total after the lines, in page order. */
  function CoutRecette(lignes: seq<Ligne>): Parsed
    decreases |lignes|
  {
    if lignes == [] then Num(0.0)
    else Plus(CoutRecette(lignes[..|lignes| - 1]), CoutLigne(lignes[|lignes| - 1]))
  }

  /** calculerCoutTotal without the formatting: the total it displays. */
  method CalculerCoutTotal(lignes: seq<Ligne>) returns (total: Parsed)
    ensures total == CoutRecette(lignes)
  {
    total := Num(0.0);
    var i := 0;
    while i < |lignes|
      invariant 0 <= i <= |lignes|
      invariant total == CoutRecette(lignes[..i])
    {
      var ligne := lignes[i];
      assert lignes[..i + 1][..i] == lignes[..i];
      assert CoutRecette(lignes[..i + 1]) == Plus(CoutRecette(lignes[..i]), CoutLigne(ligne));
      if ligne.choix.Some? && ligne.quantite.Some? {
        var prix := ligne.choix.value.prix;
        var quantite := ligne.quantite.value;
        var cout;
        if ligne.choix.value.isOeuf {
          cout := Times(Over(prix, 10.0), Num(quantite));
        } else {
          cout := Times(Over(prix, 1000.0), Num(quantite));
        }
        assert cout == CoutLigne(ligne);
        total := Plus(total, cout);
      }
      i := i + 1;
    }
    assert lignes[..i] == lignes;
  }

  /** The selected products all have a price that parsed. */
  predicate PrixConnus(lignes: seq<Ligne>) {
    forall i :: 0 <= i < |lignes| ==> PrixConnu(lignes[i])
  }

  predicate PrixConnu(l: Ligne) {
    Complete(l) ==> l.choix.value.prix.Num?
  }

  /** The cost of a line as a plain real: the price of one unit times the
      quantity, and nothing for a line without a known price. */
  function CoutReel(l: Ligne): real {
    if Complete(l) && l.choix.value.prix.Num? then
      l.choix.value.prix.value / Unite(l.choix.value) * l.quantite.value
    else 0.0
  }

  /** The sum of the line costs, added from the first line on. */
  function SommeReelle(lignes: seq<Ligne>): real {
    if lignes == [] then 0.0 else CoutReel(lignes[0]) + SommeReelle(lignes[1..])
  }

  lemma {:induction false} SommeReelleDernier(lignes: seq<Ligne>)
    requires lignes != []
    ensures SommeReelle(lignes) == SommeReelle(lignes[..|lignes| - 1]) + CoutReel(lignes[|lignes| - 1])
    decreases |lignes|
  {
    if |lignes| > 1 {
      var avant := lignes[..|lignes| - 1];
      assert avant[0] == lignes[0];
      assert lignes[1..][..|lignes[1..]| - 1] == avant[1..];
      assert lignes[1..][|lignes[1..]| - 1] == lignes[|lignes| - 1];
      SommeReelleDernier(lignes[1..]);
    }
  }

  lemma CoutLigneReel(l: Ligne)
    requires PrixConnu(l)
    ensures CoutLigne(l) == Num(CoutReel(l))
  {
    if Complete(l) {
      var c := l.choix.value;
      var x := c.prix.value / Unite(c);
      assert Over(c.prix, Unite(c)) == Num(x);
      TimesNum(x, l.quantite.value);
      assert CoutLigne(l) == Num(x * l.quantite.value);
      assert CoutReel(l) == x * l.quantite.value;
    }
  }

  lemma TimesNum(x: real, q: real)
    ensures Times(Num(x), Num(q)) == Num(x * q)
  {
  }

  lemma PlusNum(x: real, y: real)
    ensures Plus(Num(x), Num(y)) == Num(x + y)
  {
  }

  /** With every selected price known, the total is the plain sum of
      price / unit x quantity over the complete lines. */
  lemma {:induction false} CoutSansNaN(lignes: seq<Ligne>)
    requires PrixConnus(lignes)
    ensures CoutRecette(lignes) == Num(SommeReelle(lignes))
    decreases |lignes|
  {
    if lignes != [] {
      var avant, dernier := lignes[..|lignes| - 1], lignes[|lignes| - 1];
      assert PrixConnus(avant) by {
        forall i | 0 <= i < |avant| ensures PrixConnu(avant[i]) {
          assert avant[i] == lignes[i];
        }
      }
      CoutSansNaN(avant);
      SommeReelleDernier(lignes);
      CoutLigneReel(dernier);
      PlusNum(SommeReelle(avant), CoutReel(dernier));
    }
  }

  /** A NaN price on a complete line makes the whole total NaN. */
  lemma {:induction false} NaNContamine(lignes: seq<Ligne>, k: int)
    requires 0 <= k < |lignes| && Complete(lignes[k]) && lignes[k].choix.value.prix.NaN?
    ensures CoutRecette(lignes) == NaN
    decreases |lignes|
  {
    if k < |lignes| - 1 {
      NaNContamine(lignes[..|lignes| - 1], k);
    }
  }

  /** The total of two runs of lines is the sum of their totals. */
  lemma {:induction false} CoutConcat(a: seq<Ligne>, b: seq<Ligne>)
    ensures CoutRecette(a + b) == Plus(CoutRecette(a), CoutRecette(b))
    decreases |b|
  {
    if b == [] {
      assert a + b == a;
    } else {
      var b' := b[..|b| - 1];
      assert (a + b)[..|a + b| - 1] == a + b';
      CoutConcat(a, b');
    }
  }

  /** Lines without a product or without a quantity change nothing. */
  lemma {:induction false} LigneIncompleteNeutre(a: seq<Ligne>, l: Ligne, b: seq<Ligne>)
    requires !Complete(l)
    ensures CoutRecette(a + [l] + b) == CoutRecette(a + b)
  {
    CoutConcat(a + [l], b);
    CoutConcat(a, b);
    assert (a + [l])[..|a|] == a;
    assert CoutRecette(a + [l]) == Plus(CoutRecette(a), Num(0.0));
  }

  /** A product added through the product form is priced per ten in the
      simulator exactly when its name mentions eggs. */
  lemma UniteNouveauProduit(nom: string, magasin: string, prix: real)
    ensures Unite(ChoixProduit(Domain.NouveauProduit(nom, magasin, prix))) == 10.0
            <==> Domain.EstOeuf(nom)
  {
  }

  /** 250 g of butter at 9.40 per kg and 4 eggs at 2.50 per ten: 2.35 + 1.00. */
  lemma CoutExemple()
    ensures CoutRecette([Ligne(Some(ChoixProduit(Domain.PRODUITS_INIT[0])), Some(250.0)),
                         Ligne(Some(ChoixProduit(Domain.PRODUITS_INIT[3])), Some(4.0))])
            == Num(3.35)
  {
    var l0 := Ligne(Some(ChoixProduit(Domain.PRODUITS_INIT[0])), Some(250.0));
    var l1 := Ligne(Some(ChoixProduit(Domain.PRODUITS_INIT[3])), Some(4.0));
    assert ChoixProduit(Domain.PRODUITS_INIT[0]) == Choix(Num(9.4), false);
    assert ChoixProduit(Domain.PRODUITS_INIT[3]) == Choix(Num(2.5), true);
    assert CoutLigne(l0) == Num(2.35);
    assert CoutLigne(l1) == Num(1.0);
    assert [l0, l1][..1] == [l0] && [l0][..0] == [];
    assert CoutRecette([l0]) == Num(2.35);
  }
}
