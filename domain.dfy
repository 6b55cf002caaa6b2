/** The domain rules pulled out of the event handlers: the egg flag, the
    product and order records the forms build, their validation, the seed
    data and the store-deletion guard. */
module Domain {
  import opened Records

  // ---------------------------------------------------------------------
  // Egg products

  /** `toLowerCase` on one character, for ASCII, Latin-1 and the ligature Œ. */
  function LowerChar(c: char): char {
    if 'A' <= c <= 'Z' then (c as int + 32) as char
    else if '\U{C0}' <= c <= '\U{DE}' && c != '\U{D7}' then (c as int + 32) as char
    else if c == 'Œ' then 'œ'
    else c
  }

  function Lower(s: string): string {
    seq(|s|, i requires 0 <= i < |s| => LowerChar(s[i]))
  }

  /** Lower-casing twice is lower-casing once. */
  lemma LowerIdempotent(s: string)
    ensures Lower(Lower(s)) == Lower(s)
  {
    forall i | 0 <= i < |s| ensures LowerChar(LowerChar(s[i])) == LowerChar(s[i]) {
      LowerCharIdempotent(s[i]);
    }
  }

  lemma LowerCharIdempotent(c: char)
    ensures LowerChar(LowerChar(c)) == LowerChar(c)
  {
  }

  /** The egg test does not care about case: a name and its lower-cased form
      are egg names together. */
  lemma EstOeufSansCasse(nom: string)
    ensures EstOeuf(Lower(nom)) == EstOeuf(nom)
  {
    LowerIdempotent(nom);
  }

  predicate StartsWith(s: string, t: string) {
    |t| <= |s| && s[..|t|] == t
  }

  /** `s.includes(t)`. */
  predicate Includes(s: string, t: string)
    decreases |s|
  {
    StartsWith(s, t) || (|s| > 0 && Includes(s[1..], t))
  }

  /** `t` occurs in `s` at some offset: the reference reading of `includes`. */
  lemma {:induction false} IncludesAtOffset(s: string, t: string)
    ensures Includes(s, t) <==> exists i :: 0 <= i <= |s| && StartsWith(s[i..], t)
    decreases |s|
  {
    assert s[0..] == s;
    if |s| > 0 {
      IncludesAtOffset(s[1..], t);
      if Includes(s, t) && !StartsWith(s, t) {
        var i :| 0 <= i <= |s[1..]| && StartsWith(s[1..][i..], t);
        assert s[1..][i..] == s[i + 1..];
      }
      if !Includes(s, t) {
        forall i | 0 <= i <= |s| ensures !StartsWith(s[i..], t) {
          if i > 0 {
            assert s[1..][i - 1..] == s[i..];
          }
        }
      }
    }
  }

  /** A product name designates eggs when, lower-cased, it contains "œuf" or "oeuf". */
  predicate EstOeuf(nom: string) {
    Includes(Lower(nom), "œuf") || Includes(Lower(nom), "oeuf")
  }

  /** The egg test ignores case and sees the accented and plain spellings. */
  lemma EstOeufExemples()
    ensures EstOeuf("Œufs bio") && EstOeuf("OEUFS") && EstOeuf("Œufs")
  {
    StartsWithLower("Œufs bio", "œuf");
    StartsWithLower("OEUFS", "oeuf");
    StartsWithLower("Œufs", "œuf");
  }

  lemma StartsWithLower(nom: string, t: string)
    requires |t| <= |nom| && forall i :: 0 <= i < |t| ==> LowerChar(nom[i]) == t[i]
    ensures Includes(Lower(nom), t)
  {
    assert Lower(nom)[..|t|] == t;
  }

  /** None of the three seed products without the explicit flag is an egg product. */
  lemma PasOeufExemples()
    ensures !EstOeuf("Farine") && !EstOeuf("Beurre") && !EstOeuf("Sucre glace")
  {
    NotIn("Farine");
    NotIn("Beurre");
    NotIn("Sucre glace");
  }

  /** A name with no 'f' or 'F' past its first letter contains neither egg token. */
  lemma NotIn(nom: string)
    requires forall i :: 1 <= i < |nom| ==> nom[i] != 'f' && nom[i] != 'F'
    ensures !EstOeuf(nom)
  {
    var l := Lower(nom);
    assert forall i :: 1 <= i < |nom| ==> LowerChar(nom[i]) != 'f';
    IncludesAtOffset(l, "œuf");
    IncludesAtOffset(l, "oeuf");
    forall i | 0 <= i <= |l| ensures !StartsWith(l[i..], "œuf") {
      if i + 3 <= |l| {
        assert LowerChar(nom[i + 2]) != 'f';
        assert l[i..][..3][1] == l[i + 1] && l[i..][..3][2] == l[i + 2];
      }
    }
    forall i | 0 <= i <= |l| ensures !StartsWith(l[i..], "oeuf") {
      if i + 4 <= |l| {
        assert LowerChar(nom[i + 3]) != 'f';
        assert l[i..][..4][2] == l[i + 2] && l[i..][..4][3] == l[i + 3];
      }
    }
  }

  // ---------------------------------------------------------------------
  // Products

  /** ajouterProduit's check: a name, a store, and a price that parsed. */
  predicate ProduitValide(nom: string, magasin: string, prix: Parsed) {
    nom != "" && magasin != "" && prix.Num?
  }

  /** The record ajouterProduit hands to `add`, flagged when the name says eggs. */
  function NouveauProduit(nom: string, magasin: string, prix: real): Record {
    Produit(0, nom, magasin, Num(prix), EstOeuf(nom))
  }

  // ---------------------------------------------------------------------
  // Orders

  const ACOMPTE: string := "acompte"
  const PAYE: string := "payé"

  /** The order form as the handlers read it: each field already parsed;
      `date` is `None` when the date field is empty. */
  datatype FormulaireCommande = FormulaireCommande(
    date: Option<Date>, description: string, inscription: string, parts: ParsedInt,
    nom: string, prenom: string, telephone: string, prix: Parsed,
    paiement: string, acompte: Parsed, remarque: string)

  /** `!parts` for an integer from `parseInt`. */
  predicate FalsyInt(p: ParsedInt) {
    p.IntNaN? || p.value == 0
  }

  /** ajouterCommande's check: the price and payment status are not checked,
      the number of parts must be a non-zero number. */
  predicate ValideAjout(f: FormulaireCommande) {
    && f.date.Some? && f.description != "" && f.nom != "" && f.prenom != ""
    && f.telephone != "" && !FalsyInt(f.parts)
  }

  /** The edit closure's check: the parts are not checked, the price must
      have parsed and a payment status must be chosen. */
  predicate ValideEdition(f: FormulaireCommande) {
    && f.date.Some? && f.description != "" && f.nom != "" && f.prenom != ""
    && f.telephone != "" && f.prix.Num? && f.paiement != ""
  }

  /** The order record both handlers store: the deposit is kept only when
      the payment status is "acompte". */
  function ConstruireCommande(f: FormulaireCommande): Record
    requires f.date.Some?
  {
    Commande(0, f.date.value, f.description, f.inscription, f.parts, f.nom, f.prenom,
             f.telephone, f.prix, f.paiement,
             if f.paiement == ACOMPTE then f.acompte else Num(0.0),
             f.remarque)
  }

  /** A deposit is recorded only on an order whose status is "acompte". */
  predicate AcompteCoherent(c: Record) {
    c.Commande? && (c.paiement != ACOMPTE ==> c.acompte == Num(0.0))
  }

  /** An order built from the form keeps the entered deposit exactly when the
      status is "acompte", records 0 otherwise, and copies every other field. */
  lemma ConstruireCommandeAcompte(f: FormulaireCommande)
    requires f.date.Some?
    ensures var c := ConstruireCommande(f);
      && AcompteCoherent(c)
      && (f.paiement == ACOMPTE ==> c.acompte == f.acompte)
      && (f.paiement != ACOMPTE ==> c.acompte == Num(0.0))
      && c.date == f.date.value && c.description == f.description
      && c.inscription == f.inscription && c.parts == f.parts && c.nom == f.nom
      && c.prenom == f.prenom && c.telephone == f.telephone && c.prix == f.prix
      && c.paiement == f.paiement && c.remarque == f.remarque
  {
  }

  /** The two handlers accept different forms: a form with an unparsed price
      passes ajouterCommande's check only, one with no parts the edit's only. */
  lemma ValidationsDifferent()
    ensures var f := FormulaireExemple(Int(4), NaN);
      ValideAjout(f) && !ValideEdition(f)
    ensures var f := FormulaireExemple(IntNaN, Num(30.0));
      !ValideAjout(f) && ValideEdition(f)
    ensures var f := FormulaireExemple(Int(0), Num(30.0));
      !ValideAjout(f) && ValideEdition(f)
  {
  }

  function FormulaireExemple(parts: ParsedInt, prix: Parsed): FormulaireCommande {
    FormulaireCommande(Some(Date(2025, 9, 12)), "Fraisier", "", parts, "Durand", "Luc",
                       "06 00 00 00 00", prix, PAYE, Num(0.0), "")
  }

  /** A deposit of 12.50 entered with status "acompte" is stored as 12.50;
      the same form with status "payé" stores 0. */
  lemma AcompteExemple()
    ensures ConstruireCommande(FormulaireExemple(Int(4), Num(30.0)).(paiement := ACOMPTE, acompte := Num(12.5))).acompte == Num(12.5)
    ensures ConstruireCommande(FormulaireExemple(Int(4), Num(30.0)).(acompte := Num(12.5))).acompte == Num(0.0)
  {
  }

  /** editerCommande's prefill of the form from a stored order: missing
      inscription and remark become "", a falsy deposit becomes 0. */
  function FormulaireDe(c: Record): FormulaireCommande
    requires c.Commande?
  {
    FormulaireCommande(Some(c.date), c.description, c.inscription, c.parts, c.nom, c.prenom,
                       c.telephone, c.prix, c.paiement,
                       if Falsy(c.acompte) then Num(0.0) else c.acompte,
                       c.remarque)
  }

  /** Opening an order for editing and saving the form unchanged passes the
      edit check and stores the very same order, provided the order's
      mandatory fields are filled, its prices are numbers and its deposit is
      consistent with its status. */
  lemma EditionSansChangement(c: Record)
    requires AcompteCoherent(c) && c.acompte.Num?
    requires c.description != "" && c.nom != "" && c.prenom != "" && c.telephone != ""
    requires c.prix.Num? && c.paiement != ""
    ensures ValideEdition(FormulaireDe(c))
    ensures WithId(ConstruireCommande(FormulaireDe(c)), c.id) == c
  {
  }

  /** The prefilled form of an order passes ajouterCommande's check exactly
      when the order's mandatory fields are filled and its parts are a
      non-zero number; every seed order's does. */
  lemma PrefillPasseAjout(c: Record)
    requires c.Commande?
    ensures ValideAjout(FormulaireDe(c)) <==>
              c.description != "" && c.nom != "" && c.prenom != "" && c.telephone != "" && !FalsyInt(c.parts)
    ensures forall i :: 0 <= i < |COMMANDES_INIT| ==> ValideAjout(FormulaireDe(COMMANDES_INIT[i]))
  {
  }

  /** changerStatutPaiement replaces only the status: moving the deposit
      order of the seed data to "payé" keeps its deposit of 15, which an
      order built by the forms never has. */
  lemma ChangementStatutGardeAcompte()
    ensures AcompteCoherent(COMMANDES_INIT[1])
    ensures COMMANDES_INIT[1].(paiement := PAYE).acompte == Num(15.0)
    ensures !AcompteCoherent(COMMANDES_INIT[1].(paiement := PAYE))
  {
  }

  // ---------------------------------------------------------------------
  // Seed data, inserted into a collection found empty

  const PRODUITS_INIT: seq<Record> := [
    Produit(0, "Beurre", "LECLERC", Num(9.4), false),
    Produit(0, "Farine", "LIDL", Num(5.6), false),
    Produit(0, "Sucre glace", "Netto", Num(4.6), false),
    Produit(0, "Œufs", "LECLERC", Num(2.5), true)
  ]

  const MAGASINS_INIT: seq<Record> := [
    Magasin(0, "LECLERC"),
    Magasin(0, "LIDL"),
    Magasin(0, "Netto")
  ]

  const COMMANDES_INIT: seq<Record> := [
    Commande(0, Date(2025, 1, 15), "Gâteau au chocolat", "Joyeux Anniversaire", Int(12),
             "Dupont", "Marie", "06 12 34 56 78", Num(45.0), PAYE, Num(0.0), "À livrer avant 16h"),
    Commande(0, Date(2025, 1, 20), "Tarte aux pommes", "", Int(8),
             "Martin", "Pierre", "07 89 45 12 36", Num(28.5), ACOMPTE, Num(15.0), "Sans gluten"),
    Commande(0, Date(2025, 2, 5), "Cheesecake framboise", "Félicitations", Int(10),
             "Leroy", "Sophie", "06 98 76 54 32", Num(52.0), PAYE, Num(0.0), "Sans sucre ajouté")
  ]

  /** The seed egg flag agrees with the name rule ajouterProduit applies. */
  lemma SeedOeufsCoherents()
    ensures forall p :: p in PRODUITS_INIT ==> p.isOeuf == EstOeuf(p.produit)
  {
    EstOeufExemples();
    PasOeufExemples();
  }

  /** The seed orders keep a deposit only on the "acompte" order. */
  lemma SeedAcomptesCoherents()
    ensures forall i :: 0 <= i < |COMMANDES_INIT| ==> AcompteCoherent(COMMANDES_INIT[i])
  {
  }

  // ---------------------------------------------------------------------
  // The store-deletion guard

  /** `p.magasinId === id`. */
  predicate UtiliseMagasin(p: Record, id: int) {
    Champ(p, "magasinId") == Some(JsNumber(Num(id as real)))
  }

  /** `produits.filter(p => p.magasinId === id)`. */
  function ProduitsUtilisantMagasin(produits: seq<Record>, id: int): (r: seq<Record>)
    ensures forall p :: p in r <==> p in produits && UtiliseMagasin(p, id)
  {
    if produits == [] then []
    else (if UtiliseMagasin(produits[0], id) then [produits[0]] else [])
         + ProduitsUtilisantMagasin(produits[1..], id)
  }

  /** No record carries a `magasinId` property. */
  lemma AucunMagasinId(r: Record)
    ensures Champ(r, "magasinId") == None
  {
  }

  /** The guard never finds a product, whatever the products and the store:
      products name their store in `magasin`, so deletion is never refused. */
  lemma {:induction false} GardeInerte(produits: seq<Record>, id: int)
    ensures ProduitsUtilisantMagasin(produits, id) == []
  {
    if produits != [] {
      AucunMagasinId(produits[0]);
      GardeInerte(produits[1..], id);
    }
  }
}
