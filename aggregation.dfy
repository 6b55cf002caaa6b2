/** What the order tab computes from the loaded orders: the listing sorted by
    date, the monthly revenue of 2025, and the current-month and other-months
    lists of 2025. */
module Aggregation {
  import opened Records
  import Domain

  /** The year the statistics and the two lists look at. */
  const ANNEE: int := 2025
  /** The "current month", September, counted from 0. */
  const MOIS_COURS: int := 8

  /** `s.filter(p)`. */
  function Filter(s: seq<Record>, p: Record -> bool): (r: seq<Record>)
    ensures forall x :: x in r <==> x in s && p(x)
    ensures forall x :: multiset(r)[x] == if p(x) then multiset(s)[x] else 0
    ensures |r| <= |s|
  {
    if s == [] then []
    else
      assert s == [s[0]] + s[1..];
      (if p(s[0]) then [s[0]] else []) + Filter(s[1..], p)
  }

  /** `filter` keeps the order of the list: filtering a concatenation is
      concatenating the filtered parts. */
  lemma {:induction false} FilterConcat(a: seq<Record>, b: seq<Record>, p: Record -> bool)
    ensures Filter(a + b, p) == Filter(a, p) + Filter(b, p)
    decreases |a|
  {
    if a == [] {
      assert a + b == b;
    } else {
      assert (a + b)[0] == a[0] && (a + b)[1..] == a[1..] + b;
      FilterConcat(a[1..], b, p);
    }
  }

  /** Filtering by two predicates that never hold together and whose union is
      `u` splits the elements `u` keeps, with their multiplicities. */
  lemma {:induction false} FilterSplit(s: seq<Record>, p: Record -> bool, q: Record -> bool, u: Record -> bool)
    requires forall x :: u(x) == (p(x) || q(x)) && !(p(x) && q(x))
    ensures multiset(Filter(s, p)) + multiset(Filter(s, q)) == multiset(Filter(s, u))
  {
    if s != [] {
      FilterSplit(s[1..], p, q, u);
    }
  }

  // ---------------------------------------------------------------------
  // Current month and other months

  predicate DeAnnee(c: Record) {
    c.Commande? && c.date.year == ANNEE
  }

  /** afficherCommandesMoisCours's filter. */
  predicate EstMoisCours(c: Record) {
    c.Commande? && c.date.MonthIndex() == MOIS_COURS && c.date.year == ANNEE
  }

  /** afficherCommandesAutres's filter. */
  predicate EstAutreMois(c: Record) {
    c.Commande? && c.date.MonthIndex() != MOIS_COURS && c.date.year == ANNEE
  }

  function CommandesMoisCours(commandes: seq<Record>): seq<Record> {
    Filter(commandes, EstMoisCours)
  }

  function CommandesAutres(commandes: seq<Record>): seq<Record> {
    Filter(commandes, EstAutreMois)
  }

  /** The two lists show exactly the orders of 2025, each once: the current
      month's in one, every other month's in the other, no order of another
      year in either. */
  lemma PartitionAnnee(commandes: seq<Record>)
    ensures multiset(CommandesMoisCours(commandes)) + multiset(CommandesAutres(commandes))
            == multiset(Filter(commandes, DeAnnee))
    ensures forall c :: multiset(CommandesMoisCours(commandes))[c] + multiset(CommandesAutres(commandes))[c]
              == if DeAnnee(c) then multiset(commandes)[c] else 0
    ensures forall c :: c in CommandesMoisCours(commandes) <==>
              c in commandes && DeAnnee(c) && c.date.month == MOIS_COURS + 1
    ensures forall c :: c in CommandesAutres(commandes) <==>
              c in commandes && DeAnnee(c) && c.date.month != MOIS_COURS + 1
  {
    FilterSplit(commandes, EstMoisCours, EstAutreMois, DeAnnee);
  }

  // ---------------------------------------------------------------------
  // The listing, latest first

  predicate ToutesCommandes(s: seq<Record>) {
    forall i :: 0 <= i < |s| ==> s[i].Commande?
  }

  /** No order is listed before a later one. */
  predicate DecroissantParDate(s: seq<Record>)
    requires ToutesCommandes(s)
  {
    forall i, j :: 0 <= i < j < |s| ==> !Before(s[i].date, s[j].date)
  }

  /** A list stays sorted when an order no earlier than all of it goes in front. */
  lemma EnTete(c: Record, t: seq<Record>)
    requires c.Commande? && ToutesCommandes(t) && DecroissantParDate(t)
    requires forall x :: x in t ==> !Before(c.date, x.date)
    ensures ToutesCommandes([c] + t) && DecroissantParDate([c] + t)
  {
    var r := [c] + t;
    forall i, j | 0 <= i < j < |r| ensures !Before(r[i].date, r[j].date) {
      if i == 0 {
        assert r[j] == t[j - 1] && t[j - 1] in t;
      } else {
        assert r[i] == t[i - 1] && r[j] == t[j - 1];
      }
    }
  }

  /** In a sorted list, the head is no earlier than any element. */
  lemma TeteMajore(c: Record, s: seq<Record>)
    requires c.Commande? && ToutesCommandes(s) && DecroissantParDate(s) && s != []
    requires !Before(c.date, s[0].date)
    ensures forall x :: x in s ==> !Before(c.date, x.date)
  {
    forall x | x in s ensures !Before(c.date, x.date) {
      var k :| 0 <= k < |s| && s[k] == x;
      if k > 0 { assert !Before(s[0].date, s[k].date); }
    }
  }

  lemma TeteDeListe(s: seq<Record>)
    requires ToutesCommandes(s) && DecroissantParDate(s) && s != []
    ensures forall x :: x in s[1..] ==> x.Commande? && !Before(s[0].date, x.date)
  {
    forall x | x in s[1..] ensures x.Commande? && !Before(s[0].date, x.date) {
      var k :| 0 <= k < |s[1..]| && s[1..][k] == x;
      assert x == s[k + 1];
    }
  }

  /** A bound on every element of `rest` and on `c` is a bound on `t`. */
  lemma BorneMultiset(b: Record, c: Record, rest: seq<Record>, t: seq<Record>)
    requires b.Commande? && c.Commande? && ToutesCommandes(rest)
    requires multiset(t) == multiset(rest) + multiset{c}
    requires forall x :: x in rest ==> !Before(b.date, x.date)
    requires !Before(b.date, c.date)
    ensures forall x :: x in t ==> x.Commande? && !Before(b.date, x.date)
  {
    forall x | x in t ensures x.Commande? && !Before(b.date, x.date) {
      assert x in multiset(t);
      if x != c {
        assert x in multiset(rest);
      }
    }
  }

  /** Inserting into a list sorted latest-first, ahead of the orders of the
      same date (a stable insertion). */
  function Inserer(c: Record, s: seq<Record>): (r: seq<Record>)
    requires c.Commande? && ToutesCommandes(s) && DecroissantParDate(s)
    ensures ToutesCommandes(r) && DecroissantParDate(r)
    ensures multiset(r) == multiset(s) + multiset{c}
  {
    if s == [] then [c]
    else if !Before(c.date, s[0].date) then
      TeteMajore(c, s);
      EnTete(c, s);
      [c] + s
    else
      var t := Inserer(c, s[1..]);
      assert s == [s[0]] + s[1..];
      TeteDeListe(s);
      BorneMultiset(s[0], c, s[1..], t);
      EnTete(s[0], t);
      [s[0]] + t
  }

  /** `[...commandes].sort((a, b) => new Date(b.date) - new Date(a.date))`. */
  function TrierParDate(commandes: seq<Record>): (r: seq<Record>)
    requires ToutesCommandes(commandes)
    ensures ToutesCommandes(r) && DecroissantParDate(r)
    ensures multiset(r) == multiset(commandes)
  {
    if commandes == [] then []
    else
      assert commandes == [commandes[0]] + commandes[1..];
      Inserer(commandes[0], TrierParDate(commandes[1..]))
  }

  // ---------------------------------------------------------------------
  // Monthly revenue of 2025

  /** An order of 2025 month `m`, counted from 0. */
  predicate DansMois(c: Record, m: int) {
    DeAnnee(c) && c.date.MonthIndex() == m
  }

  /** One step of `if (!acc) acc = 0; acc += c.prix;`: a falsy total (0 or
      NaN) starts again from 0. */
  function Cumul(acc: Parsed, prix: Parsed): Parsed {
    Plus(if Falsy(acc) then Num(0.0) else acc, prix)
  }

  /** `revenusParMois[m]` after the forEach over `commandes`; an absent entry
      reads as 0, which behaves the same under `!` and `|| 0`. */
  function RevenuMois(commandes: seq<Record>, m: int): Parsed
    decreases |commandes|
  {
    if commandes == [] then Num(0.0)
    else
      var avant := RevenuMois(commandes[..|commandes| - 1], m);
      var c := commandes[|commandes| - 1];
      if DansMois(c, m) then Cumul(avant, c.prix) else avant
  }

  /** `revenusParMois[i] || 0`: what the card shows. */
  function Affiche(x: Parsed): real {
    if Falsy(x) then 0.0 else x.value
  }

  function Lire(d: map<int, Parsed>, m: int): Parsed {
    if m in d then d[m] else Num(0.0)
  }

  /** afficherStatsMensuelles without the markup: the twelve totals shown. */
  method StatsMensuelles(commandes: seq<Record>) returns (revenus: seq<real>)
    requires ToutesCommandes(commandes)
    ensures |revenus| == 12
    ensures forall m :: 0 <= m < 12 ==> revenus[m] == Affiche(RevenuMois(commandes, m))
  {
    var parMois: map<int, Parsed> := map[];
    var k := 0;
    while k < |commandes|
      invariant 0 <= k <= |commandes|
      invariant forall m :: 0 <= m < 12 ==> Lire(parMois, m) == RevenuMois(commandes[..k], m)
    {
      var c := commandes[k];
      var mois := c.date.MonthIndex();
      if c.date.year == ANNEE {
        if mois !in parMois || Falsy(parMois[mois]) {
          parMois := parMois[mois := Num(0.0)];
        }
        parMois := parMois[mois := Plus(parMois[mois], c.prix)];
      }
      assert commandes[..k + 1][..k] == commandes[..k];
      k := k + 1;
    }
    assert commandes[..k] == commandes;
    revenus := [];
    var i := 0;
    while i < 12
      invariant 0 <= i <= 12 && |revenus| == i
      invariant forall m :: 0 <= m < i ==> revenus[m] == Affiche(Lire(parMois, m))
    {
      revenus := revenus + [Affiche(Lire(parMois, i))];
      i := i + 1;
    }
  }

  /** The price an order adds to a sum, when it is a number. */
  function PrixReel(c: Record): real {
    if c.Commande? && c.prix.Num? then c.prix.value else 0.0
  }

  /** Every order of 2025 has a price that parsed. */
  predicate PrixNumeriques(commandes: seq<Record>) {
    forall i :: 0 <= i < |commandes| ==> DeAnnee(commandes[i]) ==> commandes[i].prix.Num?
  }

  /** The sum of the prices of the orders of 2025 month `m`. */
  function SommeMois(commandes: seq<Record>, m: int): real
    decreases |commandes|
  {
    if commandes == [] then 0.0
    else
      var c := commandes[|commandes| - 1];
      SommeMois(commandes[..|commandes| - 1], m) + (if DansMois(c, m) then PrixReel(c) else 0.0)
  }

  /** The sum of the prices of all orders of 2025. */
  function SommeAnnee(commandes: seq<Record>): real
    decreases |commandes|
  {
    if commandes == [] then 0.0
    else
      var c := commandes[|commandes| - 1];
      SommeAnnee(commandes[..|commandes| - 1]) + (if DeAnnee(c) then PrixReel(c) else 0.0)
  }

  /** The sum of the first `n` monthly sums. */
  function SommeDesMois(commandes: seq<Record>, n: nat): real {
    if n == 0 then 0.0 else SommeDesMois(commandes, n - 1) + SommeMois(commandes, n - 1)
  }

  function SommeSeq(s: seq<real>): real {
    if s == [] then 0.0 else SommeSeq(s[..|s| - 1]) + s[|s| - 1]
  }

  /** With every price of 2025 a number, month `m` holds the plain sum of the
      prices of its orders. */
  lemma {:induction false} RevenuSansNaN(commandes: seq<Record>, m: int)
    requires PrixNumeriques(commandes)
    ensures RevenuMois(commandes, m) == Num(SommeMois(commandes, m))
    decreases |commandes|
  {
    if commandes != [] {
      var avant := commandes[..|commandes| - 1];
      assert PrixNumeriques(avant) by {
        forall i | 0 <= i < |avant| ensures DeAnnee(avant[i]) ==> avant[i].prix.Num? {
          assert avant[i] == commandes[i];
        }
      }
      RevenuSansNaN(avant, m);
    }
  }

  /** A month without orders of 2025 shows 0, whatever the other months hold. */
  lemma {:induction false} MoisVide(commandes: seq<Record>, m: int)
    requires forall i :: 0 <= i < |commandes| ==> !DansMois(commandes[i], m)
    ensures RevenuMois(commandes, m) == Num(0.0)
    ensures Affiche(RevenuMois(commandes, m)) == 0.0
    decreases |commandes|
  {
    if commandes != [] {
      var avant := commandes[..|commandes| - 1];
      assert forall i :: 0 <= i < |avant| ==> avant[i] == commandes[i];
      MoisVide(avant, m);
    }
  }

  /** The last order adds its price to the first `n` months exactly when it
      falls in one of them. */
  lemma {:induction false} SommeDesMoisDernier(commandes: seq<Record>, n: nat)
    requires commandes != []
    ensures var c := commandes[|commandes| - 1];
      SommeDesMois(commandes, n)
      == SommeDesMois(commandes[..|commandes| - 1], n)
         + (if DeAnnee(c) && c.date.MonthIndex() < n then PrixReel(c) else 0.0)
  {
    if n > 0 {
      SommeDesMoisDernier(commandes, n - 1);
    }
  }

  lemma {:induction false} SommeDesMoisVide(n: nat)
    ensures SommeDesMois([], n) == 0.0
  {
    if n > 0 {
      SommeDesMoisVide(n - 1);
    }
  }

  /** The twelve monthly sums add up to the sum over the whole year. */
  lemma {:induction false} Conservation(commandes: seq<Record>)
    ensures SommeDesMois(commandes, 12) == SommeAnnee(commandes)
    decreases |commandes|
  {
    if commandes == [] {
      SommeDesMoisVide(12);
    } else {
      var avant := commandes[..|commandes| - 1];
      var c := commandes[|commandes| - 1];
      SommeDesMoisDernier(commandes, 12);
      Conservation(avant);
      assert SommeAnnee(commandes) == SommeAnnee(avant) + (if DeAnnee(c) then PrixReel(c) else 0.0);
    }
  }

  lemma {:induction false} SommeSeqMois(revenus: seq<real>, commandes: seq<Record>, n: nat)
    requires n <= |revenus|
    requires forall m :: 0 <= m < n ==> revenus[m] == SommeMois(commandes, m)
    ensures SommeSeq(revenus[..n]) == SommeDesMois(commandes, n)
  {
    if n > 0 {
      assert revenus[..n][..n - 1] == revenus[..n - 1];
      SommeSeqMois(revenus, commandes, n - 1);
    }
  }

  /** With every price of 2025 a number, the twelve totals shown add up to
      the total price of the orders of 2025. */
  lemma StatsConservees(commandes: seq<Record>, revenus: seq<real>)
    requires PrixNumeriques(commandes)
    requires |revenus| == 12
    requires forall m :: 0 <= m < 12 ==> revenus[m] == Affiche(RevenuMois(commandes, m))
    ensures SommeSeq(revenus) == SommeAnnee(commandes)
  {
    forall m | 0 <= m < 12 ensures revenus[m] == SommeMois(commandes, m) {
      RevenuSansNaN(commandes, m);
    }
    SommeSeqMois(revenus, commandes, 12);
    assert revenus[..12] == revenus;
    Conservation(commandes);
  }

  /** On the seed orders: January 45 + 28.5, February 52, nothing else. */
  lemma StatsExemple()
    ensures RevenuMois(Domain.COMMANDES_INIT, 0) == Num(73.5)
    ensures RevenuMois(Domain.COMMANDES_INIT, 1) == Num(52.0)
    ensures forall m :: 2 <= m < 12 ==> Affiche(RevenuMois(Domain.COMMANDES_INIT, m)) == 0.0
  {
    var cs := Domain.COMMANDES_INIT;
    assert cs[..3] == cs && cs[..2][..1] == cs[..1] && cs[..1][..0] == [];
    assert DansMois(cs[0], 0) && DansMois(cs[1], 0) && DansMois(cs[2], 1);
    assert RevenuMois(cs[..1], 0) == Num(45.0);
    assert RevenuMois(cs[..2], 0) == Num(73.5);
    assert RevenuMois(cs[..1], 1) == Num(0.0);
    assert RevenuMois(cs[..2], 1) == Num(0.0);
    forall m | 2 <= m < 12 ensures Affiche(RevenuMois(cs, m)) == 0.0 {
      MoisVide(cs, m);
    }
  }

  /** The falsy reset: a NaN price poisons a month's total only until the
      next order of that month, which starts it again from 0; a NaN total
      is shown as 0. */
  lemma RemiseAZero(a: Record, b: Record, m: int)
    requires DansMois(a, m) && DansMois(b, m)
    requires a.prix.NaN? && b.prix.Num? && b.prix.value != 0.0
    ensures RevenuMois([a, b], m) == b.prix
    ensures RevenuMois([b, a], m) == NaN
    ensures Affiche(RevenuMois([b, a], m)) == 0.0
  {
    assert [a, b][..1] == [a];
    assert [b, a][..1] == [b];
    assert [a][..0] == [] && [b][..0] == [];
  }
}
