/** The records the bakery app keeps in its three collections, and the small
    pieces of JavaScript value semantics the rest of the model relies on. */
module Records {

  datatype Option<T> = None | Some(value: T)

  /** A number as `parseFloat` leaves it: a value, or NaN. */
  datatype Parsed = Num(value: real) | NaN

  /** An integer as `parseInt` leaves it: a value, or NaN. */
  datatype ParsedInt = Int(value: int) | IntNaN

  /** JavaScript truthiness of a number: 0 and NaN are falsy. */
  predicate Falsy(x: Parsed) {
    x.NaN? || x.value == 0.0
  }

  /** `a + b` on JavaScript numbers, with NaN absorbing. */
  function Plus(a: Parsed, b: Parsed): Parsed {
    if a.NaN? || b.NaN? then NaN else Num(a.value + b.value)
  }

  /** `a * b` on JavaScript numbers, with NaN absorbing. */
  function Times(a: Parsed, b: Parsed): Parsed {
    if a.NaN? || b.NaN? then NaN else Num(a.value * b.value)
  }

  /** `a / d` for a non-zero constant divisor. */
  function Over(a: Parsed, d: real): Parsed
    requires d != 0.0
  {
    if a.NaN? then NaN else Num(a.value / d)
  }

  /** A month as written in a "YYYY-MM-DD" date. */
  type Month = m: int | 1 <= m <= 12 witness 1

  /** A calendar date as parsed from its "YYYY-MM-DD" text. */
  datatype Date = Date(year: int, month: Month, day: int) {
    /** JavaScript's `getMonth()`: the month counted from 0. */
    function MonthIndex(): (i: int)
      ensures 0 <= i < 12 && i + 1 == month
    {
      month - 1
    }
  }

  /** `a` is strictly earlier than `b`. */
  predicate Before(a: Date, b: Date) {
    a.year < b.year
    || (a.year == b.year && (a.month < b.month || (a.month == b.month && a.day < b.day)))
  }

  /** A stored record. Every constructor carries the store key `id`; a
      product without the `isOeuf` property is one with `isOeuf == false`. */
  datatype Record =
    | Produit(id: int, produit: string, magasin: string, prix: Parsed, isOeuf: bool)
    | Magasin(id: int, nom: string)
    | Commande(id: int, date: Date, description: string, inscription: string,
               parts: ParsedInt, nom: string, prenom: string, telephone: string,
               prix: Parsed, paiement: string, acompte: Parsed, remarque: string)

  /** The names of the three object stores. */
  datatype StoreName = Produits | Magasins | Commandes

  function KindOf(r: Record): StoreName {
    match r
    case Produit(_, _, _, _, _) => Produits
    case Magasin(_, _) => Magasins
    case Commande(_, _, _, _, _, _, _, _, _, _, _, _) => Commandes
  }

  /** A JavaScript property value of a stored record. */
  datatype JsValue = JsNumber(n: Parsed) | JsString(s: string) | JsBool(b: bool) | JsDate(d: Date)

  function IntNumber(p: ParsedInt): Parsed {
    if p.IntNaN? then NaN else Num(p.value as real)
  }

  /** Property lookup `r[key]` on a stored record: `None` is `undefined`,
      the value of a property the record does not carry. */
  function Champ(r: Record, key: string): Option<JsValue> {
    match r
    case Produit(id, produit, magasin, prix, isOeuf) =>
      if key == "id" then Some(JsNumber(Num(id as real)))
      else if key == "produit" then Some(JsString(produit))
      else if key == "magasin" then Some(JsString(magasin))
      else if key == "prix" then Some(JsNumber(prix))
      else if key == "isOeuf" && isOeuf then Some(JsBool(true))
      else None
    case Magasin(id, nom) =>
      if key == "id" then Some(JsNumber(Num(id as real)))
      else if key == "nom" then Some(JsString(nom))
      else None
    case Commande(id, date, description, inscription, parts, nom, prenom, telephone,
                  prix, paiement, acompte, remarque) =>
      if key == "id" then Some(JsNumber(Num(id as real)))
      else if key == "date" then Some(JsDate(date))
      else if key == "description" then Some(JsString(description))
      else if key == "inscription" then Some(JsString(inscription))
      else if key == "parts" then Some(JsNumber(IntNumber(parts)))
      else if key == "nom" then Some(JsString(nom))
      else if key == "prenom" then Some(JsString(prenom))
      else if key == "telephone" then Some(JsString(telephone))
      else if key == "prix" then Some(JsNumber(prix))
      else if key == "paiement" then Some(JsString(paiement))
      else if key == "acompte" then Some(JsNumber(acompte))
      else if key == "remarque" then Some(JsString(remarque))
      else None
  }

  /** `{...r, id: k}`: the record as stored under the key `k`. */
  function WithId(r: Record, k: int): (s: Record)
    ensures s.id == k && KindOf(s) == KindOf(r)
  {
    r.(id := k)
  }

  /** Only the key changes when a record is stored under a key (`{...data, id}`). */
  lemma ChampWithId(r: Record, k: int, key: string)
    requires key != "id"
    ensures Champ(WithId(r, k), key) == Champ(r, key)
  {
  }
}
