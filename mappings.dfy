/**
 * The static lookup tables of the station search and the functions over them:
 * fuel product names to the upstream API's product ids, company ids to company
 * names, the brands that run a convenience store, and the store description
 * derived from a brand.
 */
module Mappings {
  import opened Wrappers

  /** PRODUCT_MAPPING, in declaration order (a Python dict keeps insertion order). */
  const ProductTable: seq<(string, int)> :=
    [("93", 1), ("95", 7), ("97", 2), ("diesel", 3), ("kerosene", 4)]

  /** COMPANY_MAPPING: upstream company ("marca") id to company name; `None` for an id it lacks. */
  function CompanyMapping(companyId: int): Option<string> {
    match companyId
    case 5 => Some("COPEC")
    case 4 => Some("SHELL")
    case 3 => Some("TERPEL")
    case 2 => Some("PETROBRAS")
    case 88 => Some("ENEX")
    case 23 => Some("ABASTIBLE")
    case 24 => Some("LIPIGAS")
    case 151 => Some("ARAMCO")
    case 10 => Some("Sin Bandera")
    case 118 => Some("SIN BANDERA")
    case 122 => Some("GO!")
    case 25 => Some("HN")
    case 15 => Some("SESA")
    case 89 => Some("ESTACION DE SERVICIO SANTA MARIA SPA")
    case 27 => Some("APEX")
    case 28 => Some("AUTOGASCO")
    case 33 => Some("ATT")
    case 36 => Some("COMERCIAL MAQUI")
    case 37 => Some("SURENERGY")
    case 39 => Some("PETROJAC")
    case 40 => Some("SOCORRO")
    case 42 => Some("SERVICENTRO LEAL")
    case 45 => Some("SERVICENTROS RABALME")
    case 46 => Some("SERVICENTRO SAN MIGUEL")
    case 47 => Some("Rafael Letelier Yañez y Cia Ltda")
    case 48 => Some("Combustibles Ortiz")
    case 51 => Some("Coopeserau")
    case 52 => Some("Combustible Alhue")
    case 53 => Some("ECCO")
    case 54 => Some("FACAZ")
    case 57 => Some("DELPA")
    case 58 => Some("BALTOLU")
    case 59 => Some("CUSTOM SERVICE")
    case 64 => Some("APM")
    case 65 => Some("Combustibles J.L.T.")
    case 66 => Some("Punto Sur")
    case 67 => Some("Mimbral")
    case 69 => Some("CNC COMBUSTIBLES")
    case 71 => Some("JVL COMBUSTIBLES")
    case 72 => Some("PETROCAMP")
    case 73 => Some("REDSUR")
    case 75 => Some("BULL ENERGY")
    case 76 => Some("Del Solar")
    case 77 => Some("NavCar Combustibles")
    case 78 => Some("Aire")
    case 80 => Some("Del Sol Combustibles")
    case 85 => Some("Doña Lucina")
    case 90 => Some("GASOLINERA MONTE AGUILA")
    case 91 => Some("Speedway")
    case 92 => Some("NEWEN")
    case 93 => Some("PETROGAL")
    case 94 => Some("FARCOM")
    case 96 => Some("Transpetrol")
    case 97 => Some("Servicentro Itata")
    case 99 => Some("CKR")
    case 100 => Some("Combustibles JSP")
    case 101 => Some("Adquim")
    case 102 => Some("Combustibles Josefita Spa")
    case 106 => Some("SOLOGAR")
    case 107 => Some("Ruta V45")
    case 110 => Some("Dale Combustibles")
    case 113 => Some("AGUESAN")
    case 116 => Some("COMBUSTIBLES ANLOA")
    case 117 => Some("ECOIL")
    case 119 => Some("OIL BOX")
    case 120 => Some("VIGU Ltda.")
    case 121 => Some("Combustibles Nancagua SPA")
    case 123 => Some("MODENA")
    case 125 => Some("PETROSI")
    case 128 => Some("GSP Combustibles")
    case 129 => Some("COMERCIAL Y SERVICIOS MS")
    case 130 => Some("MAMG COMBUSTIBLES")
    case 131 => Some("GULF")
    case 132 => Some("OASIS")
    case 136 => Some("SERVITRUCK")
    case 137 => Some("SIVORI COMBUSTIBLES")
    case 138 => Some("ORANGE COMBUSTIBLES")
    case 139 => Some("ALANDRA DIESEL")
    case 141 => Some("Combustibles JRB")
    case 144 => Some("Energy")
    case 145 => Some("Petrowork")
    case 146 => Some("COOPEUMO COMBUSTIBLES")
    case 147 => Some("Servisur")
    case 148 => Some("Petrosur")
    case 149 => Some("Pegasur")
    case 150 => Some("G.O.A.T")
    case 152 => Some("Combustibles Santa María")
    case 153 => Some("Groff")
    case 154 => Some("Combustibles Sandoval")
    case 155 => Some("FullEnergy")
    case 156 => Some("BESPA")
    case 157 => Some("Hola")
    case 158 => Some("OKEY")
    case 159 => Some("ESA")
    case 160 => Some("JM-DIESEL")
    case 161 => Some("Petrovic")
    case 162 => Some("CES")
    case 163 => Some("El Molino")
    case 164 => Some("AMCO")
    case 165 => Some("Gasolinera Makal")
    case 166 => Some("Combustibles San Roque")
    case 167 => Some("Infigas")
    case 168 => Some("Lepe y Alamo")
    case 169 => Some("Andes Combustibles")
    case 170 => Some("WR FENIX")
    case 171 => Some("Petrofull")
    case 172 => Some("Go Abastible")
    case 173 => Some("Combustibles B y C")
    case _ => None
  }

  /** The table's ids run from 2 to 173; every id outside that range is unknown. */
  lemma CompanyIdsInRange(companyId: int)
    ensures CompanyMapping(companyId).Some? ==> 2 <= companyId <= 173
  {
  }

  /** BRANDS_WITH_STORES: COPEC, SHELL, TERPEL, ENEX, PETROBRAS, ARAMCO. */
  const BrandsWithStores: seq<int> := [5, 4, 3, 88, 2, 151]

  /** The store description attached to a station. */
  datatype StoreInfo = StoreInfo(codigo: string, nombre: string, tipo: string)

  // ---------------------------------------------------------------------------
  // Case folding

  /**
   * Python's `str.lower` on one character, as far as it can matter for a
   * product lookup: ASCII upper-case letters, and KELVIN SIGN (U+212A), the one
   * character outside ASCII whose lower-case form is a single ASCII letter.
   */
  function LowerChar(c: char): (d: char)
    ensures !('A' <= d <= 'Z') && d != '\U{212A}'
    ensures 'a' <= c <= 'z' || !('A' <= c <= 'Z' || c == '\U{212A}') ==> d == c
    ensures ('A' <= c <= 'Z' ==> 'a' <= d <= 'z') && (c == '\U{212A}' ==> d == 'k')
    ensures 'A' <= c <= 'Z' ==> d as int - 'a' as int == c as int - 'A' as int
  {
    if 'A' <= c <= 'Z' then (c as int + 32) as char
    else if c == '\U{212A}' then 'k'
    else c
  }

  /** `s.lower()`, character by character. */
  function ToLower(s: string): (r: string)
    ensures |r| == |s|
    ensures forall i :: 0 <= i < |s| ==> r[i] == LowerChar(s[i])
  {
    seq(|s|, i requires 0 <= i < |s| => LowerChar(s[i]))
  }

  /** Lower-casing twice is lower-casing once. */
  lemma ToLowerIdempotent(s: string)
    ensures ToLower(ToLower(s)) == ToLower(s)
  {
  }

  // ---------------------------------------------------------------------------
  // Products

  /** `dict.get(key)` on an association list: the value of the first entry with that key. */
  function Lookup(table: seq<(string, int)>, key: string): (r: Option<int>)
    ensures r.None? <==> forall i :: 0 <= i < |table| ==> table[i].0 != key
    ensures r.Some? ==> exists i :: 0 <= i < |table| && table[i] == (key, r.value)
  {
    if table == [] then None
    else if table[0].0 == key then Some(table[0].1)
    else
      var r := Lookup(table[1..], key);
      assert r.Some? ==> table[1..][0] in table;
      r
  }

  /** get_valid_products: the product names in table order. */
  function GetValidProducts(): (r: seq<string>)
    ensures |r| == |ProductTable|
    ensures forall i :: 0 <= i < |r| ==> r[i] == ProductTable[i].0
  {
    seq(|ProductTable|, i requires 0 <= i < |ProductTable| => ProductTable[i].0)
  }

  /**
   * get_product_id: the product id of a product name, ignoring case; a missing
   * (`None`) or empty name is looked up as "" and so has no id.
   */
  function GetProductId(product: Option<string>): (r: Option<int>)
    ensures r.Some? <==> ToLower(product.GetOr("")) in GetValidProducts()
    ensures r.Some? ==> (ToLower(product.GetOr("")), r.value) in ProductTable
  {
    var key := if product.Some? && product.value != "" then ToLower(product.value) else "";
    Lookup(ProductTable, key)
  }

  /** validate_product: the lower-cased name is a key of the product table; `None` and "" are not. */
  function ValidateProduct(product: Option<string>): (r: bool)
    ensures r <==> GetProductId(product).Some?
    ensures r ==> product.Some? && product.value != ""
  {
    if product.Some? && product.value != "" then ToLower(product.value) in GetValidProducts() else false
  }

  /** A name that lower-casing leaves unchanged. */
  predicate IsLower(s: string)
  {
    forall i :: 0 <= i < |s| ==> LowerChar(s[i]) == s[i]
  }

  lemma LowerOfLower(s: string)
    requires IsLower(s)
    ensures ToLower(s) == s
  {
  }

  /** No two entries of an association list share a key. */
  predicate DistinctKeys(table: seq<(string, int)>)
  {
    forall i, j :: 0 <= i < j < |table| ==> table[i].0 != table[j].0
  }

  /** With distinct keys, looking up an entry's key gives that entry's value. */
  lemma {:induction false} LookupDistinct(table: seq<(string, int)>, i: nat)
    requires DistinctKeys(table) && i < |table|
    ensures Lookup(table, table[i].0) == Some(table[i].1)
  {
    if i > 0 {
      assert table[0].0 != table[i].0;
      LookupDistinct(table[1..], i - 1);
    }
  }

  /** PRODUCT_MAPPING has distinct, already lower-case keys. */
  lemma ProductTableWellFormed()
    ensures DistinctKeys(ProductTable)
    ensures forall i :: 0 <= i < |ProductTable| ==> IsLower(ProductTable[i].0)
  {
  }

  /** Every listed product name maps to its own id. */
  lemma ListedProductId(i: nat)
    requires i < |ProductTable|
    ensures GetProductId(Some(ProductTable[i].0)) == Some(ProductTable[i].1)
  {
    ProductTableWellFormed();
    LowerOfLower(ProductTable[i].0);
    LookupDistinct(ProductTable, i);
  }

  /** The exact ids of the five products. */
  lemma ProductIds()
    ensures GetProductId(Some("93")) == Some(1)
    ensures GetProductId(Some("95")) == Some(7)
    ensures GetProductId(Some("97")) == Some(2)
    ensures GetProductId(Some("diesel")) == Some(3)
    ensures GetProductId(Some("kerosene")) == Some(4)
  {
    ListedProductId(0);
    ListedProductId(1);
    ListedProductId(2);
    ListedProductId(3);
    ListedProductId(4);
  }

  /** The lookup ignores case: a name and its lower-cased form have the same id. */
  lemma ProductIdIgnoresCase(s: string)
    ensures GetProductId(Some(s)) == GetProductId(Some(ToLower(s)))
  {
    ToLowerIdempotent(s);
  }

  lemma LowerCaseOfCapitals()
    ensures ToLower("DIESEL") == "diesel" && ToLower("KeroSene") == "kerosene"
  {
    assert ToLower("DIESEL") == "diesel";
  }

  /** Letter case does not matter. */
  lemma ProductIdsInCapitals()
    ensures GetProductId(Some("DIESEL")) == Some(3)
    ensures GetProductId(Some("KeroSene")) == Some(4)
  {
    LowerCaseOfCapitals();
    ListedProductId(3);
    ProductIdIgnoresCase("DIESEL");
    ListedProductId(4);
    ProductIdIgnoresCase("KeroSene");
  }

  /** Other names, "" and `None` have no id. */
  lemma ProductIdsOtherNames()
    ensures GetProductId(Some("invalido")) == None
    ensures GetProductId(Some("")) == None && GetProductId(None) == None
  {
    assert ToLower("invalido") == "invalido";
  }

  /** Every listed product is valid, and a name is valid exactly when its lower-cased form is listed. */
  lemma ValidProductsAreTheValidNames(s: string)
    ensures forall p :: p in GetValidProducts() ==> ValidateProduct(Some(p))
    ensures ValidateProduct(Some(s)) <==> ToLower(s) in GetValidProducts()
  {
    forall p | p in GetValidProducts()
      ensures ValidateProduct(Some(p))
    {
      var i :| 0 <= i < |GetValidProducts()| && GetValidProducts()[i] == p;
      ListedProductId(i);
    }
    if s == "" {
      assert "" !in GetValidProducts();
    }
  }

  // ---------------------------------------------------------------------------
  // Decimal rendering of company ids (the `f"{company_id}"` in the fallback name)

  predicate IsDigit(c: char) { '0' <= c <= '9' }

  predicate IsDecimal(s: string) { |s| >= 1 && forall i :: 0 <= i < |s| ==> IsDigit(s[i]) }

  function DigitChar(d: int): (c: char)
    requires 0 <= d < 10
    ensures IsDigit(c) && c as int - '0' as int == d
  {
    ('0' as int + d) as char
  }

  /** The decimal digits of `n`, most significant first, without leading zeros. */
  function NatToDecimal(n: nat): (s: string)
    ensures IsCanonicalDecimal(s)
    ensures s[0] == '0' <==> n == 0
  {
    if n < 10 then [DigitChar(n)] else NatToDecimal(n / 10) + [DigitChar(n % 10)]
  }

  /** The number a string of decimal digits denotes. */
  function DecimalValue(s: string): nat
    requires forall i :: 0 <= i < |s| ==> IsDigit(s[i])
  {
    if s == [] then 0
    else
      assert IsDigit(s[|s| - 1]);
      10 * DecimalValue(s[..|s| - 1]) + (s[|s| - 1] as int - '0' as int)
  }

  lemma {:induction false} DecimalRoundTrip(n: nat)
    ensures DecimalValue(NatToDecimal(n)) == n
  {
    if n >= 10 {
      var s := NatToDecimal(n);
      assert s[..|s| - 1] == NatToDecimal(n / 10);
      DecimalRoundTrip(n / 10);
    }
  }

  /** A decimal numeral with no leading zero: "0", or digits starting with 1 to 9. */
  predicate IsCanonicalDecimal(s: string) { IsDecimal(s) && (s[0] == '0' ==> |s| == 1) }

  /** The text `str` writes for an integer: a numeral, or a minus sign and a numeral other than "0". */
  predicate IsIntText(s: string) {
    IsCanonicalDecimal(s) || (|s| >= 2 && s[0] == '-' && IsCanonicalDecimal(s[1..]) && s[1..] != "0")
  }

  /** A numeral with a leading digit other than 0 denotes a positive number. */
  lemma {:induction false} LeadingDigitPositive(s: string)
    requires IsDecimal(s) && s[0] != '0'
    ensures DecimalValue(s) >= 1
  {
    if |s| > 1 {
      LeadingDigitPositive(s[..|s| - 1]);
    }
  }

  /** Every canonical numeral is the one NatToDecimal writes for its value. */
  lemma {:induction false} CanonicalDecimalRoundTrip(s: string)
    requires IsCanonicalDecimal(s)
    ensures NatToDecimal(DecimalValue(s)) == s
  {
    if |s| > 1 {
      var p := s[..|s| - 1];
      var d := s[|s| - 1] as int - '0' as int;
      assert s == p + [s[|s| - 1]];
      LeadingDigitPositive(p);
      CanonicalDecimalRoundTrip(p);
      var v := DecimalValue(s);
      assert v == 10 * DecimalValue(p) + d;
      assert v / 10 == DecimalValue(p) && v % 10 == d;
      assert DigitChar(d) == s[|s| - 1];
    }
  }

  /** Python's `str` of an integer: an optional minus sign, then the decimal digits. */
  function IntToDecimal(n: int): (s: string)
    ensures IsIntText(s)
    ensures n < 0 ==> s[0] == '-' && IsDecimal(s[1..]) && DecimalValue(s[1..]) == -n
    ensures n >= 0 ==> IsDecimal(s) && DecimalValue(s) == n
  {
    if n < 0 then
      DecimalRoundTrip(-n);
      var s := "-" + NatToDecimal(-n);
      assert s[1..] == NatToDecimal(-n);
      s
    else
      DecimalRoundTrip(n);
      NatToDecimal(n)
  }


  /** Reads back what IntToDecimal writes. */
  function SignedDecimalValue(s: string): Option<int> {
    if IsDecimal(s) then Some(DecimalValue(s))
    else if |s| >= 2 && s[0] == '-' && IsDecimal(s[1..]) then Some(0 - DecimalValue(s[1..]) as int)
    else None
  }

  /** `str` text is determined by its value: reading it back and writing it again gives it back. */
  lemma IntTextRoundTrip(s: string)
    requires IsIntText(s)
    ensures SignedDecimalValue(s).Some? && IntToDecimal(SignedDecimalValue(s).value) == s
  {
    if IsCanonicalDecimal(s) {
      CanonicalDecimalRoundTrip(s);
    } else {
      var t := s[1..];
      CanonicalDecimalRoundTrip(t);
      LeadingDigitPositive(t);
      assert s == "-" + t;
    }
  }

  // ---------------------------------------------------------------------------
  // Companies and stores

  const FallbackPrefix: string := "Compañía "

  /**
   * get_company_name: the table's name for a known id; otherwise "Compañía "
   * followed by the id in decimal, from which the id can be read back.
   */
  function GetCompanyName(companyId: int): (r: string)
    ensures CompanyMapping(companyId).Some? ==> r == CompanyMapping(companyId).value
    ensures CompanyMapping(companyId).None? ==>
      |r| > |FallbackPrefix| && r[..|FallbackPrefix|] == FallbackPrefix &&
      IsIntText(r[|FallbackPrefix|..]) && SignedDecimalValue(r[|FallbackPrefix|..]) == Some(companyId)
  {
    match CompanyMapping(companyId)
    case Some(name) => name
    case None =>
      var r := FallbackPrefix + IntToDecimal(companyId);
      assert r[|FallbackPrefix|..] == IntToDecimal(companyId);
      r
  }

  lemma CompanyNameExamples()
    ensures GetCompanyName(5) == "COPEC"
    ensures GetCompanyName(4) == "SHELL"
    ensures GetCompanyName(3) == "TERPEL"
  {
  }

  /** An unknown id, and the id 0 a station without `marca` gets, fall back to "Compañía " and the id. */
  lemma FallbackNameExamples()
    ensures GetCompanyName(999) == "Compañía 999"
    ensures GetCompanyName(0) == "Compañía 0"
  {
    CompanyIdsInRange(0);
    CompanyIdsInRange(999);
    assert NatToDecimal(0) == "0";
    assert NatToDecimal(9) == "9";
    assert NatToDecimal(99) == "99";
    assert NatToDecimal(999) == "999";
  }

  /** has_convenience_store: the brand is one of BRANDS_WITH_STORES, all of them known companies. */
  function HasConvenienceStore(companyId: int): (r: bool)
    ensures r ==> CompanyMapping(companyId).Some?
  {
    companyId in BrandsWithStores
  }

  const StoreBrandNames: set<string> := {"COPEC", "SHELL", "TERPEL", "ENEX", "PETROBRAS", "ARAMCO"}

  /** The store brands are exactly the companies the table names COPEC, SHELL, TERPEL, ENEX, PETROBRAS and ARAMCO. */
  lemma StoreBrandsByName(companyId: int)
    ensures HasConvenienceStore(companyId) <==>
      CompanyMapping(companyId).Some? && CompanyMapping(companyId).value in StoreBrandNames
  {
  }

  /** `sub` occurs in `s` starting at index `i`. */
  predicate OccursAt(s: string, sub: string, i: nat) {
    i + |sub| <= |s| && s[i..i + |sub|] == sub
  }

  /** Python's `sub in s` for strings. */
  function Contains(s: string, sub: string): (r: bool)
    ensures r ==> |sub| <= |s|
    ensures sub == [] ==> r
    ensures sub == s ==> r
  {
    assert OccursAt(s, [], 0);
    assert OccursAt(s, s, 0);
    exists i: nat | i <= |s| :: OccursAt(s, sub, i)
  }

  /** A string cannot contain a word that has a character the string lacks. */
  lemma MissingCharNotContained(s: string, sub: string, c: char)
    requires c in sub && c !in s
    ensures !Contains(s, sub)
  {
    forall i: nat | i + |sub| <= |s|
      ensures !OccursAt(s, sub, i)
    {
      assert forall x :: x in s[i..i + |sub|] ==> x in s;
    }
  }

  /**
   * get_store_info: no store unless the brand has one; otherwise a store whose
   * code is the station id, typed by the first matching brand (by id, or by the
   * brand name occurring in the company name), with a local fallback.
   * (`company_name and "X" in company_name` is the same as `"X" in company_name`:
   * no brand name occurs in "".)
   */
  function GetStoreInfo(companyId: int, companyName: string, comuna: string, stationId: string): (r: Option<StoreInfo>)
    ensures r.None? <==> !HasConvenienceStore(companyId)
    ensures r.Some? ==> r.value.codigo == stationId
    ensures r.Some? && r.value.tipo != "Tienda Local" ==> r.value.nombre == r.value.tipo + " " + comuna
    ensures r.Some? && r.value.tipo == "Tienda Local" ==> r.value.nombre == "Tienda " + comuna
  {
    if !HasConvenienceStore(companyId) then None
    else if companyId == 5 || Contains(companyName, "COPEC") then
      Some(StoreInfo(stationId, "Pronto " + comuna, "Pronto"))
    else if companyId == 4 || Contains(companyName, "SHELL") then
      Some(StoreInfo(stationId, "Select " + comuna, "Select"))
    else if companyId == 3 || Contains(companyName, "TERPEL") then
      Some(StoreInfo(stationId, "Tienda Terpel " + comuna, "Tienda Terpel"))
    else if companyId == 88 || Contains(companyName, "ENEX") then
      Some(StoreInfo(stationId, "Tienda ENEX " + comuna, "Tienda ENEX"))
    else if companyId == 2 || Contains(companyName, "PETROBRAS") then
      Some(StoreInfo(stationId, "Tienda Petrobras " + comuna, "Tienda Petrobras"))
    else if Contains(companyName, "ARAMCO") then
      Some(StoreInfo(stationId, "Select " + comuna, "Select"))
    else
      Some(StoreInfo(stationId, "Tienda " + comuna, "Tienda Local"))
  }

  /** The store-brand test of one branch of get_store_info: the id, or the brand in the name. */
  predicate BrandMatches(companyId: int, companyName: string, brandId: int, brand: string) {
    companyId == brandId || Contains(companyName, brand)
  }

  /**
   * Branch priority: for a store brand, the first branch whose test holds, in
   * the order COPEC, SHELL, TERPEL, ENEX, PETROBRAS, ARAMCO (by name only),
   * decides the store type; when none holds the store is the local fallback.
   */
  lemma StoreTypePriority(companyId: int, companyName: string, comuna: string, stationId: string)
    requires HasConvenienceStore(companyId)
    ensures var tipo := GetStoreInfo(companyId, companyName, comuna, stationId).value.tipo;
      var copec := BrandMatches(companyId, companyName, 5, "COPEC");
      var shell := BrandMatches(companyId, companyName, 4, "SHELL");
      var terpel := BrandMatches(companyId, companyName, 3, "TERPEL");
      var enex := BrandMatches(companyId, companyName, 88, "ENEX");
      var petrobras := BrandMatches(companyId, companyName, 2, "PETROBRAS");
      var aramco := Contains(companyName, "ARAMCO");
      (copec ==> tipo == "Pronto") &&
      (!copec && shell ==> tipo == "Select") &&
      (!copec && !shell && terpel ==> tipo == "Tienda Terpel") &&
      (!copec && !shell && !terpel && enex ==> tipo == "Tienda ENEX") &&
      (!copec && !shell && !terpel && !enex && petrobras ==> tipo == "Tienda Petrobras") &&
      (!copec && !shell && !terpel && !enex && !petrobras && aramco ==> tipo == "Select") &&
      (!copec && !shell && !terpel && !enex && !petrobras && !aramco ==> tipo == "Tienda Local")
  {
  }

  /**
   * With the company name taken from the table (as the station processing
   * does), COPEC, SHELL and TERPEL get their own store types ...
   */
  lemma StoreTypeOfLeadingBrands(comuna: string, stationId: string)
    ensures GetStoreInfo(5, GetCompanyName(5), comuna, stationId).value.tipo == "Pronto"
    ensures GetStoreInfo(4, GetCompanyName(4), comuna, stationId).value.tipo == "Select"
    ensures GetStoreInfo(3, GetCompanyName(3), comuna, stationId).value.tipo == "Tienda Terpel"
  {
    MissingCharNotContained("TERPEL", "COPEC", 'C');
    MissingCharNotContained("TERPEL", "SHELL", 'S');
  }

  /** ... and so does ENEX ... */
  lemma StoreTypeOfEnex(comuna: string, stationId: string)
    ensures GetStoreInfo(88, GetCompanyName(88), comuna, stationId).value.tipo == "Tienda ENEX"
  {
    MissingCharNotContained("ENEX", "COPEC", 'C');
    MissingCharNotContained("ENEX", "SHELL", 'S');
    MissingCharNotContained("ENEX", "TERPEL", 'T');
  }

  /** ... and PETROBRAS ... */
  lemma StoreTypeOfPetrobras(comuna: string, stationId: string)
    ensures GetStoreInfo(2, GetCompanyName(2), comuna, stationId).value.tipo == "Tienda Petrobras"
  {
    MissingCharNotContained("PETROBRAS", "COPEC", 'C');
    MissingCharNotContained("PETROBRAS", "SHELL", 'H');
    MissingCharNotContained("PETROBRAS", "TERPEL", 'L');
    MissingCharNotContained("PETROBRAS", "ENEX", 'N');
  }

  /** ... while ARAMCO, matched by name only, gets "Select". */
  lemma StoreTypeOfAramco(comuna: string, stationId: string)
    ensures GetStoreInfo(151, GetCompanyName(151), comuna, stationId).value.tipo == "Select"
  {
    MissingCharNotContained("ARAMCO", "COPEC", 'P');
    MissingCharNotContained("ARAMCO", "SHELL", 'S');
    MissingCharNotContained("ARAMCO", "TERPEL", 'T');
    MissingCharNotContained("ARAMCO", "ENEX", 'E');
    MissingCharNotContained("ARAMCO", "PETROBRAS", 'P');
    assert OccursAt("ARAMCO", "ARAMCO", 0);
  }

  /** So the local fallback store is never produced for a table-named brand. */
  lemma NoLocalStoreForKnownBrands(companyId: int, comuna: string, stationId: string)
    requires HasConvenienceStore(companyId)
    ensures GetStoreInfo(companyId, GetCompanyName(companyId), comuna, stationId).value.tipo != "Tienda Local"
  {
    StoreTypeOfLeadingBrands(comuna, stationId);
    StoreTypeOfEnex(comuna, stationId);
    StoreTypeOfPetrobras(comuna, stationId);
    StoreTypeOfAramco(comuna, stationId);
  }
}
