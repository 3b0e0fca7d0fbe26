/** The catalog's product filters: id-list filters on the company,
    distribution and formula foreign keys, the expiry-bucket filter and the
    low-quantity filter. A queryset is a sequence of products; every filter
    returns the products it keeps, in their original order, or the error the
    filter raises. `today` is a day number supplied by the caller. */
module ProductFilters {
  import opened Wrappers
  import opened Models

  datatype FilterError = NonNumericIds | InvalidExpiration | InvalidLowQty

  // ---------------------------------------------------------------------
  // Keeping the products a predicate accepts
  // ---------------------------------------------------------------------

  /** The products `keep` accepts, in order: the queryset `filter` call. */
  function Select(products: seq<Product>, keep: Product -> bool): (r: seq<Product>)
    ensures |r| <= |products|
    ensures forall p :: p in r <==> p in products && keep(p)
    ensures multiset(r) <= multiset(products)
  {
    if products == [] then []
    else
      assert products == [products[0]] + products[1..];
      (if keep(products[0]) then [products[0]] else []) + Select(products[1..], keep)
  }

  // ---------------------------------------------------------------------
  // Comma-separated id lists
  // ---------------------------------------------------------------------

  /** Python's `s.split(sep)`: the pieces between separators, so there is
      always at least one piece, and an empty one wherever two separators
      meet or one stands at either end. */
  function Split(s: string, sep: char): (r: seq<string>)
    ensures |r| >= 1
    ensures forall i :: 0 <= i < |r| ==> sep !in r[i]
  {
    if s == [] then [""]
    else
      var rest := Split(s[1..], sep);
      if s[0] == sep then [""] + rest
      else [[s[0]] + rest[0]] + rest[1..]
  }

  /** `sep.join(parts)`. */
  function Join(parts: seq<string>, sep: char): string
    requires |parts| >= 1
  {
    if |parts| == 1 then parts[0] else parts[0] + [sep] + Join(parts[1..], sep)
  }

  /** Joining the pieces gives the string back. */
  lemma {:induction false} JoinSplit(s: string, sep: char)
    ensures Join(Split(s, sep), sep) == s
  {
    if s != [] {
      var rest := Split(s[1..], sep);
      JoinSplit(s[1..], sep);
      if s[0] == sep {
        assert ([""] + rest)[1..] == rest;
      } else if |rest| > 1 {
        var pieces := [[s[0]] + rest[0]] + rest[1..];
        assert pieces[1..] == rest[1..];
        assert s == [s[0]] + s[1..];
      }
    }
  }

  /** Splitting a piece followed by a separator peels that piece off. */
  lemma {:induction false} SplitAfterPiece(a: string, sep: char, b: string)
    requires sep !in a
    ensures Split(a + [sep] + b, sep) == [a] + Split(b, sep)
  {
    if a == [] {
      assert [] + [sep] + b == [sep] + b;
      assert ([sep] + b)[1..] == b;
    } else {
      SplitAfterPiece(a[1..], sep, b);
      assert (a + [sep] + b)[1..] == a[1..] + [sep] + b;
      assert [a[0]] + a[1..] == a;
    }
  }

  /** A string without the separator splits into itself. */
  lemma {:induction false} SplitPiece(a: string, sep: char)
    requires sep !in a
    ensures Split(a, sep) == [a]
  {
    if a != [] {
      SplitPiece(a[1..], sep);
      assert [a[0]] + a[1..] == a;
    }
  }

  /** Splitting a join of separator-free pieces gives the pieces back. */
  lemma {:induction false} SplitJoin(parts: seq<string>, sep: char)
    requires |parts| >= 1
    requires forall i :: 0 <= i < |parts| ==> sep !in parts[i]
    ensures Split(Join(parts, sep), sep) == parts
  {
    if |parts| == 1 {
      SplitPiece(parts[0], sep);
    } else {
      SplitJoin(parts[1..], sep);
      SplitAfterPiece(parts[0], sep, Join(parts[1..], sep));
      assert [parts[0]] + parts[1..] == parts;
    }
  }

  predicate IsDigit(c: char) {
    '0' <= c <= '9'
  }

  /** `str.isdigit` on ASCII: at least one character, and only digits. */
  predicate IsDigitString(p: string)
    ensures IsDigitString(p) ==> p != "" && ',' !in p
  {
    |p| > 0 && forall i :: 0 <= i < |p| ==> IsDigit(p[i])
  }

  predicate AllDigitPieces(pieces: seq<string>) {
    forall i :: 0 <= i < |pieces| ==> IsDigitString(pieces[i])
  }

  /** The decimal value of a digit string, as the id lookup converts it. */
  function DigitsValue(p: string): nat
    requires forall i :: 0 <= i < |p| ==> IsDigit(p[i])
  {
    if p == [] then 0
    else
      assert IsDigit(p[|p| - 1]);
      10 * DigitsValue(p[..|p| - 1]) + (p[|p| - 1] as int - '0' as int)
  }

  /** An id list written out character by character: digits and commas,
      starting and ending with a digit, never two commas in a row. */
  predicate WellFormedIdList(v: string) {
    && |v| > 0 && v[0] != ',' && v[|v| - 1] != ','
    && (forall i :: 0 <= i < |v| ==> IsDigit(v[i]) || v[i] == ',')
    && (forall i :: 0 <= i < |v| - 1 && v[i] == ',' ==> v[i + 1] != ',')
  }

  lemma AllDigitCons(p: string, ps: seq<string>)
    ensures AllDigitPieces([p] + ps) <==> IsDigitString(p) && AllDigitPieces(ps)
  {
    var all := [p] + ps;
    assert all[0] == p;
    assert forall i :: 0 <= i < |ps| ==> all[i + 1] == ps[i];
  }

  lemma DigitStringCons(c: char, p: string)
    ensures IsDigitString([c] + p) <==> IsDigit(c) && (p == [] || IsDigitString(p))
  {
    var w := [c] + p;
    assert w[0] == c;
    assert forall i :: 0 <= i < |p| ==> w[i + 1] == p[i];
  }

  /** A digit in front of a list that starts with a digit. */
  lemma WellFormedCons(c: char, t: string)
    requires t != [] && t[0] != ','
    ensures WellFormedIdList([c] + t) <==> IsDigit(c) && WellFormedIdList(t)
  {
    var v := [c] + t;
    assert forall i :: 0 <= i < |t| ==> v[i + 1] == t[i];
    if IsDigit(c) && WellFormedIdList(t) {
      assert forall i :: 1 <= i < |v| ==> v[i] == t[i - 1];
    }
  }

  /** A digit and a comma in front of a list. */
  lemma WellFormedCommaCons(c: char, u: string)
    ensures WellFormedIdList([c, ','] + u) <==> IsDigit(c) && WellFormedIdList(u)
  {
    var v := [c, ','] + u;
    assert forall i :: 0 <= i < |u| ==> v[i + 2] == u[i];
    if WellFormedIdList(v) {
      assert v[|v| - 1] != ',';
      assert |u| > 0;
      assert v[1] == ',' ==> v[2] != ',';
    }
    if IsDigit(c) && WellFormedIdList(u) {
      assert forall i :: 2 <= i < |v| ==> v[i] == u[i - 2];
    }
  }

  /** The id filters accept exactly the well-formed lists; so "", "1,,2"
      and "1," are refused. */
  lemma {:induction false} IdListAccepted(v: string)
    ensures AllDigitPieces(Split(v, ',')) <==> WellFormedIdList(v)
    decreases |v|
  {
    if v == [] {
      assert !IsDigitString(Split(v, ',')[0]);
    } else if v[0] == ',' {
      assert Split(v, ',')[0] == "";
    } else {
      var c, t := v[0], v[1..];
      assert v == [c] + t;
      var rest := Split(t, ',');
      assert Split(v, ',') == [[c] + rest[0]] + rest[1..];
      if t == [] {
        assert rest == [""];
        assert [c] + rest[0] == [c] && rest[1..] == [];
        assert Split(v, ',') == [[c]] + [];
        AllDigitCons([c], []);
        DigitStringCons(c, []);
        assert v[|v| - 1] == c;
      } else if t[0] == ',' {
        var u := t[1..];
        assert v == [c, ','] + u;
        IdListAccepted(u);
        assert rest == [""] + Split(u, ',');
        assert [c] + rest[0] == [c] && rest[1..] == Split(u, ',');
        assert Split(v, ',') == [[c]] + Split(u, ',');
        AllDigitCons([c], Split(u, ','));
        DigitStringCons(c, []);
        WellFormedCommaCons(c, u);
      } else {
        IdListAccepted(t);
        assert rest[0] != [] by {
          var more := Split(t[1..], ',');
          assert rest[0] == [t[0]] + more[0];
        }
        assert rest == [rest[0]] + rest[1..];
        AllDigitCons([c] + rest[0], rest[1..]);
        AllDigitCons(rest[0], rest[1..]);
        DigitStringCons(c, rest[0]);
        WellFormedCons(c, t);
      }
    }
  }

  /** An empty value, a doubled comma and a trailing comma are refused;
      "12,7" is accepted. */
  lemma IdListExamples(products: seq<Product>, field: IdField)
    ensures FilterByIds(products, field, "") == Err(NonNumericIds)
    ensures FilterByIds(products, field, "1,,2") == Err(NonNumericIds)
    ensures FilterByIds(products, field, "1,") == Err(NonNumericIds)
    ensures FilterByIds(products, field, "12,7").Ok?
  {
  }

  /** The ids a valid list names. */
  function IdSet(value: string): set<nat>
    requires WellFormedIdList(value)
  {
    IdListAccepted(value);
    var pieces := Split(value, ',');
    set i | 0 <= i < |pieces| :: DigitsValue(pieces[i])
  }

  /** Which foreign key an id filter looks at. */
  datatype IdField = CompanyIds | DistributionIds | FormulaIds

  function RelatedId(p: Product, field: IdField): Option<nat> {
    match field
    case CompanyIds => p.company
    case DistributionIds => p.distribution
    case FormulaIds => p.formula
  }

  predicate RelatedIn(p: Product, field: IdField, ids: set<nat>) {
    RelatedId(p, field).Some? && RelatedId(p, field).value in ids
  }

  /** `filter_by_company_ids`, `filter_by_distribution_ids` and
      `filter_by_formula_ids`: split the value on commas, refuse it unless
      every piece is a digit string, then keep the products whose key is
      one of the ids. A product whose key is null is never kept. */
  function FilterByIds(products: seq<Product>, field: IdField, value: string): (r: Result<seq<Product>, FilterError>)
    ensures r.Ok? <==> WellFormedIdList(value)
    ensures r.Err? ==> r.error == NonNumericIds
    ensures r.Ok? ==>
      && multiset(r.value) <= multiset(products)
      && forall p :: p in r.value <==> p in products && RelatedIn(p, field, IdSet(value))
  {
    IdListAccepted(value);
    if !AllDigitPieces(Split(value, ',')) then Err(NonNumericIds)
    else
      var ids := IdSet(value);
      Ok(Select(products, p => RelatedIn(p, field, ids)))
  }

  // ---------------------------------------------------------------------
  // Expiry buckets
  // ---------------------------------------------------------------------

  /** Days ahead of today that count as short expiry. */
  const ShortExpiryDays: int := 180

  datatype Expiration = Expired | ShortExpired | ExpiredAndShortExpired

  /** Membership test against the expiry enum's values. */
  function ParseExpiration(v: string): (r: Option<Expiration>)
    ensures r.None? <==> v !in {"expired", "shortExpired", "expiredAndShortExpired"}
    ensures r == Some(Expired) <==> v == "expired"
  {
    if v == "expired" then Some(Expired)
    else if v == "shortExpired" then Some(ShortExpired)
    else if v == "expiredAndShortExpired" then Some(ExpiredAndShortExpired)
    else None
  }

  predicate StockExpired(s: Stock, today: int) {
    s.expiry.Some? && s.expiry.value < today
  }

  predicate StockShortExpired(s: Stock, today: int) {
    s.expiry.Some? && today <= s.expiry.value < today + ShortExpiryDays
  }

  /** Where a batch stands on a given day. */
  datatype ExpiryBucket = NoExpiry | Past | Soon | Later

  function Bucket(s: Stock, today: int): (b: ExpiryBucket)
    ensures b == NoExpiry <==> s.expiry.None?
    ensures b == Past <==> StockExpired(s, today)
    ensures b == Soon <==> StockShortExpired(s, today)
    ensures b == Later <==> s.expiry.Some? && s.expiry.value >= today + ShortExpiryDays
  {
    match s.expiry
    case None => NoExpiry
    case Some(d) => if d < today then Past else if d < today + ShortExpiryDays then Soon else Later
  }

  predicate HasExpiredStock(p: Product, today: int) {
    exists i :: 0 <= i < |p.stocks| && StockExpired(p.stocks[i], today)
  }

  predicate HasShortExpiredStock(p: Product, today: int) {
    exists i :: 0 <= i < |p.stocks| && StockShortExpired(p.stocks[i], today)
  }

  /** `filter_expiration`: refuse a value outside the expiry enum, otherwise
      keep the products with some expired batch, some short-expiry batch, or
      either. */
  function FilterExpiration(products: seq<Product>, value: string, today: int): (r: Result<seq<Product>, FilterError>)
    ensures r.Err? <==> ParseExpiration(value).None?
    ensures r.Err? ==> r.error == InvalidExpiration
    ensures value == "expired" ==>
      && r.Ok? && multiset(r.value) <= multiset(products)
      && forall p :: p in r.value <==> p in products && HasExpiredStock(p, today)
    ensures value == "shortExpired" ==>
      && r.Ok? && multiset(r.value) <= multiset(products)
      && forall p :: p in r.value <==> p in products && HasShortExpiredStock(p, today)
    // the combined value lists a product once per kind of batch it has
    ensures value == "expiredAndShortExpired" ==>
      && r.Ok?
      && (forall p :: p in r.value <==>
            p in products && (HasExpiredStock(p, today) || HasShortExpiredStock(p, today)))
      && (forall p :: multiset(r.value)[p] == RowMultiplicity(p, today, multiset(products)[p]))
  {
    match ParseExpiration(value)
    case None => Err(InvalidExpiration)
    case Some(Expired) => Ok(Select(products, p => HasExpiredStock(p, today)))
    case Some(ShortExpired) => Ok(Select(products, p => HasShortExpiredStock(p, today)))
    case Some(ExpiredAndShortExpired) =>
      ExpiredOrShortRowsCounts(products, today);
      Ok(ExpiredOrShortRows(products, today))
  }

  /** How often a product listed `n` times in the input comes back from the
      combined value: once per kind of batch it has, for each listing. */
  function RowMultiplicity(p: Product, today: int, n: nat): nat {
    (if HasExpiredStock(p, today) then n else 0) + (if HasShortExpiredStock(p, today) then n else 0)
  }

  /** The rows the combined value returns: the annotations differ between an
      expired and a short-expired batch, so `distinct` keeps one row for each
      kind, and a product with both kinds comes back twice, side by side. */
  function ExpiredOrShortRows(products: seq<Product>, today: int): (r: seq<Product>)
    ensures forall p :: p in r <==>
      p in products && (HasExpiredStock(p, today) || HasShortExpiredStock(p, today))
  {
    if products == [] then []
    else
      assert products == [products[0]] + products[1..];
      RowsOf(products[0], today) + ExpiredOrShortRows(products[1..], today)
  }

  /** The rows one product contributes to the combined value. */
  function RowsOf(p: Product, today: int): (r: seq<Product>)
    ensures multiset(r)[p] == RowMultiplicity(p, today, 1)
    ensures forall q :: q in r ==> q == p
  {
    (if HasExpiredStock(p, today) then [p] else [])
      + (if HasShortExpiredStock(p, today) then [p] else [])
  }

  /** Each product appears in the combined value once per kind of batch it
      has, for every time it appears in the input. */
  lemma {:induction false} ExpiredOrShortRowsCount(products: seq<Product>, today: int, p: Product)
    ensures multiset(ExpiredOrShortRows(products, today))[p] == RowMultiplicity(p, today, multiset(products)[p])
  {
    if products != [] {
      var first, rest := products[0], products[1..];
      assert products == [first] + rest;
      ExpiredOrShortRowsCount(rest, today, p);
      var n := multiset(rest)[p];
      if first == p {
        assert multiset(products)[p] == n + 1;
      } else {
        assert multiset(products)[p] == n;
        assert multiset(RowsOf(first, today))[p] == 0;
      }
    }
  }

  lemma ExpiredOrShortRowsCounts(products: seq<Product>, today: int)
    ensures forall p :: multiset(ExpiredOrShortRows(products, today))[p] == RowMultiplicity(p, today, multiset(products)[p])
  {
    forall p {
      ExpiredOrShortRowsCount(products, today, p);
    }
  }

  /** A product with an expired batch and a short-expired batch is listed
      twice by the combined value. */
  lemma CombinedListsTwice(p: Product, today: int)
    requires HasExpiredStock(p, today) && HasShortExpiredStock(p, today)
    ensures FilterExpiration([p], "expiredAndShortExpired", today) == Ok([p, p])
  {
    assert [p][1..] == [];
    assert RowsOf(p, today) == [p, p];
    assert ExpiredOrShortRows([p], today) == [p, p] + [] == [p, p];
  }

  /** The combined value keeps exactly the products of the other two. */
  lemma ExpirationUnion(products: seq<Product>, today: int)
    ensures
      var both := FilterExpiration(products, "expiredAndShortExpired", today);
      var expired := FilterExpiration(products, "expired", today);
      var soon := FilterExpiration(products, "shortExpired", today);
      both.Ok? && expired.Ok? && soon.Ok? &&
      forall p :: p in both.value <==> p in expired.value || p in soon.value
  {
  }

  // ---------------------------------------------------------------------
  // Quantities
  // ---------------------------------------------------------------------

  /** The sum of qty over all batches. */
  function TotalQty(stocks: seq<Stock>): int {
    if stocks == [] then 0 else TotalQty(stocks[..|stocks| - 1]) + stocks[|stocks| - 1].qty
  }

  /** The sum of qty over the batches in one bucket. */
  function QtyIn(stocks: seq<Stock>, today: int, b: ExpiryBucket): int {
    if stocks == [] then 0
    else
      var last := stocks[|stocks| - 1];
      QtyIn(stocks[..|stocks| - 1], today, b) + (if Bucket(last, today) == b then last.qty else 0)
  }

  /** The low-quantity total: the sum of qty over batches whose expiry date
      is today or later, 0 when there are none. A null expiry date fails the
      comparison, so those batches are left out. */
  function LowQtyTotal(stocks: seq<Stock>, today: int): (r: int)
    ensures (forall i :: 0 <= i < |stocks| ==> stocks[i].expiry.None? || stocks[i].expiry.value < today) ==> r == 0
    ensures (forall i :: 0 <= i < |stocks| ==> stocks[i].qty >= 0) ==> r >= 0
  {
    if stocks == [] then 0
    else
      var last := stocks[|stocks| - 1];
      LowQtyTotal(stocks[..|stocks| - 1], today)
        + (if last.expiry.Some? && last.expiry.value >= today then last.qty else 0)
  }

  /** Every batch lies in exactly one bucket, so the bucket sums add up to
      the whole. */
  lemma {:induction false} QtyPartition(stocks: seq<Stock>, today: int)
    ensures TotalQty(stocks)
            == QtyIn(stocks, today, NoExpiry) + QtyIn(stocks, today, Past)
             + QtyIn(stocks, today, Soon) + QtyIn(stocks, today, Later)
  {
    if stocks != [] {
      QtyPartition(stocks[..|stocks| - 1], today);
    }
  }

  /** The low-quantity total is the short-expiry and later batches: expired
      and undated batches add nothing to it. */
  lemma {:induction false} LowQtyTotalUnexpired(stocks: seq<Stock>, today: int)
    ensures LowQtyTotal(stocks, today) == QtyIn(stocks, today, Soon) + QtyIn(stocks, today, Later)
  {
    if stocks != [] {
      LowQtyTotalUnexpired(stocks[..|stocks| - 1], today);
    }
  }

  // ---------------------------------------------------------------------
  // Low quantity
  // ---------------------------------------------------------------------

  /** A limit `num / den`, kept exact. */
  datatype Ratio = Ratio(num: int, den: int)

  /** The low-quantity enum's values and the two limits the filter uses. */
  datatype LowQtyConfig = LowQtyConfig(
    values: seq<string>,
    veryLow: string,
    low: string,
    veryLowLimit: Ratio,
    lowLimit: Ratio)

  predicate ValidLimits(config: LowQtyConfig) {
    config.veryLowLimit.den > 0 && config.lowLimit.den > 0
  }

  /** total < avgQty * num / den, multiplied out by the positive `den`. */
  predicate BelowLimit(p: Product, today: int, limit: Ratio) {
    LowQtyTotal(p.stocks, today) * limit.den < p.avgQty * limit.num
  }

  /** `filter_low_qty`: refuse a value outside the enum; for the very-low and
      low values keep the products whose low-quantity total is below the
      average times the limit; any other listed value keeps everything. */
  function FilterLowQty(products: seq<Product>, value: string, today: int, config: LowQtyConfig): (r: Result<seq<Product>, FilterError>)
    requires ValidLimits(config)
    ensures r.Err? <==> value !in config.values
    ensures r.Err? ==> r.error == InvalidLowQty
    ensures r.Ok? ==> multiset(r.value) <= multiset(products)
    ensures r.Ok? && value == config.veryLow ==>
      forall p :: p in r.value <==> p in products && BelowLimit(p, today, config.veryLowLimit)
    ensures r.Ok? && value != config.veryLow && value == config.low ==>
      forall p :: p in r.value <==> p in products && BelowLimit(p, today, config.lowLimit)
    ensures r.Ok? && value != config.veryLow && value != config.low ==> r.value == products
  {
    if value !in config.values then Err(InvalidLowQty)
    else if value == config.veryLow then Ok(Select(products, p => BelowLimit(p, today, config.veryLowLimit)))
    else if value == config.low then Ok(Select(products, p => BelowLimit(p, today, config.lowLimit)))
    else Ok(products)
  }

  /** With the very-low limit at most the low one and no negative averages,
      every very-low product is also a low one. */
  lemma VeryLowWithinLow(products: seq<Product>, today: int, config: LowQtyConfig)
    requires ValidLimits(config)
    requires config.veryLow in config.values && config.low in config.values && config.veryLow != config.low
    requires config.veryLowLimit.num * config.lowLimit.den <= config.lowLimit.num * config.veryLowLimit.den
    requires forall p :: p in products ==> p.avgQty >= 0
    ensures
      var veryLow := FilterLowQty(products, config.veryLow, today, config);
      var low := FilterLowQty(products, config.low, today, config);
      veryLow.Ok? && low.Ok? && forall p :: p in veryLow.value ==> p in low.value
  {
  }

  /** avg_qty is a plain integer column and qty can go below zero, so with a
      negative average the very-low result is not inside the low one. */
  lemma NegativeAverageBreaksNesting()
    ensures
      var config := LowQtyConfig(["veryLow", "low"], "veryLow", "low", Ratio(2, 5), Ratio(4, 5));
      var p := Product("p", None, None, None, -10, [Stock(-5, Some(1))]);
      var veryLow := FilterLowQty([p], "veryLow", 0, config);
      var low := FilterLowQty([p], "low", 0, config);
      veryLow.Ok? && low.Ok? && p in veryLow.value && p !in low.value
  {
    var stocks := [Stock(-5, Some(1))];
    assert stocks[..0] == [];
    assert LowQtyTotal(stocks, 0) == -5;
  }
}
