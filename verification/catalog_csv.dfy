/** The in-memory product catalog of data_sources/catalog_csv.py: the SKU map
    built from catalog rows, exact lookup, and the similar-product search. */
module CatalogCsv {
  import opened Wrappers
  import opened Text
  import opened OrderedMaps
  import opened Models

  datatype Product = Product(name: Option<string>, stock: int, moq: int, description: string)

  /** One catalog row once the loader has picked the column variants:
      any of code, name, stock and MOQ may be missing. */
  datatype Row = Row(code: Option<string>, name: Option<string>, stock: Option<int>, moq: Option<int>, description: string)

  /** `_sku_map`: product code to product, in insertion order. */
  type SkuMap = OrderedMap<Product>

  /** The record stored for a row: a missing stock reads as 0, a missing MOQ as 1. */
  function ToProduct(row: Row): (p: Product)
    ensures p.name == row.name && p.description == row.description
    ensures p.stock == (if row.stock.Some? then row.stock.value else 0)
    ensures p.moq == (if row.moq.Some? then row.moq.value else 1)
  {
    Product(row.name, row.stock.GetOr(0), row.moq.GetOr(1), row.description)
  }

  /** A row is stored when its product code is present and non-empty. */
  predicate Stored(row: Row) {
    row.code.Some? && row.code.value != ""
  }

  /** The codes of the stored rows, in row order (with repetitions). */
  function Codes(rows: seq<Row>): (cs: seq<string>)
    ensures forall k :: k in cs <==> exists i :: 0 <= i < |rows| && Stored(rows[i]) && rows[i].code.value == k
  {
    if rows == [] then []
    else
      var p := rows[..|rows| - 1];
      var last := rows[|rows| - 1];
      assert forall i :: 0 <= i < |p| ==> p[i] == rows[i];
      Codes(p) + (if Stored(last) then [last.code.value] else [])
  }

  /** The SKU map as the rows last left it: `later` rows do not mention k. */
  ghost predicate LastRowFor(rows: seq<Row>, k: string, i: int, p: Product) {
    0 <= i < |rows| && rows[i].code == Some(k) && p == ToProduct(rows[i])
    && forall j :: i < j < |rows| ==> rows[j].code != Some(k)
  }

  ghost predicate LoadedFrom(m: SkuMap, rows: seq<Row>) {
    && m.Valid()
    && m.keys == Dedup(Codes(rows))
    && forall k :: k in m.values ==> exists i :: LastRowFor(rows, k, i, m.values[k])
  }

  lemma CodesSnoc(rows: seq<Row>, row: Row)
    ensures Codes(rows + [row]) == if Stored(row) then Codes(rows) + [row.code.value] else Codes(rows)
  {
    assert (rows + [row])[..|rows|] == rows;
    assert Codes(rows) + [] == Codes(rows);
  }

  /** A row without a product code leaves the map as it was. */
  lemma LoadSkipped(m: SkuMap, rows: seq<Row>, row: Row)
    requires LoadedFrom(m, rows) && !Stored(row)
    ensures LoadedFrom(m, rows + [row])
  {
    var all := rows + [row];
    CodesSnoc(rows, row);
    forall k | k in m.values
      ensures exists i :: LastRowFor(all, k, i, m.values[k])
    {
      var i :| LastRowFor(rows, k, i, m.values[k]);
      assert k in Codes(rows);
      assert all[|rows|] == row;
      assert LastRowFor(all, k, i, m.values[k]);
    }
  }

  /** A row with a product code (re)places the record stored under it. */
  lemma LoadStored(m: SkuMap, rows: seq<Row>, row: Row)
    requires LoadedFrom(m, rows) && Stored(row)
    ensures LoadedFrom(m.Put(row.code.value, ToProduct(row)), rows + [row])
  {
    var c := row.code.value;
    CodesSnoc(rows, row);
    DedupSnoc(Codes(rows), c);
    LoadStoredValues(m, rows, row);
  }

  lemma LoadStoredValues(m: SkuMap, rows: seq<Row>, row: Row)
    requires m.Valid() && Stored(row)
    requires forall k :: k in m.values ==> exists i :: LastRowFor(rows, k, i, m.values[k])
    ensures var m' := m.Put(row.code.value, ToProduct(row));
      forall k :: k in m'.values ==> exists i :: LastRowFor(rows + [row], k, i, m'.values[k])
  {
    var all, c := rows + [row], row.code.value;
    var m' := m.Put(c, ToProduct(row));
    forall k | k in m'.values
      ensures exists i :: LastRowFor(all, k, i, m'.values[k])
    {
      if k == c {
        assert LastRowFor(all, k, |rows|, m'.values[k]);
      } else {
        var i :| LastRowFor(rows, k, i, m.values[k]);
        assert all[|rows|] == row;
        assert LastRowFor(all, k, i, m'.values[k]);
      }
    }
  }

  /** `_create_sku_map` over rows: every row with a product code is stored
      under that code; a later row with the same code replaces the earlier
      record but keeps its position, so the map has one entry per code,
      listed in order of first appearance, holding the last row's product. */
  method CreateSkuMap(rows: seq<Row>) returns (m: SkuMap)
    ensures m.Valid()
    ensures m.keys == Dedup(Codes(rows))
    ensures forall k :: k in m.values <==> exists i :: 0 <= i < |rows| && Stored(rows[i]) && rows[i].code.value == k
    ensures forall k :: k in m.values ==> exists i :: LastRowFor(rows, k, i, m.values[k])
  {
    m := Empty();
    for n := 0 to |rows|
      invariant LoadedFrom(m, rows[..n])
    {
      var row := rows[n];
      assert rows[..n + 1] == rows[..n] + [row];
      if row.code.Some? && row.code.value != "" {
        LoadStored(m, rows[..n], row);
        m := m.Put(row.code.value, ToProduct(row));
      } else {
        LoadSkipped(m, rows[..n], row);
      }
    }
    assert rows[..|rows|] == rows;
  }

  /** `get_product_details(sku)`: the stored record for exactly that SKU, or nothing. */
  function GetProductDetails(m: SkuMap, sku: string): (r: Option<Product>)
    ensures r.Some? <==> sku in m.values
    ensures r.Some? ==> r.value == m.values[sku]
    ensures m.Valid() ==> (r.Some? <==> sku in m.keys)
  {
    if sku in m.values then Some(m.values[sku]) else None
  }

  /** `get_all_products()`: a copy, with the same SKUs in the same order and
      the same lookups. */
  function GetAllProducts(m: SkuMap): (r: SkuMap)
    requires m.Valid()
    ensures r.Valid() && r.keys == m.keys
    ensures forall sku :: GetProductDetails(r, sku) == GetProductDetails(m, sku)
  {
    OrderedMap(m.keys, m.values)
  }

  /** The similar-product record built from a catalog entry. */
  function SimilarRecord(sku: string, p: Product): Suggestion {
    SimilarProduct(sku, p.name, p.moq, p.stock)
  }

  /** The search test for one catalog entry against the query q: never the
      exact SKU; otherwise a SKU that starts with q's first three characters
      (case-sensitive), or a non-empty name containing q (ignoring case). */
  predicate IsSimilar(q: string, sku: string, p: Product) {
    sku != q
    && (StartsWith(sku, Take(q, 3))
        || (p.name.Some? && p.name.value != "" && Contains(Upper(p.name.value), Upper(q))))
  }

  /** s is the similar-product record of a catalog entry similar to q. */
  predicate SimilarEntry(m: SkuMap, q: string, s: Suggestion) {
    && s.SimilarProduct?
    && s.sku in m.values
    && IsSimilar(q, s.sku, m.values[s.sku])
    && s == SimilarRecord(s.sku, m.values[s.sku])
  }

  /** The similar-product records of the entries listed in ks, in that order. */
  function MatchesIn(m: SkuMap, q: string, ks: seq<string>): (r: seq<Suggestion>)
    ensures |r| <= |ks|
    ensures forall j :: 0 <= j < |r| ==> SimilarEntry(m, q, r[j]) && r[j].sku in ks
  {
    if ks == [] then []
    else
      var k := ks[|ks| - 1];
      MatchesIn(m, q, ks[..|ks| - 1])
        + (if k in m.values && IsSimilar(q, k, m.values[k]) then [SimilarRecord(k, m.values[k])] else [])
  }

  /** `find_similar_products(q)`: nothing for a query under two characters;
      otherwise the first five matching entries in catalog order, each a copy
      of a catalog entry similar to q (and so never q itself). */
  function SimilarProducts(m: SkuMap, q: string): (r: seq<Suggestion>)
    ensures |q| < 2 ==> r == []
    ensures |r| <= 5
    ensures forall j :: 0 <= j < |r| ==> SimilarEntry(m, q, r[j])
  {
    if |q| < 2 then [] else Take(MatchesIn(m, q, m.keys), 5)
  }

  /** The matches among a prefix of the keys begin the matches among all of them. */
  lemma {:induction false} MatchesInPrefix(m: SkuMap, q: string, ks: seq<string>, n: nat)
    requires n <= |ks|
    ensures MatchesIn(m, q, ks[..n]) <= MatchesIn(m, q, ks)
  {
    if n < |ks| {
      var p := ks[..|ks| - 1];
      assert ks[..n] == p[..n];
      MatchesInPrefix(m, q, p, n);
    } else {
      assert ks[..n] == ks;
    }
  }

  /** A matching key's record sits in the matches right after those of the keys before it. */
  lemma MatchAt(m: SkuMap, q: string, ks: seq<string>, i: nat)
    requires i < |ks| && ks[i] in m.values && IsSimilar(q, ks[i], m.values[ks[i]])
    ensures |MatchesIn(m, q, ks[..i])| < |MatchesIn(m, q, ks)|
    ensures MatchesIn(m, q, ks)[|MatchesIn(m, q, ks[..i])|] == SimilarRecord(ks[i], m.values[ks[i]])
  {
    assert ks[..i + 1][..i] == ks[..i];
    assert MatchesIn(m, q, ks[..i + 1]) == MatchesIn(m, q, ks[..i]) + [SimilarRecord(ks[i], m.values[ks[i]])];
    MatchesInPrefix(m, q, ks, i + 1);
  }

  /** Every entry that matches is reported unless five matches precede it in
      catalog order: the result is the first five matches. */
  lemma SimilarProductsFirstMatches(m: SkuMap, q: string, i: nat)
    requires m.Valid() && |q| >= 2 && i < |m.keys|
    requires IsSimilar(q, m.keys[i], m.values[m.keys[i]])
    requires |MatchesIn(m, q, m.keys[..i])| < 5
    ensures SimilarRecord(m.keys[i], m.values[m.keys[i]]) in SimilarProducts(m, q)
  {
    MatchAt(m, q, m.keys, i);
    var at := |MatchesIn(m, q, m.keys[..i])|;
    assert SimilarProducts(m, q)[at] == SimilarRecord(m.keys[i], m.values[m.keys[i]]);
  }

  /** The search loop of `find_similar_products`, then the slice `[:5]`. */
  method FindSimilarProducts(m: SkuMap, sku: string) returns (r: seq<Suggestion>)
    requires m.Valid()
    ensures r == SimilarProducts(m, sku)
  {
    if |sku| < 2 {
      return [];
    }
    var suggestions: seq<Suggestion> := [];
    var skuUpper := Upper(sku);
    for i := 0 to |m.keys|
      invariant suggestions == MatchesIn(m, sku, m.keys[..i])
    {
      var catalogSku := m.keys[i];
      var details := m.values[catalogSku];
      assert m.keys[..i + 1][..i] == m.keys[..i];
      if catalogSku == sku {
        continue;
      }
      if StartsWith(catalogSku, Take(sku, 3)) {
        suggestions := suggestions + [SimilarRecord(catalogSku, details)];
      } else if details.name.Some? && details.name.value != "" && Contains(Upper(details.name.value), skuUpper) {
        suggestions := suggestions + [SimilarRecord(catalogSku, details)];
      }
    }
    assert m.keys[..|m.keys|] == m.keys;
    r := Take(suggestions, 5);
  }
}
