/** The five-product sample catalog of the repository's tests, and what
    validation and the similar-product search give on it. */
module Scenarios {
  import opened Wrappers
  import opened Text
  import opened OrderedMaps
  import opened Models
  import opened CatalogCsv
  import opened ValidationResults
  import opened CatalogValidator

  /** The rows of the sample catalog file after the column fallback. The
      Coffee Table's stock of 0 is falsy, so `or` reads it as missing. */
  const SampleRows: seq<Row> := [
    Row(Some("MD-001"), Some("Modern Desk"), Some(10), Some(1), "Modern office desk"),
    Row(Some("DT-002"), Some("Dining Table"), Some(5), Some(1), "Wooden dining table"),
    Row(Some("BS-003"), Some("Bookshelf"), Some(2), Some(2), "Tall bookshelf"),
    Row(Some("CT-001"), Some("Coffee Table"), None, Some(1), "Modern coffee table"),
    Row(Some("TVS-002"), Some("TV Stand"), Some(3), Some(2), "TV stand with storage")]

  const SampleCatalog: SkuMap := OrderedMap(
    ["MD-001", "DT-002", "BS-003", "CT-001", "TVS-002"],
    map[
      "MD-001" := Product(Some("Modern Desk"), 10, 1, "Modern office desk"),
      "DT-002" := Product(Some("Dining Table"), 5, 1, "Wooden dining table"),
      "BS-003" := Product(Some("Bookshelf"), 2, 2, "Tall bookshelf"),
      "CT-001" := Product(Some("Coffee Table"), 0, 1, "Modern coffee table"),
      "TVS-002" := Product(Some("TV Stand"), 3, 2, "TV stand with storage")])

  /** Loading the sample rows gives the sample catalog. */
  method LoadSampleCatalog() returns (m: SkuMap)
    ensures m == SampleCatalog
  {
    m := CreateSkuMap(SampleRows);
    SampleRowsLoadAsCatalog(m);
  }

  /** The only map the loader's contract allows for the sample rows is the
      sample catalog. */
  lemma SampleRowsLoadAsCatalog(m: SkuMap)
    requires m.Valid() && m.keys == Dedup(Codes(SampleRows))
    requires forall k :: k in m.values ==> exists i :: LastRowFor(SampleRows, k, i, m.values[k])
    ensures m == SampleCatalog
  {
    SampleCodes();
    SampleCatalogValid();
    DedupOfDistinct(SampleCatalog.keys);
    forall k | k in m.values
      ensures m.values[k] == SampleCatalog.values[k]
    {
      var i :| LastRowFor(SampleRows, k, i, m.values[k]);
      SampleRowProduct(i);
    }
    SameEntries(m, SampleCatalog);
  }

  /** The stored codes of the sample rows are the catalog's keys, in order. */
  lemma SampleCodes()
    ensures Codes(SampleRows) == SampleCatalog.keys
  {
    var rows := SampleRows;
    for k := 0 to |rows|
      invariant Codes(rows[..k]) == SampleCatalog.keys[..k]
    {
      PrefixSnoc(rows, k);
      CodesSnoc(rows[..k], rows[k]);
      PrefixSnoc(SampleCatalog.keys, k);
    }
    assert rows[..|rows|] == rows;
  }

  /** Each sample row's product is the one the catalog holds under its code. */
  lemma SampleRowProduct(i: int)
    requires 0 <= i < |SampleRows|
    ensures SampleRows[i].code.value in SampleCatalog.values
    ensures ToProduct(SampleRows[i]) == SampleCatalog.values[SampleRows[i].code.value]
  {
  }

  /** The sample catalog is a well-formed SKU map. */
  lemma SampleCatalogValid()
    ensures SampleCatalog.Valid()
    ensures GetProductDetails(SampleCatalog, "MD-001") == Some(Product(Some("Modern Desk"), 10, 1, "Modern office desk"))
  {
  }

  /** Two Modern Desks (stock 10, MOQ 1) are a valid line. */
  lemma DeskIsValid(item: OrderItem)
    requires item.sku == "MD-001" && item.quantity == 2
    ensures var r := ValidateItem(SampleCatalog, item);
      && r.isValid && r.notes == ValidNotes && r.suggestions == []
      && r.metadata == map["min_quantity" := 1, "available_stock" := 10]
  {
  }

  /** One Bookshelf is below its MOQ of 2, and 2 is suggested. */
  lemma BookshelfBelowMoq(item: OrderItem)
    requires item.sku == "BS-003" && item.quantity == 1
    ensures var r := ValidateItem(SampleCatalog, item);
      && !r.isValid
      && r.suggestions == [QuantityAdjustment(1, 2, MoqReason(2))]
  {
  }

  /** Six Dining Tables exceed the stock of 5. */
  lemma DiningTableAboveStock(item: OrderItem)
    requires item.sku == "DT-002" && item.quantity == 6
    ensures var r := ValidateItem(SampleCatalog, item);
      && !r.isValid
      && r.suggestions == [StockLimit(6, 5, StockReason)]
  {
  }

  /** A Coffee Table is out of stock: the available quantity reported is 0. */
  lemma CoffeeTableOutOfStock(item: OrderItem)
    requires item.sku == "CT-001" && item.quantity == 1
    ensures var r := ValidateItem(SampleCatalog, item);
      && !r.isValid
      && r.suggestions == [StockLimit(1, 0, StockReason)]
  {
  }

  /** Searching for "MD" finds the Modern Desk by its SKU prefix. */
  lemma SearchMdFindsDesk()
    ensures SimilarRecord("MD-001", SampleCatalog.values["MD-001"]) in SimilarProducts(SampleCatalog, "MD")
  {
    SampleCatalogValid();
    assert MatchesIn(SampleCatalog, "MD", SampleCatalog.keys[..0]) == [];
    SimilarProductsFirstMatches(SampleCatalog, "MD", 0);
  }

  /** Nothing in the sample catalog resembles "INVALID-SKU": no SKU starts
      with "INV" and no name contains it, so the unknown line carries an empty
      suggestion list. */
  lemma UnknownSkuHasNoSuggestions(item: OrderItem)
    requires item.sku == "INVALID-SKU"
    ensures var r := ValidateItem(SampleCatalog, item);
      !r.isValid && r.suggestions == []
  {
    NothingResemblesInvalidSku();
    NoMatches(SampleCatalog, "INVALID-SKU", SampleCatalog.keys);
  }

  lemma NothingResemblesInvalidSku()
    ensures forall k :: k in SampleCatalog.values ==> !IsSimilar("INVALID-SKU", k, SampleCatalog.values[k])
  {
    var q := "INVALID-SKU";
    assert Upper(q)[7] == '-';
    forall k | k in SampleCatalog.values
      ensures !IsSimilar(q, k, SampleCatalog.values[k])
    {
      assert k[0] != 'I';
      MissingCharNotContained(Upper(SampleCatalog.values[k].name.value), Upper(q), 7);
    }
  }

  /** A string lacking a character of the needle does not contain the needle. */
  lemma MissingCharNotContained(hay: string, needle: string, j: nat)
    requires j < |needle| && forall i :: 0 <= i < |hay| ==> hay[i] != needle[j]
    ensures !Contains(hay, needle)
  {
    forall i | 0 <= i <= |hay| - |needle|
      ensures !OccursAt(hay, needle, i)
    {
      assert hay[i..i + |needle|][j] != needle[j];
    }
  }

  lemma {:induction false} NoMatches(m: SkuMap, q: string, ks: seq<string>)
    requires forall k :: k in ks && k in m.values ==> !IsSimilar(q, k, m.values[k])
    ensures MatchesIn(m, q, ks) == []
  {
    if ks != [] {
      NoMatches(m, q, ks[..|ks| - 1]);
    }
  }
}
