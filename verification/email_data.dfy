/** The `items` validator of parsing/email_data.py: it checks the items the
    language model extracted from an e-mail and renames their fields to
    `sku` and `quantity`. The extracted data is dynamically typed, so it is
    modelled as a JSON-like value; a dictionary is its list of entries in
    iteration order, so "the first key that matches" is meaningful. */
module EmailData {
  import opened Wrappers
  import opened Text

  datatype Value =
    | Null
    | Bool(b: bool)
    | Int(i: int)
    | Float(r: real)
    | Str(s: string)
    | List(elems: seq<Value>)
    | Dict(entries: seq<(string, Value)>)

  /** A normalised item: exactly the two fields `sku` and `quantity`. */
  datatype NormalizedItem = NormalizedItem(sku: Value, quantity: Value)

  const NotAList := "Items must be a list"
  const NotADictionary := "Each item must be a dictionary"
  const MissingSku := "Each item must have 'sku' or 'SKU' field"
  const MissingQuantity := "Each item must have 'quantity' or 'Quantity' field"
  const BadQuantity := "Quantity must be a positive integer"

  /** `isinstance(v, int) and v > 0`. Python's `bool` is a subclass of `int`,
      so `True` (which is 1) passes and `False` (which is 0) does not; a
      float such as `2.0` is not an `int` and fails. */
  predicate IsPositiveInt(v: Value) {
    (v.Int? && v.i > 0) || v == Bool(true)
  }

  /** The key of entry i, lower-cased, is name. */
  predicate KeyIs(entries: seq<(string, Value)>, i: int, name: string)
    requires 0 <= i < |entries|
  {
    Lower(entries[i].0) == name
  }

  /** The position of the first entry whose key, lower-cased, is name. */
  function FirstKey(entries: seq<(string, Value)>, name: string): (r: Option<nat>)
    ensures r.None? <==> forall i :: 0 <= i < |entries| ==> !KeyIs(entries, i, name)
    ensures r.Some? ==>
      && r.value < |entries|
      && KeyIs(entries, r.value, name)
      && forall j :: 0 <= j < r.value ==> !KeyIs(entries, j, name)
  {
    if entries == [] then None
    else if KeyIs(entries, 0, name) then Some(0)
    else
      var r := FirstKey(entries[1..], name);
      assert forall i :: 1 <= i < |entries| ==> (KeyIs(entries, i, name) <==> KeyIs(entries[1..], i - 1, name));
      if r.None? then None
      else
        assert entries[1..][r.value] == entries[r.value + 1];
        assert KeyIs(entries, r.value + 1, name);
        Some(r.value + 1)
  }

  /** The key-scan loop: `for key in item.keys(): if key.lower() == name: break`. */
  method FindKey(entries: seq<(string, Value)>, name: string) returns (r: Option<nat>)
    ensures r == FirstKey(entries, name)
  {
    r := None;
    var i := 0;
    while i < |entries|
      invariant 0 <= i <= |entries|
      invariant forall j :: 0 <= j < i ==> !KeyIs(entries, j, name)
    {
      if Lower(entries[i].0) == name {
        r := Some(i);
        break;
      }
      i := i + 1;
    }
    FirstKeyUnique(entries, name, r);
  }

  /** The first matching position is the only one with no match before it. */
  lemma FirstKeyUnique(entries: seq<(string, Value)>, name: string, r: Option<nat>)
    requires r.None? ==> forall j :: 0 <= j < |entries| ==> !KeyIs(entries, j, name)
    requires r.Some? ==>
      && r.value < |entries|
      && KeyIs(entries, r.value, name)
      && forall j :: 0 <= j < r.value ==> !KeyIs(entries, j, name)
    ensures r == FirstKey(entries, name)
  {
  }

  /** One element of the list: the checks of the loop body, in their order. */
  function NormalizeItem(v: Value): Result<NormalizedItem, string> {
    if !v.Dict? then Failure(NotADictionary)
    else
      match FirstKey(v.entries, "sku")
      case None => Failure(MissingSku)
      case Some(s) =>
        match FirstKey(v.entries, "quantity")
        case None => Failure(MissingQuantity)
        case Some(q) =>
          if IsPositiveInt(v.entries[q].1) then Success(NormalizedItem(v.entries[s].1, v.entries[q].1))
          else Failure(BadQuantity)
  }

  /** An element is accepted exactly when it is a dictionary with a key that
      lower-cases to "sku" and one that lower-cases to "quantity", the first
      of the latter holding a positive integer; the normalised item then
      carries the values of the first such keys. Otherwise the error names
      the first check that fails. */
  lemma NormalizeItemCases(v: Value)
    ensures !v.Dict? ==> NormalizeItem(v) == Failure(NotADictionary)
    ensures v.Dict? && (forall i :: 0 <= i < |v.entries| ==> !KeyIs(v.entries, i, "sku"))
      ==> NormalizeItem(v) == Failure(MissingSku)
    ensures v.Dict? && (exists i :: 0 <= i < |v.entries| && KeyIs(v.entries, i, "sku"))
      && (forall i :: 0 <= i < |v.entries| ==> !KeyIs(v.entries, i, "quantity"))
      ==> NormalizeItem(v) == Failure(MissingQuantity)
    ensures NormalizeItem(v).Success? ==>
      && v.Dict?
      && (exists i :: 0 <= i < |v.entries| && KeyIs(v.entries, i, "sku")
            && NormalizeItem(v).value.sku == v.entries[i].1
            && forall j :: 0 <= j < i ==> !KeyIs(v.entries, j, "sku"))
      && (exists i :: 0 <= i < |v.entries| && KeyIs(v.entries, i, "quantity")
            && NormalizeItem(v).value.quantity == v.entries[i].1
            && forall j :: 0 <= j < i ==> !KeyIs(v.entries, j, "quantity"))
      && IsPositiveInt(NormalizeItem(v).value.quantity)
    ensures v.Dict? && FirstKey(v.entries, "sku").Some? && FirstKey(v.entries, "quantity").Some? ==>
      var s, q := v.entries[FirstKey(v.entries, "sku").value].1, v.entries[FirstKey(v.entries, "quantity").value].1;
      && (!IsPositiveInt(q) ==> NormalizeItem(v) == Failure(BadQuantity))
      && (IsPositiveInt(q) ==> NormalizeItem(v) == Success(NormalizedItem(s, q)))
  {
    if v.Dict? {
      var s := FirstKey(v.entries, "sku");
      var q := FirstKey(v.entries, "quantity");
      if NormalizeItem(v).Success? {
        assert KeyIs(v.entries, s.value, "sku");
        assert KeyIs(v.entries, q.value, "quantity");
      }
    }
  }

  /** A JSON quantity of `2.0` arrives as a float, which is not an `int`, so
      the item is rejected with the quantity error. */
  lemma FloatQuantityRejected(sku: string)
    ensures NormalizeItem(Dict([("SKU", Str(sku)), ("Quantity", Float(2.0))])) == Failure(BadQuantity)
  {
    var entries := [("SKU", Str(sku)), ("Quantity", Float(2.0))];
    assert KeyIs(entries, 0, "sku");
    assert !KeyIs(entries, 0, "quantity") && KeyIs(entries, 1, "quantity");
  }

  /** The elements normalised in order, stopping at the first that fails. */
  function NormalizeAll(xs: seq<Value>): (r: Result<seq<NormalizedItem>, string>)
    ensures r.Success? ==>
      && |r.value| == |xs|
      && forall i :: 0 <= i < |xs| ==> NormalizeItem(xs[i]) == Success(r.value[i])
  {
    if xs == [] then Success([])
    else
      var p := xs[..|xs| - 1];
      assert forall i :: 0 <= i < |p| ==> p[i] == xs[i];
      match NormalizeAll(p)
      case Failure(e) => Failure(e)
      case Success(done) =>
        match NormalizeItem(xs[|xs| - 1])
        case Failure(e) => Failure(e)
        case Success(n) =>
          assert forall i :: 0 <= i < |done| ==> (done + [n])[i] == done[i];
          Success(done + [n])
  }

  /** What `validate_items` returns: the rejection of a non-list, or the
      normalisation of every element. */
  function ValidateItemsResult(v: Value): Result<seq<NormalizedItem>, string> {
    if !v.List? then Failure(NotAList) else NormalizeAll(v.elems)
  }

  /** The whole list is accepted exactly when every element is; a rejection
      carries the error of the first element that fails. */
  lemma {:induction false} NormalizeAllFirstFailure(xs: seq<Value>)
    ensures NormalizeAll(xs).Success? <==> forall i :: 0 <= i < |xs| ==> NormalizeItem(xs[i]).Success?
    ensures NormalizeAll(xs).Failure? ==>
      exists i :: 0 <= i < |xs| && NormalizeItem(xs[i]) == Failure(NormalizeAll(xs).error)
        && forall j :: 0 <= j < i ==> NormalizeItem(xs[j]).Success?
  {
    if xs != [] {
      var p := xs[..|xs| - 1];
      NormalizeAllFirstFailure(p);
      assert forall i :: 0 <= i < |p| ==> p[i] == xs[i];
      if NormalizeAll(p).Failure? {
        var i :| 0 <= i < |p| && NormalizeItem(p[i]) == Failure(NormalizeAll(p).error)
          && forall j :: 0 <= j < i ==> NormalizeItem(p[j]).Success?;
        assert NormalizeItem(xs[i]) == Failure(NormalizeAll(xs).error);
      }
    }
  }

  /** A rejection of a prefix is the rejection of the whole list. */
  lemma {:induction false} NormalizeAllPrefixFailure(xs: seq<Value>, n: nat)
    requires n <= |xs| && NormalizeAll(xs[..n]).Failure?
    ensures NormalizeAll(xs) == NormalizeAll(xs[..n])
  {
    if n < |xs| {
      var p := xs[..|xs| - 1];
      assert p[..n] == xs[..n];
      NormalizeAllPrefixFailure(p, n);
    } else {
      assert xs[..n] == xs;
    }
  }

  /** `EmailData.validate_items`: the loop that builds `normalized_items`,
      returning the first error as soon as it is found. */
  method ValidateItems(v: Value) returns (r: Result<seq<NormalizedItem>, string>)
    ensures r == ValidateItemsResult(v)
  {
    if !v.List? {
      return Failure(NotAList);
    }
    var items := v.elems;
    var normalized: seq<NormalizedItem> := [];
    for i := 0 to |items|
      invariant NormalizeAll(items[..i]) == Success(normalized)
    {
      var item := items[i];
      assert items[..i + 1][..i] == items[..i];
      if !item.Dict? {
        NormalizeAllPrefixFailure(items, i + 1);
        return Failure(NotADictionary);
      }
      var skuKey := FindKey(item.entries, "sku");
      if skuKey.None? {
        NormalizeAllPrefixFailure(items, i + 1);
        return Failure(MissingSku);
      }
      var quantityKey := FindKey(item.entries, "quantity");
      if quantityKey.None? {
        NormalizeAllPrefixFailure(items, i + 1);
        return Failure(MissingQuantity);
      }
      var normalizedItem := NormalizedItem(item.entries[skuKey.value].1, item.entries[quantityKey.value].1);
      if !IsPositiveInt(normalizedItem.quantity) {
        NormalizeAllPrefixFailure(items, i + 1);
        return Failure(BadQuantity);
      }
      normalized := normalized + [normalizedItem];
    }
    assert items[..|items|] == items;
    r := Success(normalized);
  }
}
