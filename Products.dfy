// src/config/products.ts: the inventory table and the nested loops of
// `generateProducts` that turn it into the product catalogue.

module Products {
  import opened Text

  datatype MattressModel = MattressModel(model: nat, firmness: string)

  /** A size and its price, in the order the table lists them. */
  datatype SizePrice = SizePrice(size: string, price: real)

  datatype MattressRange = MattressRange(name: string, models: seq<MattressModel>, sizes: seq<SizePrice>)

  datatype Product = Product(sku: string, name: string, price: real, range: string, model: nat,
                             firmness: string, size: string)

  const Sizes := ["King", "Queen", "Double", "King Single", "Single"]

  function SizeTable(prices: seq<real>): (r: seq<SizePrice>)
    requires |prices| == 5
    ensures |r| == 5
  {
    [SizePrice(Sizes[0], prices[0]), SizePrice(Sizes[1], prices[1]), SizePrice(Sizes[2], prices[2]),
     SizePrice(Sizes[3], prices[3]), SizePrice(Sizes[4], prices[4])]
  }

  const CloudModels := [
    MattressModel(2, "softer"), MattressModel(3, "softer"), MattressModel(4, "softer"),
    MattressModel(5, "medium"), MattressModel(6, "medium"), MattressModel(7, "medium"),
    MattressModel(8, "firmer"), MattressModel(9, "firmer"), MattressModel(10, "firmer"),
    MattressModel(11, "very firm"), MattressModel(12, "very firm"), MattressModel(13, "very firm")]

  const AuroraModels := [
    MattressModel(2, "softer"), MattressModel(3, "softer"), MattressModel(4, "softer"),
    MattressModel(5, "medium"), MattressModel(6, "medium"), MattressModel(7, "medium"),
    MattressModel(8, "firmer"), MattressModel(9, "firmer"), MattressModel(10, "firmer"),
    MattressModel(11, "very firm"), MattressModel(12, "very firm"), MattressModel(13, "very firm"),
    MattressModel(14, "super firm"), MattressModel(15, "super firm"), MattressModel(16, "super firm"),
    MattressModel(17, "firmest"), MattressModel(18, "firmest"), MattressModel(19, "firmest")]

  const CooperModels := [
    MattressModel(5, "medium"), MattressModel(6, "medium"), MattressModel(7, "medium"),
    MattressModel(8, "firmer"), MattressModel(9, "firmer"), MattressModel(10, "firmer")]

  const TestModels := [MattressModel(1, "test")]

  /** `inventoryData`, in declaration order. */
  const Inventory: seq<MattressRange> := [
    MattressRange("Cloud", CloudModels, SizeTable([3190.0, 2940.0, 2650.0, 2350.0, 1950.0])),
    MattressRange("Aurora", AuroraModels, SizeTable([2750.0, 2450.0, 2350.0, 1950.0, 1700.0])),
    MattressRange("Cooper", CooperModels, SizeTable([1750.0, 1500.0, 1350.0, 1150.0, 850.0])),
    MattressRange("ZTest", TestModels, SizeTable([0.51, 0.51, 0.51, 0.51, 0.51]))
  ]

  /** `s.replace(/\s+/g, '')` */
  function RemoveSpaces(s: string): (r: string)
    ensures NoSpace(r)
  {
    if |s| == 0 then ""
    else if IsSpace(s[0]) then RemoveSpaces(s[1..])
    else [s[0]] + RemoveSpaces(s[1..])
  }

  /** The SKU: range, model number, and the size lowercased without white space. */
  function Sku(range: string, model: nat, size: string): string
  {
    range + NatToString(model) + RemoveSpaces(Lower(size))
  }

  /** One product of the catalogue. */
  function MakeProduct(range: string, m: MattressModel, s: SizePrice): Product
  {
    Product(Sku(range, m.model, s.size),
            range + " " + NatToString(m.model) + " - " + m.firmness + " - " + s.size,
            s.price, range, m.model, m.firmness, s.size)
  }

  /** The products of one model, one per size, in size order. */
  function SizeProducts(range: string, m: MattressModel, sizes: seq<SizePrice>): (r: seq<Product>)
    ensures |r| == |sizes|
    decreases |sizes|
  {
    if |sizes| == 0 then []
    else SizeProducts(range, m, sizes[..|sizes| - 1]) + [MakeProduct(range, m, sizes[|sizes| - 1])]
  }

  /** The products of a range's models, model by model. */
  function ModelProducts(range: string, models: seq<MattressModel>, sizes: seq<SizePrice>): seq<Product>
    decreases |models|
  {
    if |models| == 0 then []
    else ModelProducts(range, models[..|models| - 1], sizes) + SizeProducts(range, models[|models| - 1], sizes)
  }

  /** The catalogue: ranges in order, then models, then sizes. */
  function Catalogue(table: seq<MattressRange>): seq<Product>
    decreases |table|
  {
    if |table| == 0 then []
    else
      var r := table[|table| - 1];
      Catalogue(table[..|table| - 1]) + ModelProducts(r.name, r.models, r.sizes)
  }

  /** `generateProducts()` over `table`: one pass per range, in order. */
  method GenerateProducts(table: seq<MattressRange>) returns (products: seq<Product>)
    ensures products == Catalogue(table)
  {
    products := [];
    for i := 0 to |table|
      invariant products == Catalogue(table[..i])
    {
      products := PushRange(products, table[i]);
      CatalogueStep(table, i);
    }
    assert table[..|table|] == table;
  }

  /** The callback over one range: one pass per model. */
  method PushRange(products: seq<Product>, r: MattressRange) returns (out: seq<Product>)
    ensures out == products + ModelProducts(r.name, r.models, r.sizes)
  {
    out := products;
    for j := 0 to |r.models|
      invariant out == products + ModelProducts(r.name, r.models[..j], r.sizes)
    {
      ghost var before := ModelProducts(r.name, r.models[..j], r.sizes);
      ghost var step := SizeProducts(r.name, r.models[j], r.sizes);
      out := PushModel(out, r.name, r.models[j], r.sizes);
      ModelStep(r.name, r.models, r.sizes, j);
      assert out == products + (before + step);
    }
    assert r.models[..|r.models|] == r.models;
  }

  /** The callback over one model: one product per size. */
  method PushModel(products: seq<Product>, range: string, m: MattressModel, sizes: seq<SizePrice>)
    returns (out: seq<Product>)
    ensures out == products + SizeProducts(range, m, sizes)
  {
    out := products;
    for k := 0 to |sizes|
      invariant out == products + SizeProducts(range, m, sizes[..k])
    {
      SizeStep(range, m, sizes, k);
      out := out + [MakeProduct(range, m, sizes[k])];
    }
    assert sizes[..|sizes|] == sizes;
  }

  lemma SizeStep(range: string, m: MattressModel, sizes: seq<SizePrice>, k: nat)
    requires k < |sizes|
    ensures SizeProducts(range, m, sizes[..k + 1]) == SizeProducts(range, m, sizes[..k]) + [MakeProduct(range, m, sizes[k])]
  {
    assert sizes[..k + 1][..k] == sizes[..k];
  }

  lemma ModelStep(range: string, models: seq<MattressModel>, sizes: seq<SizePrice>, j: nat)
    requires j < |models|
    ensures ModelProducts(range, models[..j + 1], sizes) ==
            ModelProducts(range, models[..j], sizes) + SizeProducts(range, models[j], sizes)
  {
    assert models[..j + 1][..j] == models[..j];
  }

  lemma CatalogueStep(table: seq<MattressRange>, i: nat)
    requires i < |table|
    ensures Catalogue(table[..i + 1]) ==
            Catalogue(table[..i]) + ModelProducts(table[i].name, table[i].models, table[i].sizes)
  {
    assert table[..i + 1][..i] == table[..i];
  }

  // ---------------------------------------------------------------------
  // What the catalogue holds

  function CountFor(table: seq<MattressRange>): nat
    decreases |table|
  {
    if |table| == 0 then 0
    else CountFor(table[..|table| - 1]) + |table[|table| - 1].models| * |table[|table| - 1].sizes|
  }

  lemma {:induction false} ModelProductsLength(range: string, models: seq<MattressModel>, sizes: seq<SizePrice>)
    ensures |ModelProducts(range, models, sizes)| == |models| * |sizes|
    decreases |models|
  {
    if |models| > 0 {
      var n := |models| - 1;
      ModelProductsLength(range, models[..n], sizes);
      assert |ModelProducts(range, models, sizes)| == n * |sizes| + |sizes|;
      assert n * |sizes| + |sizes| == (n + 1) * |sizes|;
    }
  }

  /** One product per range, model and size. */
  lemma {:induction false} CatalogueLength(table: seq<MattressRange>)
    ensures |Catalogue(table)| == CountFor(table)
    decreases |table|
  {
    if |table| > 0 {
      CatalogueLength(table[..|table| - 1]);
      var r := table[|table| - 1];
      ModelProductsLength(r.name, r.models, r.sizes);
    }
  }

  /** The shipped table lists 37 models in five sizes each. */
  lemma InventoryCount()
    ensures CountFor(Inventory) == 185
  {
    var t := Inventory;
    assert |CloudModels| == 12 && |AuroraModels| == 18 && |CooperModels| == 6 && |TestModels| == 1;
    assert t[..4] == t;
    assert t[..4][..3] == t[..3] && t[..3][..2] == t[..2] && t[..2][..1] == t[..1] && t[..1][..0] == [];
    assert CountFor(t[..1]) == 60;
    assert CountFor(t[..2]) == 150;
    assert CountFor(t[..3]) == 180;
  }

  /** The shipped inventory gives 185 products. */
  lemma InventorySize()
    ensures |Catalogue(Inventory)| == 185
  {
    CatalogueLength(Inventory);
    InventoryCount();
  }

  /** Every product of a model is built from that model and one of the sizes, in order. */
  lemma {:induction false} SizeProductsAt(range: string, m: MattressModel, sizes: seq<SizePrice>, k: nat)
    requires k < |sizes|
    ensures SizeProducts(range, m, sizes)[k] == MakeProduct(range, m, sizes[k])
    decreases |sizes|
  {
    if k < |sizes| - 1 {
      SizeProductsAt(range, m, sizes[..|sizes| - 1], k);
    }
  }

  /** Model `j` and size `k` give a product of the range. */
  lemma {:induction false} ModelProductsHas(range: string, models: seq<MattressModel>, sizes: seq<SizePrice>,
                                            j: nat, k: nat)
    requires j < |models| && k < |sizes|
    ensures MakeProduct(range, models[j], sizes[k]) in ModelProducts(range, models, sizes)
    decreases |models|
  {
    var init := models[..|models| - 1];
    if j < |models| - 1 {
      ModelProductsHas(range, init, sizes, j, k);
    } else {
      SizeProductsAt(range, models[j], sizes, k);
    }
  }

  /** Each product of a range comes from one of its models and one of its sizes. */
  lemma {:induction false} ModelProductsSource(range: string, models: seq<MattressModel>, sizes: seq<SizePrice>,
                                               u: nat) returns (j: nat, k: nat)
    requires u < |ModelProducts(range, models, sizes)|
    ensures j < |models| && k < |sizes|
    ensures ModelProducts(range, models, sizes)[u] == MakeProduct(range, models[j], sizes[k])
    decreases |models|
  {
    var init := models[..|models| - 1];
    var before := ModelProducts(range, init, sizes);
    if u < |before| {
      j, k := ModelProductsSource(range, init, sizes, u);
    } else {
      j, k := |models| - 1, u - |before|;
      SizeProductsAt(range, models[j], sizes, k);
    }
  }

  /** Every range, model and size of the table has its product in the catalogue. */
  lemma {:induction false} CatalogueHas(table: seq<MattressRange>, i: nat, j: nat, k: nat)
    requires i < |table| && j < |table[i].models| && k < |table[i].sizes|
    ensures MakeProduct(table[i].name, table[i].models[j], table[i].sizes[k]) in Catalogue(table)
    decreases |table|
  {
    var init := table[..|table| - 1];
    if i == |table| - 1 {
      ModelProductsHas(table[i].name, table[i].models, table[i].sizes, j, k);
    } else {
      assert table[i] == init[i];
      CatalogueHas(init, i, j, k);
    }
  }

  /**
   * Every product of the catalogue is the product of one range, model and
   * size of the table: its name, SKU and price come from its own range's row.
   */
  lemma {:induction false} CatalogueSource(table: seq<MattressRange>, t: nat) returns (i: nat, j: nat, k: nat)
    requires t < |Catalogue(table)|
    ensures i < |table| && j < |table[i].models| && k < |table[i].sizes|
    ensures Catalogue(table)[t] == MakeProduct(table[i].name, table[i].models[j], table[i].sizes[k])
    decreases |table|
  {
    var init := table[..|table| - 1];
    var before := Catalogue(init);
    if t < |before| {
      i, j, k := CatalogueSource(init, t);
      assert table[i] == init[i];
    } else {
      i := |table| - 1;
      j, k := ModelProductsSource(table[i].name, table[i].models, table[i].sizes, t - |before|);
    }
  }

  // ---------------------------------------------------------------------
  // SKUs

  lemma {:induction false} LowerKeepsLetters(s: string)
    requires forall i :: 0 <= i < |s| ==> IsLetter(s[i]) || IsSpace(s[i])
    ensures forall i :: 0 <= i < |Lower(s)| ==> IsLetter(Lower(s)[i]) || IsSpace(Lower(s)[i])
  {
  }

  lemma {:induction false} RemoveSpacesOfLetters(s: string)
    requires forall i :: 0 <= i < |s| ==> IsLetter(s[i]) || IsSpace(s[i])
    ensures AllLetters(RemoveSpaces(s))
    decreases |s|
  {
    if |s| > 0 { RemoveSpacesOfLetters(s[1..]); }
  }

  /** Removing white space and lower-casing can be done in either order. */
  lemma {:induction false} RemoveSpacesLower(s: string)
    ensures RemoveSpaces(Lower(s)) == Lower(RemoveSpaces(s))
    decreases |s|
  {
    if |s| > 0 {
      RemoveSpacesLower(s[1..]);
      assert Lower(s)[1..] == Lower(s[1..]);
      assert IsSpace(LowerChar(s[0])) <==> IsSpace(s[0]);
    }
  }

  /** The SKU in lower case: the range in lower case, the model's digits and the size's letters in lower case. */
  lemma LowerSku(range: string, model: nat, size: string)
    ensures Lower(Sku(range, model, size)) == Lower(range) + NatToString(model) + RemoveSpaces(Lower(size))
  {
    var d := NatToString(model);
    var t := RemoveSpaces(Lower(size));
    NatToStringDigits(model);
    LowerOfDigits(d);
    RemoveSpacesLower(size);
    LowerIdempotent(RemoveSpaces(size));
    LowerConcat(range, d);
    LowerConcat(range + d, t);
  }

  /** A letters-digits-letters string splits back into its three parts in one way only. */
  lemma {:induction false} LettersDigitsLetters(a: string, d: string, z: string, a': string, d': string, z': string)
    requires AllLetters(a) && AllLetters(a') && AllDigits(d) && AllDigits(d') && |d| > 0 && |d'| > 0
    requires AllLetters(z) && AllLetters(z')
    requires a + d + z == a' + d' + z'
    ensures a == a' && d == d' && z == z'
  {
    assert (d + z)[0] == d[0] && (d' + z')[0] == d'[0];
    assert a + d + z == a + (d + z) && a' + d' + z' == a' + (d' + z');
    LetterRunLength(a, d + z, a', d' + z');
    assert a == (a + d + z)[..|a|] == a';
    assert d + z == (a + (d + z))[|a|..] == d' + z';
    LetterRunLength(d, z, d', z');
    assert d == (d + z)[..|d|] == d';
  }

  /**
   * Two runs of one class of characters, each followed by a character of the other class (or by the end),
   * that make up the same string have the same length.
   */
  lemma LetterRunLength(a: string, x: string, a': string, x': string)
    requires a + x == a' + x'
    requires (AllLetters(a) && AllLetters(a') && (|x| > 0 ==> IsDigit(x[0])) && (|x'| > 0 ==> IsDigit(x'[0])))
          || (AllDigits(a) && AllDigits(a') && (|x| > 0 ==> IsLetter(x[0])) && (|x'| > 0 ==> IsLetter(x'[0])))
    ensures |a| == |a'|
  {
    if |a'| < |a| {
      CharAcross(a, x, a', x', |a'|);
      assert false;
    } else if |a| < |a'| {
      CharAcross(a', x', a, x, |a|);
      assert false;
    }
  }

  lemma CharAcross(a: string, x: string, a': string, x': string, i: nat)
    requires a + x == a' + x' && |a'| <= i < |a|
    ensures a[i] == x'[i - |a'|]
  {
    assert a[i] == (a + x)[i];
  }

  /**
   * Range names are letters, models are numbers and sizes are letters and
   * spaces, so the SKU determines the range, the model and the normalised size.
   */
  lemma SkuDeterminesProduct(range: string, model: nat, size: string, range': string, model': nat, size': string)
    requires AllLetters(range) && AllLetters(range')
    requires forall i :: 0 <= i < |size| ==> IsLetter(size[i]) || IsSpace(size[i])
    requires forall i :: 0 <= i < |size'| ==> IsLetter(size'[i]) || IsSpace(size'[i])
    requires Sku(range, model, size) == Sku(range', model', size')
    ensures range == range' && model == model' && RemoveSpaces(Lower(size)) == RemoveSpaces(Lower(size'))
  {
    NatToStringDigits(model);
    NatToStringDigits(model');
    LowerKeepsLetters(size);
    LowerKeepsLetters(size');
    RemoveSpacesOfLetters(Lower(size));
    RemoveSpacesOfLetters(Lower(size'));
    LettersDigitsLetters(range, NatToString(model), RemoveSpaces(Lower(size)),
                         range', NatToString(model'), RemoveSpaces(Lower(size')));
  }
}
