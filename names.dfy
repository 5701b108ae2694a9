/** The ID-to-name dictionaries the components label their charts with, the
    reverse lookup of the sidebar, and the decimal rendering behind the
    "Product {id}" fallback label. */
module Names {
  import opened Seqs
  import opened Events

  /** A dictionary literal is modelled by its keys and its values, position by
      position, in source order. */

  /** `d.get(id)`: the value of the last entry with key `id` (a later entry
      for the same key overrides an earlier one), or None. */
  function Lookup<K(==), V>(keys: seq<K>, values: seq<V>, id: K): (r: Option<V>)
    requires |keys| == |values|
    ensures r.Some? <==> id in keys
    ensures r.Some? ==> r.value in values
  {
    if keys == [] then None
    else if keys[|keys| - 1] == id then Some(values[|values| - 1])
    else Lookup(keys[..|keys| - 1], values[..|values| - 1], id)
  }

  /** With distinct keys, every key is looked up to its own value. */
  lemma {:induction false} LookupEntry<K, V>(keys: seq<K>, values: seq<V>, i: nat)
    requires |keys| == |values| && NoDup(keys) && i < |keys|
    ensures Lookup(keys, values, keys[i]) == Some(values[i])
  {
    var last := |keys| - 1;
    if i < last {
      LookupEntry(keys[..last], values[..last], i);
    }
  }

  /** `{v: k for k, v in d.items()}` looked up at `name`. */
  function ReverseLookup<V(==)>(keys: seq<int>, values: seq<V>, name: V): (r: Option<int>)
    requires |keys| == |values|
    ensures r.Some? <==> name in values
    ensures r.Some? ==> r.value in keys
  {
    Lookup(values, keys, name)
  }

  /** With distinct keys and values, the reverse dictionary undoes the
      dictionary and the dictionary undoes the reverse one. */
  lemma RoundTrip<V>(keys: seq<int>, values: seq<V>, id: int, name: V)
    requires |keys| == |values| && NoDup(keys) && NoDup(values)
    ensures id in keys ==> ReverseLookup(keys, values, Lookup(keys, values, id).value) == Some(id)
    ensures name in values ==> Lookup(keys, values, ReverseLookup(keys, values, name).value) == Some(name)
  {
    if id in keys {
      var i :| 0 <= i < |keys| && keys[i] == id;
      LookupEntry(keys, values, i);
      LookupEntry(values, keys, i);
    }
    if name in values {
      var i :| 0 <= i < |values| && values[i] == name;
      LookupEntry(values, keys, i);
      LookupEntry(keys, values, i);
    }
  }

  /** The keys of the three category dictionaries, which list the same IDs in the same order. */
  const CategoryIds: seq<int> := [
    4756105, 4145813, 2355072, 3607361, 982926, 2520377, 3010202, 4785201, 6823100, 5551999,
    1000001, 1000002, 1000003, 1000004, 1000005, 1000006, 1000007, 1000008, 1000009, 1000010]

  /** The sidebar's category names. */
  const SidebarNames: seq<string> := [
    "Beauty", "Pet Supplies", "Clothing", "Musical Instruments", "Baby Products", "Garden",
    "Books", "Health & Wellness", "Toys & Games", "Tools", "Automotive", "Electronics",
    "Furniture", "Grocery", "Watches", "Office Supplies", "Sports", "Home & Kitchen",
    "Shoes", "Jewelry"]

  /** The category analysis tab's names: 4756105 is "Electronics" there, like 1000002. */
  const AnalysisNames: seq<string> := [
    "Electronics", "Pet Supplies", "Clothing", "Musical Instruments", "Baby Products", "Garden",
    "Books", "Health & Wellness", "Toys & Games", "Tools", "Automotive", "Electronics",
    "Furniture", "Grocery", "Watches", "Office Supplies", "Sports", "Home & Kitchen",
    "Shoes", "Jewelry"]

  /** The overview tab's names: 2520377 is "Garden Tools" there. */
  const OverviewNames: seq<string> := [
    "Beauty", "Pet Supplies", "Clothing", "Musical Instruments", "Baby Products", "Garden Tools",
    "Books", "Health & Wellness", "Toys & Games", "Tools", "Automotive", "Electronics",
    "Furniture", "Grocery", "Watches", "Office Supplies", "Sports", "Home & Kitchen",
    "Shoes", "Jewelry"]

  const ProductIds: seq<int> := [
    812879, 138964, 3845720, 2331370, 2338453, 1535294, 2032668, 4211339, 33711523, 2367945,
    25203771, 25203772, 30102021, 30102022, 47852011, 47852012, 68231001, 68231002, 55519991, 55519992,
    10000011, 10000012, 10000021, 10000022, 10000031, 10000032, 10000041, 10000042, 10000051, 10000052,
    10000061, 10000062, 10000071, 10000072, 10000081, 10000082, 10000091, 10000092, 10000101, 10000102]

  const ProductLabels: seq<string> := [
    "Gaming Laptop", "Graphics Card", "MobilePhones", "Cat Litter Box", "Men's T-Shirt",
    "Women's Jacket", "Electric Guitar", "Digital Piano", "Baby Stroller", "Infant Diapers",
    "Garden Hose", "Outdoor Planter", "Mystery Novel", "Python Programming Book", "Vitamin C Tablets",
    "Resistance Bands", "LEGO Set", "Action Figure", "Electric Drill", "Screwdriver Set",
    "Car Vacuum Cleaner", "Dashboard Camera", "Wireless Earbuds", "Smartphone", "Office Chair",
    "Coffee Table", "Organic Almonds", "Pasta Pack", "Digital Sports Watch", "Leather Strap Watch",
    "Stapler", "Notebook Set", "Soccer Ball", "Tennis Racket", "Blender",
    "Air Fryer", "Running Shoes", "Leather Boots", "Gold Necklace", "Diamond Ring"]

  /** With distinct keys, a key is looked up to the value at its own position. */
  lemma LookupAt<K, V>(keys: seq<K>, values: seq<V>, id: K)
    requires |keys| == |values|
    ensures NoDup(keys) ==> forall i :: 0 <= i < |keys| && keys[i] == id ==> Lookup(keys, values, id) == Some(values[i])
  {
    if NoDup(keys) {
      forall i | 0 <= i < |keys| && keys[i] == id ensures Lookup(keys, values, id) == Some(values[i]) {
        LookupEntry(keys, values, i);
      }
    }
  }

  /** `d.get(id, fallback)`, and `map(d).fillna(fallback)` on one value: the
      name at the key's position, or the fallback for a key the dictionary
      does not have. */
  function NameOr(keys: seq<int>, names: seq<string>, id: int, fallback: string): (name: string)
    requires |keys| == |names|
    ensures id in keys ==> name in names
    ensures id !in keys ==> name == fallback
    ensures NoDup(keys) ==> forall i :: 0 <= i < |keys| && keys[i] == id ==> name == names[i]
  {
    LookupAt(keys, names, id);
    var r := Lookup(keys, names, id);
    if r.Some? then r.value else fallback
  }

  /** The first ten category IDs differ from one another and lie outside
      the block 1000001..1000010. */
  lemma CategoryIdsNamedBlock()
    ensures forall i, j :: 0 <= i < j < 10 ==> CategoryIds[i] != CategoryIds[j]
    ensures forall i :: 0 <= i < 10 ==> CategoryIds[i] < 1000001 || CategoryIds[i] > 1000010
  {
  }

  /** The last ten category IDs count up through 1000001..1000010. */
  lemma CategoryIdsCountingBlock()
    ensures forall i :: 10 <= i < 19 ==> CategoryIds[i] < CategoryIds[i + 1]
    ensures forall i :: 10 <= i < 20 ==> 1000001 <= CategoryIds[i] <= 1000010
  {
  }

  /** No category ID is listed twice. */
  lemma CategoryIdsDistinct()
    ensures NoDup(CategoryIds)
  {
    CategoryIdsNamedBlock();
    CategoryIdsCountingBlock();
    StepsIncreasing(CategoryIds, 10, 20);
  }

  /** The first ten product IDs differ from one another; all but one are
      below 5000000. */
  lemma ProductIdsFirstBlock()
    ensures forall i, j :: 0 <= i < j < 10 ==> ProductIds[i] != ProductIds[j]
    ensures forall i :: 0 <= i < 10 ==> ProductIds[i] < 5000000 || ProductIds[i] == 33711523
  {
  }

  /** The next ten product IDs differ from one another and from 33711523, and
      are at least 25000000. */
  lemma ProductIdsSecondBlock()
    ensures forall i, j :: 10 <= i < j < 20 ==> ProductIds[i] != ProductIds[j]
    ensures forall i :: 10 <= i < 20 ==> ProductIds[i] >= 25000000 && ProductIds[i] != 33711523
  {
  }

  /** The last twenty product IDs count up between 10000000 and 20000000. */
  lemma ProductIdsCountingBlock()
    ensures forall i :: 20 <= i < 39 ==> ProductIds[i] < ProductIds[i + 1]
    ensures forall i :: 20 <= i < 40 ==> 10000000 <= ProductIds[i] < 20000000
  {
  }

  /** No product ID is listed twice. */
  lemma ProductIdsDistinct()
    ensures NoDup(ProductIds)
  {
    ProductIdsFirstBlock();
    ProductIdsSecondBlock();
    ProductIdsCountingBlock();
    StepsIncreasing(ProductIds, 20, 40);
  }

  /** A category dictionary looked up at `id` with `get(id, fallback)`: since
      no category ID is listed twice, the name at the ID's own position. */
  function CategoryName(names: seq<string>, id: int, fallback: string): (name: string)
    requires |names| == |CategoryIds|
    ensures forall i :: 0 <= i < |CategoryIds| && CategoryIds[i] == id ==> name == names[i]
    ensures id !in CategoryIds ==> name == fallback
  {
    CategoryIdsDistinct();
    NameOr(CategoryIds, names, id, fallback)
  }

  /** The sidebar's reverse dictionary sends each category name back to its ID. */
  lemma SidebarReverse(i: nat)
    requires i < |CategoryIds|
    ensures ReverseLookup(CategoryIds, SidebarNames, SidebarNames[i]) == Some(CategoryIds[i])
  {
    SidebarNamesDistinct();
    LookupEntry(SidebarNames, CategoryIds, i);
  }

  /** "Other", the sidebar's fallback name, has no entry in its reverse dictionary. */
  lemma OtherHasNoId()
    ensures ReverseLookup(CategoryIds, SidebarNames, "Other") == None
  {
    assert "Other" !in SidebarNames;
  }

  /** No two sidebar names agree in both length and first letter. */
  lemma SidebarNamesDistinct()
    ensures NoDup(SidebarNames)
  {
    forall i, j | 0 <= i < j < |SidebarNames| ensures SidebarNames[i] != SidebarNames[j] {
      assert |SidebarNames[i]| != |SidebarNames[j]| || SidebarNames[i][0] != SidebarNames[j][0];
    }
  }

  /** The decimal digits of a natural number, most significant first (`str(n)`). */
  function Digits(n: nat): (s: string)
    ensures |s| >= 1
    ensures forall i :: 0 <= i < |s| ==> '0' <= s[i] <= '9'
    ensures n > 0 ==> s[0] != '0'
  {
    if n < 10 then [DigitChar(n)] else Digits(n / 10) + [DigitChar(n % 10)]
  }

  function DigitChar(d: nat): (c: char)
    requires d < 10
    ensures '0' <= c <= '9'
  {
    (d + '0' as int) as char
  }

  /** `str(i)` of a Python int: an optional minus sign, then the digits. */
  function IntString(i: int): string
  {
    if i < 0 then "-" + Digits(-i) else Digits(i)
  }

  /** The value of a string of decimal digits. */
  function DigitsValue(s: string): int
  {
    if s == [] then 0 else DigitsValue(s[..|s| - 1]) * 10 + (s[|s| - 1] as int - '0' as int)
  }

  /** Reading an integer back from `str(i)`. */
  function ParseInt(s: string): int
  {
    if |s| > 0 && s[0] == '-' then -DigitsValue(s[1..]) else DigitsValue(s)
  }

  lemma {:induction false} DigitsRoundTrip(n: nat)
    ensures DigitsValue(Digits(n)) == n
  {
    if n >= 10 {
      DigitsRoundTrip(n / 10);
      var s := Digits(n);
      assert s[..|s| - 1] == Digits(n / 10);
    }
  }

  /** `str` on integers is injective: the label text determines the integer. */
  lemma IntStringRoundTrip(i: int)
    ensures ParseInt(IntString(i)) == i
  {
    if i < 0 {
      DigitsRoundTrip(-i);
      assert IntString(i)[1..] == Digits(-i);
    } else {
      DigitsRoundTrip(i);
    }
  }

  /** `get_product_name`: the product's name, or "Product {id}" for an unknown ID. */
  function ProductName(id: int): (name: string)
    ensures forall i :: 0 <= i < |ProductIds| && ProductIds[i] == id ==> name == ProductLabels[i]
    ensures id !in ProductIds ==> name == "Product " + IntString(id)
  {
    ProductIdsDistinct();
    NameOr(ProductIds, ProductLabels, id, "Product " + IntString(id))
  }

  /** An unknown product's label names its ID, so different unknown IDs get
      different labels. */
  lemma FallbackLabelNamesId(id: int)
    requires id !in ProductIds
    ensures ParseInt(ProductName(id)[8..]) == id
  {
    assert ProductName(id)[8..] == IntString(id);
    IntStringRoundTrip(id);
  }
}
