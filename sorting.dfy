/** The sort stage of the catalogue pipeline. The source calls the stable
    `Array.prototype.sort` with one comparator per sort key; the model is a
    stable insertion sort over that comparator, and `Reverse` for 'newest'. */
module Sorting {
  import opened ProductTypes
  import opened Text

  /** The comparator the source passes to `sort` for each key; a positive
      result puts `b` before `a`. 'newest' does not sort, so it ties everything. */
  function Compare(key: SortBy, a: Product, b: Product): real {
    match key
    case PriceAsc => a.price - b.price
    case PriceDesc => b.price - a.price
    case Rating => b.rating - a.rating
    case Name => LocaleCompare(a.name, b.name) as real
    case Newest => 0.0
  }

  lemma CompareAntisymmetric(key: SortBy, a: Product, b: Product)
    ensures Compare(key, b, a) == -Compare(key, a, b)
  {
    if key == Name {
      LocaleCompareAntisymmetric(a.name, b.name);
    }
  }

  lemma CompareTransitive(key: SortBy, a: Product, b: Product, c: Product)
    requires Compare(key, a, b) <= 0.0 && Compare(key, b, c) <= 0.0
    ensures Compare(key, a, c) <= 0.0
  {
    if key == Name {
      LocaleCompareTransitive(a.name, b.name, c.name);
    }
  }

  /** `a` and `b` are equal under the key: the comparator returns 0. */
  predicate Tied(key: SortBy, a: Product, b: Product) {
    Compare(key, a, b) == 0.0
  }

  /** No element is placed after one it should follow. */
  predicate Sorted(key: SortBy, s: seq<Product>) {
    forall i, j :: 0 <= i < j < |s| ==> Compare(key, s[i], s[j]) <= 0.0
  }

  /** The elements of `s` tied with `p`, in their order in `s`. */
  function TieClass(key: SortBy, s: seq<Product>, p: Product): seq<Product> {
    if s == [] then []
    else (if Tied(key, s[0], p) then [s[0]] else []) + TieClass(key, s[1..], p)
  }

  /** Places `x` in front of the first element it does not come after. */
  function Insert(key: SortBy, x: Product, s: seq<Product>): seq<Product> {
    if s == [] || Compare(key, x, s[0]) <= 0.0 then [x] + s
    else [s[0]] + Insert(key, x, s[1..])
  }

  /** The stable sort `filtered.sort(comparator)`. */
  function StableSort(key: SortBy, s: seq<Product>): seq<Product> {
    if s == [] then [] else Insert(key, s[0], StableSort(key, s[1..]))
  }

  /** `filtered.reverse()`. */
  function Reverse(s: seq<Product>): (r: seq<Product>)
    ensures |r| == |s|
    ensures forall i :: 0 <= i < |s| ==> r[i] == s[|s| - 1 - i]
  {
    if s == [] then [] else Reverse(s[1..]) + [s[0]]
  }

  /** The whole sort switch: 'newest' reverses, every other key sorts. */
  function Arrange(key: SortBy, s: seq<Product>): seq<Product> {
    if key == Newest then Reverse(s) else StableSort(key, s)
  }

  lemma MultisetCons(s: seq<Product>)
    requires s != []
    ensures multiset(s) == multiset(s[1..]) + multiset{s[0]}
  {
    assert s == [s[0]] + s[1..];
  }

  lemma {:induction false} InsertPermutes(key: SortBy, x: Product, s: seq<Product>)
    ensures multiset(Insert(key, x, s)) == multiset(s) + multiset{x}
  {
    if s != [] && Compare(key, x, s[0]) > 0.0 {
      InsertPermutes(key, x, s[1..]);
      MultisetCons(s);
    }
  }

  /** The sort returns a permutation of its input. */
  lemma {:induction false} StableSortPermutes(key: SortBy, s: seq<Product>)
    ensures multiset(StableSort(key, s)) == multiset(s)
  {
    if s != [] {
      var rest := StableSort(key, s[1..]);
      StableSortPermutes(key, s[1..]);
      InsertPermutes(key, s[0], rest);
      MultisetCons(s);
    }
  }

  /** A lower bound of `x` and of every element of `s` bounds every element
      of the insertion. */
  lemma {:induction false} InsertBounded(key: SortBy, x: Product, s: seq<Product>, low: Product)
    requires Compare(key, low, x) <= 0.0
    requires forall i :: 0 <= i < |s| ==> Compare(key, low, s[i]) <= 0.0
    ensures forall i :: 0 <= i < |Insert(key, x, s)| ==> Compare(key, low, Insert(key, x, s)[i]) <= 0.0
  {
    if s != [] && Compare(key, x, s[0]) > 0.0 {
      InsertBounded(key, x, s[1..], low);
      var r := Insert(key, x, s);
      assert r == [s[0]] + Insert(key, x, s[1..]);
    }
  }

  lemma {:induction false} InsertSorted(key: SortBy, x: Product, s: seq<Product>)
    requires Sorted(key, s)
    ensures Sorted(key, Insert(key, x, s))
  {
    if s == [] {
    } else if Compare(key, x, s[0]) <= 0.0 {
      var r := [x] + s;
      forall i, j | 0 <= i < j < |r|
        ensures Compare(key, r[i], r[j]) <= 0.0
      {
        if i == 0 && j > 1 {
          CompareTransitive(key, x, s[0], s[j - 1]);
        }
      }
    } else {
      var tail := Insert(key, x, s[1..]);
      InsertSorted(key, x, s[1..]);
      CompareAntisymmetric(key, x, s[0]);
      InsertBounded(key, x, s[1..], s[0]);
      var r := [s[0]] + tail;
      assert forall j :: 0 < j < |r| ==> r[j] == tail[j - 1];
    }
  }

  /** The sort leaves its output ordered by the comparator. */
  lemma {:induction false} StableSortSorted(key: SortBy, s: seq<Product>)
    ensures Sorted(key, StableSort(key, s))
  {
    if s != [] {
      StableSortSorted(key, s[1..]);
      InsertSorted(key, s[0], StableSort(key, s[1..]));
    }
  }

  lemma {:induction false} TieClassAppend(key: SortBy, a: seq<Product>, b: seq<Product>, p: Product)
    ensures TieClass(key, a + b, p) == TieClass(key, a, p) + TieClass(key, b, p)
  {
    if a == [] {
      assert a + b == b;
    } else {
      assert (a + b)[1..] == a[1..] + b;
      TieClassAppend(key, a[1..], b, p);
    }
  }

  lemma {:induction false} InsertTieClass(key: SortBy, x: Product, s: seq<Product>, p: Product)
    ensures TieClass(key, Insert(key, x, s), p)
         == (if Tied(key, x, p) then [x] else []) + TieClass(key, s, p)
  {
    if s == [] || Compare(key, x, s[0]) <= 0.0 {
      TieClassAppend(key, [x], s, p);
    } else {
      InsertTieClass(key, x, s[1..], p);
      TieClassAppend(key, [s[0]], Insert(key, x, s[1..]), p);
      if Tied(key, x, p) && Tied(key, s[0], p) {
        CompareAntisymmetric(key, s[0], p);
        CompareTransitive(key, x, p, s[0]);
      }
    }
  }

  /** Stability: the elements tied with any `p` keep their input order. */
  lemma {:induction false} StableSortStable(key: SortBy, s: seq<Product>, p: Product)
    ensures TieClass(key, StableSort(key, s), p) == TieClass(key, s, p)
  {
    if s != [] {
      StableSortStable(key, s[1..], p);
      InsertTieClass(key, s[0], StableSort(key, s[1..]), p);
    }
  }

  /** What "sorted" means for each key, written in terms of the fields. */
  lemma SortedMeaning(key: SortBy, s: seq<Product>)
    requires Sorted(key, s)
    ensures key == PriceAsc ==> forall i, j :: 0 <= i < j < |s| ==> s[i].price <= s[j].price
    ensures key == PriceDesc ==> forall i, j :: 0 <= i < j < |s| ==> s[i].price >= s[j].price
    ensures key == Rating ==> forall i, j :: 0 <= i < j < |s| ==> s[i].rating >= s[j].rating
    ensures key == Name ==> forall i, j :: 0 <= i < j < |s| ==> LocaleCompare(s[i].name, s[j].name) <= 0
  {
    assert forall i, j :: 0 <= i < j < |s| ==> Compare(key, s[i], s[j]) <= 0.0;
  }

  /** Reversing twice gives back the input. */
  lemma ReverseInvolution(s: seq<Product>)
    ensures Reverse(Reverse(s)) == s
  {
    var once := Reverse(s);
    var r := Reverse(once);
    forall i | 0 <= i < |s|
      ensures r[i] == s[i]
    {
      assert r[i] == once[|s| - 1 - i];
    }
  }

  lemma ReversePermutes(s: seq<Product>)
    ensures multiset(Reverse(s)) == multiset(s)
  {
    if s != [] {
      ReversePermutes(s[1..]);
      MultisetCons(s);
    }
  }

  /** Every arrangement is a permutation of its input. */
  lemma ArrangePermutes(key: SortBy, s: seq<Product>)
    ensures multiset(Arrange(key, s)) == multiset(s)
  {
    if key == Newest { ReversePermutes(s); } else { StableSortPermutes(key, s); }
  }
}
