/** `sorted(keys)` for a set of symbols. */
module SortedKeys {
  import Sorting
  import TextOrder

  ghost predicate Lists(symbols: seq<string>, keys: set<string>) {
    Sorting.StrictlySorted(symbols, TextOrder.Less) && forall s :: s in symbols <==> s in keys
  }

  lemma LessIsWeakOrder()
    ensures Sorting.StrictWeakOrder(TextOrder.Less)
  {
    forall x: string ensures !TextOrder.Less(x, x) { TextOrder.Irreflexive(x); }
    forall x: string, y: string, z: string | TextOrder.Less(x, y) && TextOrder.Less(y, z) ensures TextOrder.Less(x, z) {
      TextOrder.Transitive(x, y, z);
    }
    forall x: string, y: string, z: string | TextOrder.Less(x, z) ensures TextOrder.Less(x, y) || TextOrder.Less(y, z) {
      TextOrder.Total(x, y);
      if TextOrder.Less(y, x) { TextOrder.Transitive(y, x, z); }
    }
  }

  lemma {:induction false} InsertNew(x: string, s: seq<string>)
    requires Sorting.StrictlySorted(s, TextOrder.Less) && x !in s
    ensures Sorting.StrictlySorted(Sorting.Insert(x, s, TextOrder.Less), TextOrder.Less)
    ensures forall y :: y in Sorting.Insert(x, s, TextOrder.Less) <==> y == x || y in s
  {
    LessIsWeakOrder();
    Sorting.InsertElements(x, s, TextOrder.Less);
    if s != [] {
      TextOrder.Total(s[0], x);
      if TextOrder.Less(s[0], x) {
        InsertNew(x, s[1..]);
        StaysSorted(s[0], Sorting.Insert(x, s[1..], TextOrder.Less));
      } else {
        ComesFirst(x, s);
      }
    }
  }

  lemma StaysSorted(first: string, rest: seq<string>)
    requires Sorting.StrictlySorted(rest, TextOrder.Less) && forall y | y in rest :: TextOrder.Less(first, y)
    ensures Sorting.StrictlySorted([first] + rest, TextOrder.Less)
  {
    forall j | 0 <= j < |rest| ensures TextOrder.Less(first, rest[j]) { assert rest[j] in rest; }
  }

  lemma ComesFirst(x: string, s: seq<string>)
    requires Sorting.StrictlySorted(s, TextOrder.Less) && s != [] && TextOrder.Less(x, s[0])
    ensures Sorting.StrictlySorted([x] + s, TextOrder.Less)
  {
    forall j | 0 <= j < |s| ensures TextOrder.Less(x, s[j]) {
      if j > 0 { TextOrder.Transitive(x, s[0], s[j]); }
    }
  }

  ghost function Keys(keys: set<string>): (r: seq<string>)
    ensures Lists(r, keys)
  {
    if keys == {} then []
    else
      var k :| k in keys;
      var rest := Keys(keys - {k});
      InsertNew(k, rest);
      Sorting.Insert(k, rest, TextOrder.Less)
  }

  lemma ListingIsUnique(symbols: seq<string>, keys: set<string>)
    requires Lists(symbols, keys)
    ensures symbols == Keys(keys)
  {
    LessIsWeakOrder();
    Sorting.StrictlySortedUnique(symbols, Keys(keys), TextOrder.Less);
  }

  lemma KeysAreDistinct(keys: set<string>, i: nat, j: nat)
    requires i < j < |Keys(keys)|
    ensures Keys(keys)[i] != Keys(keys)[j]
  {
    LessIsWeakOrder();
  }

  method SortKeys(keys: set<string>) returns (symbols: seq<string>)
    ensures symbols == Keys(keys)
  {
    symbols := [];
    var rest := keys;
    while rest != {}
      invariant rest <= keys && Lists(symbols, keys - rest)
    {
      var k :| k in rest;
      InsertNew(k, symbols);
      symbols := Sorting.Insert(k, symbols, TextOrder.Less);
      rest := rest - {k};
    }
    ListingIsUnique(symbols, keys);
  }
}
