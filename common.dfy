/** Records shared between the server and the browser views, and the small
    list and string operations (filter, sum, find, sort, `includes`,
    `toLowerCase`, decimal rendering) that every part of the model uses. */
module Common {

  datatype Option<T> = None | Some(value: T)

  /** Milliseconds in one day: the unit of the `Date` arithmetic. */
  const DayMs: int := 86400000

  /** The UTC calendar day (days since the epoch) of a millisecond timestamp,
      i.e. `new Date(ms).toISOString().split('T')[0]` as a day number. */
  function DayOf(ms: int): int { ms / DayMs }

  // ---------------------------------------------------------------------
  // Records kept in the browser's storage or exchanged as JSON
  // ---------------------------------------------------------------------

  /** An inventory row as the browser sees it. `stock` and `price` may be
      absent in stored JSON (the views read them as `item.stock || 0`). */
  datatype Supply = Supply(name: string, stock: Option<int>, price: Option<int>, category: string)

  function StockOr0(s: Supply): int { if s.stock.Some? then s.stock.value else 0 }
  function PriceOr0(s: Supply): int { if s.price.Some? then s.price.value else 0 }

  /** A patient record. Dates are day numbers; an absent `department` is None. */
  datatype Patient = Patient(
    id: string, name: string, age: int, gender: string, contact: string,
    address: string, diagnosis: string, admissionDate: int,
    dischargeDate: Option<int>, status: string, doctor: string,
    department: Option<string>)

  /** One line of a bill: a service from the price table times a quantity. */
  datatype BillLine = BillLine(
    id: int, service: string, category: string, unitPrice: int,
    quantity: int, totalPrice: int)

  /** A generated bill as kept in the billing history. `date` is a day number. */
  datatype Bill = Bill(
    id: string, patientId: string, patientName: string, date: int,
    items: seq<BillLine>, total: int, status: string, paymentMethod: string)

  /** The `revenueStatistics` counters (absent storage reads as all zeros). */
  datatype RevenueStats = RevenueStats(totalRevenue: int, patientCount: int, billCount: int)

  /** The signed-in user as the browser keeps it (the login reply). */
  datatype SessionUser = SessionUser(username: string, role: string, userType: string)

  // ---------------------------------------------------------------------
  // Decimal rendering, as `${n}` in a template literal
  // ---------------------------------------------------------------------

  function DigitChar(d: nat): char
    requires d < 10
  {
    ('0' as int + d) as char
  }

  predicate AllDigits(s: string) {
    forall i :: 0 <= i < |s| ==> '0' <= s[i] <= '9'
  }

  function DecimalString(n: nat): (s: string)
    ensures |s| >= 1 && AllDigits(s)
  {
    if n < 10 then [DigitChar(n)] else DecimalString(n / 10) + [DigitChar(n % 10)]
  }

  /** `${n}` for any integer: a minus sign before the digits of a negative one. */
  function IntString(n: int): (s: string)
    ensures |s| >= 1
    ensures n >= 0 ==> s == DecimalString(n)
    ensures n < 0 ==> s == "-" + DecimalString(-n)
  {
    if n >= 0 then DecimalString(n) else "-" + DecimalString(-n)
  }

  /** Reads back a string of digits: the inverse of DecimalString. */
  function ParseDecimal(s: string): nat
    requires AllDigits(s)
  {
    if s == [] then 0 else ParseDecimal(s[..|s| - 1]) * 10 + (s[|s| - 1] as int - '0' as int)
  }

  lemma {:induction false} ParseDecimalString(n: nat)
    ensures ParseDecimal(DecimalString(n)) == n
  {
    if n >= 10 {
      var s := DecimalString(n);
      assert s[..|s| - 1] == DecimalString(n / 10);
      ParseDecimalString(n / 10);
    }
  }

  /** Two different numbers never render to the same text. */
  lemma DecimalStringInjective(a: nat, b: nat)
    ensures DecimalString(a) == DecimalString(b) ==> a == b
  {
    ParseDecimalString(a);
    ParseDecimalString(b);
  }

  // ---------------------------------------------------------------------
  // Strings: `toLowerCase` (ASCII letters) and `includes`
  // ---------------------------------------------------------------------

  function LowerChar(c: char): char {
    if 'A' <= c <= 'Z' then (c as int + 32) as char else c
  }

  function Lower(s: string): (r: string)
    ensures |r| == |s|
    ensures forall i :: 0 <= i < |s| ==> r[i] == LowerChar(s[i])
  {
    seq(|s|, i requires 0 <= i < |s| => LowerChar(s[i]))
  }

  predicate OccursAt(hay: string, needle: string, i: int) {
    0 <= i && i + |needle| <= |hay| && hay[i..i + |needle|] == needle
  }

  /** `hay.includes(needle)` */
  predicate Contains(hay: string, needle: string) {
    exists i :: 0 <= i <= |hay| - |needle| && OccursAt(hay, needle, i)
  }

  /** `hay.toLowerCase().includes(needle.toLowerCase())` */
  predicate ContainsIgnoreCase(hay: string, needle: string) {
    Contains(Lower(hay), Lower(needle))
  }

  lemma ContainsEmpty(hay: string)
    ensures Contains(hay, "")
  {
    assert OccursAt(hay, "", 0);
  }

  /** Every character of a contained needle occurs in the haystack. */
  lemma ContainsChar(hay: string, needle: string, c: char)
    requires Contains(hay, needle) && c in needle
    ensures c in hay
  {
    var i :| 0 <= i <= |hay| - |needle| && OccursAt(hay, needle, i);
    var k :| 0 <= k < |needle| && needle[k] == c;
    assert hay[i..i + |needle|][k] == hay[i + k];
  }

  /** A haystack that lacks one of the needle's characters does not contain it. */
  lemma MissingCharNotContains(hay: string, needle: string, c: char)
    requires c in needle && c !in hay
    ensures !Contains(hay, needle)
  {
    if Contains(hay, needle) {
      ContainsChar(hay, needle, c);
    }
  }

  /** A lower-case letter absent from s in both cases is absent from Lower(s). */
  lemma LowerLacks(s: string, c: char)
    requires 'a' <= c <= 'z' && c !in s && (c as int - 32) as char !in s
    ensures c !in Lower(s)
  {
    forall i | 0 <= i < |s| ensures Lower(s)[i] != c {
      assert s[i] != c && s[i] != (c as int - 32) as char;
    }
  }

  lemma LowerAppend(a: string, b: string)
    ensures Lower(a + b) == Lower(a) + Lower(b)
  {
  }

  /** A character the needle does not have splits the haystack: an occurrence
      lies wholly on one side of it. */
  lemma SplitNotContains(a: string, c: char, b: string, needle: string)
    requires c !in needle && !Contains(a, needle) && !Contains(b, needle)
    ensures !Contains(a + [c] + b, needle)
  {
    var s := a + [c] + b;
    forall i | 0 <= i <= |s| - |needle| ensures !OccursAt(s, needle, i) {
      if i + |needle| <= |a| {
        assert s[i..i + |needle|] == a[i..i + |needle|];
        assert !OccursAt(a, needle, i);
      } else if i > |a| {
        var j := i - |a| - 1;
        assert s[i..i + |needle|] == b[j..j + |needle|];
        assert !OccursAt(b, needle, j);
      } else {
        assert s[i..i + |needle|][|a| - i] == c;
      }
    }
  }

  // ---------------------------------------------------------------------
  // Lists: filter, count, sum, find
  // ---------------------------------------------------------------------

  /** `xs.filter(p)`: the elements satisfying p, in their original order. */
  function Filter<T(==)>(xs: seq<T>, p: T -> bool): (r: seq<T>)
    ensures |r| <= |xs|
    ensures forall i :: 0 <= i < |r| ==> r[i] in xs && p(r[i])
    ensures forall i :: 0 <= i < |xs| && p(xs[i]) ==> xs[i] in r
    ensures multiset(r) <= multiset(xs)
  {
    if xs == [] then []
    else
      assert xs == [xs[0]] + xs[1..];
      (if p(xs[0]) then [xs[0]] else []) + Filter(xs[1..], p)
  }

  /** Filtering keeps every copy of a matching element and no copy of any
      other: its multiset is exactly the matching part of the input's. */
  lemma FilterMultiset<T>(xs: seq<T>, p: T -> bool)
    ensures forall x :: multiset(Filter(xs, p))[x] == if p(x) then multiset(xs)[x] else 0
  {
    forall x {
      FilterCount(xs, p, x);
    }
  }

  /** The same, one element at a time. */
  lemma {:induction false} FilterCount<T>(xs: seq<T>, p: T -> bool, x: T)
    ensures multiset(Filter(xs, p))[x] == if p(x) then multiset(xs)[x] else 0
  {
    if xs != [] {
      var head := if p(xs[0]) then [xs[0]] else [];
      FilterCount(xs[1..], p, x);
      FilterHead(xs, p);
      assert multiset(Filter(xs, p)) == multiset(head) + multiset(Filter(xs[1..], p));
      assert xs == [xs[0]] + xs[1..];
      assert multiset(xs) == multiset{xs[0]} + multiset(xs[1..]);
    }
  }

  /** Filtering keeps order: it distributes over concatenation. */
  lemma {:induction false} FilterAppend<T>(a: seq<T>, b: seq<T>, p: T -> bool)
    ensures Filter(a + b, p) == Filter(a, p) + Filter(b, p)
  {
    if a != [] {
      assert (a + b)[0] == a[0] && (a + b)[1..] == a[1..] + b;
      FilterAppend(a[1..], b, p);
    } else {
      assert a + b == b;
    }
  }

  /** A filter every element passes keeps the list as it is. */
  lemma {:induction false} FilterAll<T>(xs: seq<T>, p: T -> bool)
    requires forall i :: 0 <= i < |xs| ==> p(xs[i])
    ensures Filter(xs, p) == xs
  {
    if xs != [] {
      FilterAll(xs[1..], p);
    }
  }

  /** `xs.filter(p).length` */
  function Count<T(==)>(xs: seq<T>, p: T -> bool): nat {
    |Filter(xs, p)|
  }

  /** Two conditions no element meets together count at most |xs| in all. */
  lemma {:induction false} CountDisjoint<T>(xs: seq<T>, p: T -> bool, q: T -> bool)
    requires forall i :: 0 <= i < |xs| ==> !(p(xs[i]) && q(xs[i]))
    ensures Count(xs, p) + Count(xs, q) <= |xs|
  {
    if xs != [] {
      CountDisjoint(xs[1..], p, q);
    }
  }

  /** `xs.reduce((sum, x) => sum + f(x), 0)` */
  function SumOf<T>(xs: seq<T>, f: T -> int): int {
    if xs == [] then 0 else f(xs[0]) + SumOf(xs[1..], f)
  }

  lemma {:induction false} SumAppend<T>(a: seq<T>, b: seq<T>, f: T -> int)
    ensures SumOf(a + b, f) == SumOf(a, f) + SumOf(b, f)
  {
    if a != [] {
      assert (a + b)[0] == a[0] && (a + b)[1..] == a[1..] + b;
      SumAppend(a[1..], b, f);
    } else {
      assert a + b == b;
    }
  }

  /** Replacing one element changes the sum by the difference of the two terms. */
  lemma SumUpdate<T>(xs: seq<T>, k: nat, y: T, f: T -> int)
    requires k < |xs|
    ensures SumOf(xs[k := y], f) == SumOf(xs, f) - f(xs[k]) + f(y)
  {
    assert xs == xs[..k] + [xs[k]] + xs[k + 1..];
    assert xs[k := y] == xs[..k] + [y] + xs[k + 1..];
    SumAppend(xs[..k] + [xs[k]], xs[k + 1..], f);
    SumAppend(xs[..k], [xs[k]], f);
    SumAppend(xs[..k] + [y], xs[k + 1..], f);
    SumAppend(xs[..k], [y], f);
  }

  /** Taking one element out of the list takes its term out of the sum. */
  lemma SumRemoveAt<T>(ys: seq<T>, j: nat, f: T -> int)
    requires j < |ys|
    ensures SumOf(ys, f) == f(ys[j]) + SumOf(ys[..j] + ys[j + 1..], f)
  {
    assert ys == ys[..j] + [ys[j]] + ys[j + 1..];
    SumAppend(ys[..j] + [ys[j]], ys[j + 1..], f);
    SumAppend(ys[..j], [ys[j]], f);
    SumAppend(ys[..j], ys[j + 1..], f);
  }

  /** Taking one element out of the list takes one occurrence out of its multiset. */
  lemma MultisetRemoveAt<T>(ys: seq<T>, j: nat)
    requires j < |ys|
    ensures multiset(ys[..j] + ys[j + 1..]) == multiset(ys) - multiset{ys[j]}
  {
    assert ys == ys[..j] + [ys[j]] + ys[j + 1..];
  }

  /** A position of an element of the multiset. */
  lemma IndexIn<T>(ys: seq<T>, x: T) returns (j: nat)
    requires x in multiset(ys)
    ensures j < |ys| && ys[j] == x
  {
    j :| 0 <= j < |ys| && ys[j] == x;
  }

  lemma TailMultiset<T>(xs: seq<T>)
    requires xs != []
    ensures multiset(xs[1..]) == multiset(xs) - multiset{xs[0]}
  {
    assert xs == [xs[0]] + xs[1..];
  }

  /** The sum does not depend on the order of the elements. */
  lemma {:induction false} SumPermutation<T>(xs: seq<T>, ys: seq<T>, f: T -> int)
    requires multiset(xs) == multiset(ys)
    ensures SumOf(xs, f) == SumOf(ys, f)
  {
    if xs != [] {
      var x := xs[0];
      var j := IndexIn(ys, x);
      var rest := ys[..j] + ys[j + 1..];
      TailMultiset(xs);
      MultisetRemoveAt(ys, j);
      SumPermutation(xs[1..], rest, f);
      SumRemoveAt(ys, j, f);
    }
  }

  /** Sums of two functions that agree on every element are equal. */
  lemma {:induction false} SumCongruent<T>(xs: seq<T>, f: T -> int, g: T -> int)
    requires forall i :: 0 <= i < |xs| ==> f(xs[i]) == g(xs[i])
    ensures SumOf(xs, f) == SumOf(xs, g)
  {
    if xs != [] {
      SumCongruent(xs[1..], f, g);
    }
  }

  /** `xs.findIndex(p)`, with "not found" as None instead of -1. */
  function FirstIndex<T>(xs: seq<T>, p: T -> bool): (r: Option<nat>)
    ensures r.Some? ==> r.value < |xs| && p(xs[r.value])
    ensures r.Some? ==> forall j :: 0 <= j < r.value ==> !p(xs[j])
    ensures r.None? ==> forall j :: 0 <= j < |xs| ==> !p(xs[j])
  {
    if xs == [] then None
    else if p(xs[0]) then Some(0)
    else match FirstIndex(xs[1..], p)
      case None => None
      case Some(k) => Some(k + 1)
  }

  // ---------------------------------------------------------------------
  // Sorting by an integer key (`sort((a, b) => key(a) - key(b))` and
  // `sort((a, b) => key(b) - key(a))`), stable as Array.prototype.sort is
  // ---------------------------------------------------------------------

  predicate InOrder(a: int, b: int, desc: bool) {
    if desc then a >= b else a <= b
  }

  predicate Ordered<T>(s: seq<T>, key: T -> int, desc: bool) {
    forall i, j :: 0 <= i < j < |s| ==> InOrder(key(s[i]), key(s[j]), desc)
  }

  /** Puts x after every element it does not strictly precede. */
  function Insert<T>(x: T, s: seq<T>, key: T -> int, desc: bool): (r: seq<T>)
    ensures |r| == |s| + 1
    ensures multiset(r) == multiset(s) + multiset{x}
    ensures forall z :: InOrder(z, key(x), desc) && (forall i :: 0 <= i < |s| ==> InOrder(z, key(s[i]), desc))
                        ==> forall i :: 0 <= i < |r| ==> InOrder(z, key(r[i]), desc)
  {
    if s == [] then [x]
    else if InOrder(key(x), key(s[0]), desc) && key(x) != key(s[0]) then [x] + s
    else
      assert s == [s[0]] + s[1..];
      [s[0]] + Insert(x, s[1..], key, desc)
  }

  lemma {:induction false} InsertOrdered<T>(x: T, s: seq<T>, key: T -> int, desc: bool)
    requires Ordered(s, key, desc)
    ensures Ordered(Insert(x, s, key, desc), key, desc)
  {
    if s != [] && !(InOrder(key(x), key(s[0]), desc) && key(x) != key(s[0])) {
      InsertOrdered(x, s[1..], key, desc);
      var r := Insert(x, s[1..], key, desc);
      assert InOrder(key(s[0]), key(x), desc);
      assert forall i :: 0 <= i < |s[1..]| ==> InOrder(key(s[0]), key(s[1..][i]), desc);
      assert forall i :: 0 <= i < |r| ==> InOrder(key(s[0]), key(r[i]), desc);
    }
  }

  /** The list sorted by key, ascending or descending, equal keys in input order. */
  function SortBy<T>(xs: seq<T>, key: T -> int, desc: bool): (r: seq<T>)
    ensures |r| == |xs|
    ensures multiset(r) == multiset(xs)
  {
    if xs == [] then []
    else
      assert xs == xs[..|xs| - 1] + [xs[|xs| - 1]];
      Insert(xs[|xs| - 1], SortBy(xs[..|xs| - 1], key, desc), key, desc)
  }

  lemma {:induction false} SortByOrdered<T>(xs: seq<T>, key: T -> int, desc: bool)
    ensures Ordered(SortBy(xs, key, desc), key, desc)
  {
    if xs != [] {
      SortByOrdered(xs[..|xs| - 1], key, desc);
      InsertOrdered(xs[|xs| - 1], SortBy(xs[..|xs| - 1], key, desc), key, desc);
    }
  }

  /** Two lists with the same multiset have the same elements. */
  lemma SameElements<T>(a: seq<T>, b: seq<T>)
    requires multiset(a) == multiset(b)
    ensures forall i :: 0 <= i < |b| ==> b[i] in a
    ensures forall i :: 0 <= i < |a| ==> a[i] in b
  {
    forall i | 0 <= i < |b| ensures b[i] in a {
      assert b[i] in multiset(b);
    }
    forall i | 0 <= i < |a| ensures a[i] in b {
      assert a[i] in multiset(a);
    }
  }

  /** `xs.filter(p).sort(by key)`: exactly the elements satisfying p, each
      as often as in xs, in key order. */
  function FilterSort<T(==)>(xs: seq<T>, p: T -> bool, key: T -> int, desc: bool): (r: seq<T>)
    ensures multiset(r) <= multiset(xs)
    ensures forall i :: 0 <= i < |r| ==> p(r[i])
    ensures forall j :: 0 <= j < |xs| && p(xs[j]) ==> xs[j] in r
    ensures forall j :: 0 <= j < |xs| && p(xs[j]) ==> multiset(r)[xs[j]] == multiset(xs)[xs[j]]
    ensures Ordered(r, key, desc)
  {
    var kept := Filter(xs, p);
    var r := SortBy(kept, key, desc);
    SortByOrdered(kept, key, desc);
    SameElements(kept, r);
    FilterMultiset(xs, p);
    r
  }

  /** The sort is stable: the kept elements of one key stay in the order
      the input has them. */
  lemma FilterSortStable<T>(xs: seq<T>, p: T -> bool, key: T -> int, desc: bool)
    ensures forall v :: Filter(FilterSort(xs, p, key, desc), KeyIs(key, v)) == Filter(Filter(xs, p), KeyIs(key, v))
  {
    forall v {
      SortByStable(Filter(xs, p), key, desc, v);
    }
  }

  /** The first k elements of the stable descending sort by key
      (`[...xs].sort((a, b) => key(b) - key(a)).slice(0, k)`). */
  function TopBy<T>(xs: seq<T>, key: T -> int, k: nat): (r: seq<T>)
    ensures |r| == if |xs| < k then |xs| else k
    ensures multiset(r) <= multiset(xs)
  {
    var s := SortBy(xs, key, true);
    var m := if |xs| < k then |xs| else k;
    assert s == s[..m] + s[m..];
    s[..m]
  }

  lemma TopByOrdered<T>(xs: seq<T>, key: T -> int, k: nat)
    ensures Ordered(TopBy(xs, key, k), key, true)
  {
    SortByOrdered(xs, key, true);
  }

  /** An element left out of the top k has a key no larger than any that was kept. */
  lemma TopByIsTop<T>(xs: seq<T>, key: T -> int, k: nat)
    ensures forall j :: 0 <= j < |xs| && xs[j] !in TopBy(xs, key, k) ==>
              forall i :: 0 <= i < |TopBy(xs, key, k)| ==> key(xs[j]) <= key(TopBy(xs, key, k)[i])
  {
    var s := SortBy(xs, key, true);
    var m := if |xs| < k then |xs| else k;
    SortByOrdered(xs, key, true);
    forall j | 0 <= j < |xs| && xs[j] !in s[..m]
      ensures forall i :: 0 <= i < m ==> key(xs[j]) <= key(s[i])
    {
      assert xs[j] in multiset(xs);
      assert xs[j] in multiset(s);
      var t :| 0 <= t < |s| && s[t] == xs[j];
      assert t >= m;
    }
  }

  /** The elements whose key is v. */
  function KeyIs<T>(key: T -> int, v: int): T -> bool {
    x => key(x) == v
  }

  lemma {:induction false} FilterNone<T>(s: seq<T>, p: T -> bool)
    requires forall i :: 0 <= i < |s| ==> !p(s[i])
    ensures Filter(s, p) == []
  {
    if s != [] {
      FilterNone(s[1..], p);
    }
  }

  lemma FilterHead<T>(s: seq<T>, p: T -> bool)
    requires s != []
    ensures Filter(s, p) == (if p(s[0]) then [s[0]] else []) + Filter(s[1..], p)
  {
  }

  lemma FilterSingle<T>(x: T, p: T -> bool)
    ensures Filter([x], p) == if p(x) then [x] else []
  {
    assert [x][1..] == [];
  }

  lemma ConcatAssoc<T>(a: seq<T>, b: seq<T>, c: seq<T>)
    ensures a + (b + c) == (a + b) + c
  {
  }

  /** Inserting into an ordered list puts x after every element with its key. */
  lemma {:induction false} InsertStable<T>(x: T, s: seq<T>, key: T -> int, desc: bool, v: int)
    requires Ordered(s, key, desc)
    ensures Filter(Insert(x, s, key, desc), KeyIs(key, v)) ==
            Filter(s, KeyIs(key, v)) + (if key(x) == v then [x] else [])
  {
    var p := KeyIs(key, v);
    var r := Insert(x, s, key, desc);
    if s == [] {
      assert r == [x] && r[1..] == [];
      FilterHead(r, p);
    } else if InOrder(key(x), key(s[0]), desc) && key(x) != key(s[0]) {
      assert r == [x] + s && r[0] == x && r[1..] == s;
      FilterHead(r, p);
      if key(x) == v {
        assert forall i :: 0 <= i < |s| ==> InOrder(key(s[0]), key(s[i]), desc);
        FilterNone(s, p);
      }
    } else {
      var t := Insert(x, s[1..], key, desc);
      assert r[0] == s[0] && r[1..] == t;
      InsertStable(x, s[1..], key, desc, v);
      FilterHead(r, p);
      FilterHead(s, p);
      ConcatAssoc(if p(s[0]) then [s[0]] else [], Filter(s[1..], p), if key(x) == v then [x] else []);
    }
  }

  /** The sort is stable: the elements with any one key keep their input order. */
  lemma {:induction false} SortByStable<T>(xs: seq<T>, key: T -> int, desc: bool, v: int)
    ensures Filter(SortBy(xs, key, desc), KeyIs(key, v)) == Filter(xs, KeyIs(key, v))
  {
    if xs != [] {
      var init := xs[..|xs| - 1];
      var last := xs[|xs| - 1];
      SortBySnoc(xs, key, desc);
      SortByStable(init, key, desc, v);
      SortByOrdered(init, key, desc);
      InsertStable(last, SortBy(init, key, desc), key, desc, v);
      FilterSnoc(xs, KeyIs(key, v));
      FilterSingle(last, KeyIs(key, v));
    }
  }

  lemma SortBySnoc<T>(xs: seq<T>, key: T -> int, desc: bool)
    requires xs != []
    ensures SortBy(xs, key, desc) == Insert(xs[|xs| - 1], SortBy(xs[..|xs| - 1], key, desc), key, desc)
  {
  }

  lemma FilterSnoc<T>(xs: seq<T>, p: T -> bool)
    requires xs != []
    ensures Filter(xs, p) == Filter(xs[..|xs| - 1], p) + Filter([xs[|xs| - 1]], p)
  {
    var init, last := xs[..|xs| - 1], [xs[|xs| - 1]];
    assert xs == init + last;
    FilterAppend(init, last, p);
  }

  /** Among elements with equal keys, the top k kept are the first ones of the input. */
  lemma TopByStable<T>(xs: seq<T>, key: T -> int, k: nat)
    ensures forall v :: Filter(TopBy(xs, key, k), KeyIs(key, v)) <= Filter(xs, KeyIs(key, v))
  {
    forall v ensures Filter(TopBy(xs, key, k), KeyIs(key, v)) <= Filter(xs, KeyIs(key, v)) {
      TopByStableAt(xs, key, k, v);
    }
  }

  lemma TopByStableAt<T>(xs: seq<T>, key: T -> int, k: nat, v: int)
    ensures Filter(TopBy(xs, key, k), KeyIs(key, v)) <= Filter(xs, KeyIs(key, v))
  {
    var s := SortBy(xs, key, true);
    var m := if |xs| < k then |xs| else k;
    assert s == s[..m] + s[m..];
    FilterAppend(s[..m], s[m..], KeyIs(key, v));
    SortByStable(xs, key, true, v);
  }

  // ---------------------------------------------------------------------
  // `reduce` picking an extreme element by an integer key
  // ---------------------------------------------------------------------

  /** One step of `xs.reduce((best, x) => ...)` seen by position: the fold has
      visited xs[..i] and holds xs[b]; the next element replaces it when its key
      is larger, or, with `ties`, when it is equal. The result is the index the
      fold ends on: a largest key, the first such with `ties` false, the last
      such with `ties` true. */
  function ArgMaxFrom<T>(xs: seq<T>, b: nat, i: nat, key: T -> int, ties: bool): (r: nat)
    requires b < i <= |xs|
    requires forall j :: 0 <= j < i ==> key(xs[j]) <= key(xs[b])
    requires !ties ==> forall j :: 0 <= j < b ==> key(xs[j]) < key(xs[b])
    requires ties ==> forall j :: b < j < i ==> key(xs[j]) < key(xs[b])
    ensures r < |xs|
    ensures forall j :: 0 <= j < |xs| ==> key(xs[j]) <= key(xs[r])
    ensures !ties ==> forall j :: 0 <= j < r ==> key(xs[j]) < key(xs[r])
    ensures ties ==> forall j :: r < j < |xs| ==> key(xs[j]) < key(xs[r])
    decreases |xs| - i
  {
    if i == |xs| then b
    else if key(xs[i]) > key(xs[b]) || (ties && key(xs[i]) == key(xs[b])) then ArgMaxFrom(xs, i, i + 1, key, ties)
    else ArgMaxFrom(xs, b, i + 1, key, ties)
  }

  /** The index `xs.reduce` without an initial value ends on. */
  function ArgMax<T>(xs: seq<T>, key: T -> int, ties: bool): (r: nat)
    requires |xs| > 0
    ensures r < |xs|
    ensures forall j :: 0 <= j < |xs| ==> key(xs[j]) <= key(xs[r])
    ensures !ties ==> forall j :: 0 <= j < r ==> key(xs[j]) < key(xs[r])
    ensures ties ==> forall j :: r < j < |xs| ==> key(xs[j]) < key(xs[r])
  {
    ArgMaxFrom(xs, 0, 1, key, ties)
  }
}
