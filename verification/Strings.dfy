/** The byte order of sort.Strings, sorted listings, and decimal tokens. */
module Strings {
  import opened Common

  // ---------------------------------------------------------------- order

  predicate Less(a: string, b: string) {
    if b == "" then false
    else if a == "" then true
    else if a[0] != b[0] then a[0] < b[0]
    else Less(a[1..], b[1..])
  }

  lemma {:induction false} LessTotal(a: string, b: string)
    ensures a == b || Less(a, b) || Less(b, a)
    ensures !(Less(a, b) && Less(b, a))
    ensures !Less(a, a)
  {
    if a != "" {
      LessTotal(a[1..], if b == "" then b else b[1..]);
      if b != "" && a[0] == b[0] && a[1..] == b[1..] {
        assert a == [a[0]] + a[1..] && b == [b[0]] + b[1..];
      }
    }
  }

  /** The strings agree up to some position, at which the first one ends or has the smaller character. */
  ghost predicate FirstDiffer(a: string, b: string, i: nat) {
    i <= |a| && i < |b| && a[..i] == b[..i] && (i == |a| || a[i] < b[i])
  }

  lemma {:induction false} LessIff(a: string, b: string)
    ensures Less(a, b) <==> exists i: nat :: FirstDiffer(a, b, i)
  {
    if a != "" && b != "" && a[0] == b[0] {
      LessIff(a[1..], b[1..]);
      if i: nat :| FirstDiffer(a[1..], b[1..], i) {
        assert a[..i + 1] == [a[0]] + a[1..][..i] && b[..i + 1] == [b[0]] + b[1..][..i];
        assert FirstDiffer(a, b, i + 1);
      }
      if i: nat :| FirstDiffer(a, b, i) {
        assert i > 0;
        assert a[1..][..i - 1] == a[..i][1..] && b[1..][..i - 1] == b[..i][1..];
        assert FirstDiffer(a[1..], b[1..], i - 1);
      }
    } else if a != "" && b != "" {
      if a[0] < b[0] {
        assert FirstDiffer(a, b, 0);
      }
      if i: nat :| FirstDiffer(a, b, i) {
        assert i > 0 ==> a[..i][0] == b[..i][0];
      }
    } else if b != "" {
      assert FirstDiffer(a, b, 0);
    }
  }

  lemma {:induction false} LessTransitive(a: string, b: string, c: string)
    requires Less(a, b) && Less(b, c)
    ensures Less(a, c)
  {
    if a != "" && a[0] == b[0] == c[0] {
      LessTransitive(a[1..], b[1..], c[1..]);
    }
  }

  // ---------------------------------------------------------------- sorted listings

  ghost predicate Sorted(list: seq<string>) {
    forall i, j | 0 <= i < j < |list| :: Less(list[i], list[j])
  }

  ghost predicate Lists(list: seq<string>, names: set<string>) {
    Sorted(list) && forall x :: x in list <==> x in names
  }

  /** Where a new name goes in a sorted list. */
  function Rank(list: seq<string>, x: string): (i: nat)
    ensures i <= |list|
    ensures forall j | 0 <= j < i :: Less(list[j], x)
    ensures i < |list| ==> !Less(list[i], x)
  {
    if list == [] || !Less(list[0], x) then 0 else 1 + Rank(list[1..], x)
  }

  function Insert(list: seq<string>, x: string): seq<string> {
    var i := Rank(list, x);
    list[..i] + [x] + list[i..]
  }

  lemma InsertedNames(list: seq<string>, x: string)
    ensures forall y :: y in Insert(list, x) <==> y in list || y == x
  {
    var i := Rank(list, x);
    assert list == list[..i] + list[i..];
  }

  lemma AfterRank(list: seq<string>, x: string, j: nat)
    requires Sorted(list) && x !in list && Rank(list, x) <= j < |list|
    ensures Less(x, list[j])
  {
    var i := Rank(list, x);
    LessTotal(x, list[i]);
    if i < j {
      LessTransitive(x, list[i], list[j]);
    }
  }

  lemma InsertSorted(list: seq<string>, x: string, names: set<string>)
    requires Lists(list, names) && x !in names
    ensures Lists(Insert(list, x), names + {x})
  {
    var i, r := Rank(list, x), Insert(list, x);
    InsertedNames(list, x);
    forall j, k | 0 <= j < k < |r|
      ensures Less(r[j], r[k])
    {
      if j == i {
        AfterRank(list, x, k - 1);
      }
    }
  }

  /** os.ReadDir: the entries in name order. */
  method ReadDir(names: set<string>) returns (list: seq<string>)
    ensures Lists(list, names)
  {
    list := [];
    var left := names;
    while left != {}
      invariant left <= names
      invariant Lists(list, names - left)
      decreases left
    {
      var x :| x in left;
      InsertSorted(list, x, names - left);
      list := Insert(list, x);
      assert names - left + {x} == names - (left - {x});
      left := left - {x};
    }
  }

  /** A sorted listing is determined by the names in it, in whatever order they were collected. */
  lemma {:induction false} ListingUnique(a: seq<string>, b: seq<string>, names: set<string>)
    requires Lists(a, names) && Lists(b, names)
    ensures a == b
    decreases |a|
  {
    if b != [] {
      assert b[0] in b;
    }
    if a != [] {
      assert a[0] in a && a[0] in b;
      assert b[0] in a;
      FirstIsLeast(a, b[0]);
      FirstIsLeast(b, a[0]);
      LessTotal(a[0], b[0]);
      TailLists(a, names);
      TailLists(b, names);
      ListingUnique(a[1..], b[1..], names - {a[0]});
      assert a == [a[0]] + a[1..] && b == [b[0]] + b[1..];
    }
  }

  lemma FirstIsLeast(list: seq<string>, x: string)
    requires Sorted(list) && x in list
    ensures x == list[0] || Less(list[0], x)
  {
  }

  lemma TailLists(list: seq<string>, names: set<string>)
    requires Lists(list, names) && list != []
    ensures Lists(list[1..], names - {list[0]})
  {
    forall x
      ensures x in list[1..] <==> x in names - {list[0]}
    {
      LessTotal(x, x);
      assert list == [list[0]] + list[1..];
      assert x in list[1..] ==> Less(list[0], x);
    }
  }

  // ---------------------------------------------------------------- decimal tokens

  const LIMIT: nat := 0x1_0000_0000

  predicate IsDigit(c: char) {
    '0' <= c <= '9'
  }

  function Digit(n: nat): char
    requires n < 10
  {
    ['0', '1', '2', '3', '4', '5', '6', '7', '8', '9'][n]
  }

  function Value(c: char): nat
    requires IsDigit(c)
  {
    c as int - '0' as int
  }

  /** strconv.FormatInt for non-negative numbers. */
  function Format(n: nat): string {
    if n < 10 then [Digit(n)] else Format(n / 10) + [Digit(n % 10)]
  }

  /** The number a digit string denotes; None when a character is no digit. */
  function Number(s: string): Option<nat> {
    if s == "" then Some(0)
    else if !IsDigit(s[|s| - 1]) then None
    else
      var high := Number(s[..|s| - 1]);
      if high.None? then None else Some(10 * high.value + Value(s[|s| - 1]))
  }

  /** strconv.ParseUint(s, 10, 32) */
  function Parse(s: string): Option<nat> {
    if s == "" then None
    else if Number(s).Some? && Number(s).value < LIMIT then Number(s)
    else None
  }

  lemma {:induction false} NumberIsDigits(s: string)
    ensures Number(s).Some? <==> forall c | c in s :: IsDigit(c)
  {
    if s != "" {
      NumberIsDigits(s[..|s| - 1]);
      assert s == s[..|s| - 1] + [s[|s| - 1]];
    }
  }

  /** A token is accepted exactly if it is a non-empty string of digits for a number below 2^32. */
  lemma ParseIff(s: string)
    ensures Parse(s).Some? <==>
            s != "" && (forall c | c in s :: '0' <= c <= '9') && Number(s).Some? && Number(s).value < 4_294_967_296
    ensures Parse(s).Some? ==> Parse(s) == Number(s)
  {
    NumberIsDigits(s);
  }

  lemma {:induction false} FormatParses(n: nat)
    ensures Format(n) != "" && Number(Format(n)) == Some(n)
    ensures n > 0 ==> Format(n)[0] != '0'
  {
    if n >= 10 {
      FormatParses(n / 10);
      var s := Format(n);
      assert s[..|s| - 1] == Format(n / 10);
      assert s[0] == Format(n / 10)[0];
    } else {
      assert Format(n)[..0] == "";
    }
  }

  /** What the driver prints as a token it reads back as the same number. */
  lemma TokenRoundTrip(n: nat)
    requires 0 < n < LIMIT
    ensures Parse(Format(n)) == Some(n)
    ensures Format(n) != "" && Format(n) != "0"
  {
    FormatParses(n);
  }
}
