/**
 * String helpers the configuration code relies on: trimming, hexadecimal, and sorted lists.
 *
 * Strings are compared character by character, as the library's sort does.  A set of names has one
 * sorted listing without duplicates, which is why no plan and no routing table depends on the order
 * in which a map is walked.
 */
module Text {
  import opened Bytes
  import opened Options

  // Trimming

  predicate IsSpace(c: char) {
    || c in "\t\n\U{000B}\U{000C}\r "
    || c in "\U{0085}\U{00A0}\U{1680}\U{2028}\U{2029}\U{202F}\U{205F}\U{3000}"
    || '\U{2000}' <= c <= '\U{200A}'
  }

  function TrimLeft(s: string): string {
    if s != "" && IsSpace(s[0]) then TrimLeft(s[1..]) else s
  }

  function TrimRight(s: string): string {
    if s != "" && IsSpace(s[|s| - 1]) then TrimRight(s[..|s| - 1]) else s
  }

  function TrimSpace(s: string): string {
    TrimRight(TrimLeft(s))
  }

  predicate Blank(s: string) {
    TrimSpace(s) == ""
  }

  // Hexadecimal

  function HexDigit(c: char): Option<nat> {
    if '0' <= c <= '9' then Some(c as int - '0' as int)
    else if 'a' <= c <= 'f' then Some(c as int - 'a' as int + 10)
    else if 'A' <= c <= 'F' then Some(c as int - 'A' as int + 10)
    else None
  }

  function DecodeHex(s: string): Option<seq<byte>> {
    if s == "" then Some([])
    else if |s| == 1 then None
    else
      match (HexDigit(s[0]), HexDigit(s[1]), DecodeHex(s[2..]))
      case (Some(high), Some(low), Some(rest)) => Some([(16 * high + low) as byte] + rest)
      case _ => None
  }

  function HexChar(n: nat): char
    requires n < 16
  {
    if n < 10 then ('0' as int + n) as char else ('a' as int + (n - 10)) as char
  }

  function EncodeHex(bs: seq<byte>): string {
    if bs == [] then ""
    else [HexChar(bs[0] as int / 16), HexChar(bs[0] as int % 16)] + EncodeHex(bs[1..])
  }

  lemma HexCharDigit(n: nat)
    requires n < 16
    ensures HexDigit(HexChar(n)) == Some(n)
  {
    var c := HexChar(n);
    assert c as int == if n < 10 then 48 + n else 87 + n;
    assert '0' as int == 48 && '9' as int == 57 && 'a' as int == 97 && 'f' as int == 102;
  }

  lemma {:induction false} DecodeEncodeHex(bs: seq<byte>)
    ensures DecodeHex(EncodeHex(bs)) == Some(bs)
  {
    if bs != [] {
      DecodeEncodeHex(bs[1..]);
      var s, n := EncodeHex(bs), bs[0] as int;
      assert s[2..] == EncodeHex(bs[1..]);
      HexCharDigit(n / 16);
      HexCharDigit(n % 16);
      assert DecodeHex(s) == Some([(16 * (n / 16) + n % 16) as byte] + bs[1..]);
      assert 16 * (n / 16) + n % 16 == n;
      assert bs == [bs[0]] + bs[1..];
    }
  }

  // Sorted lists without duplicates

  predicate Less(a: string, b: string) {
    b != "" && (a == "" || a[0] < b[0] || (a[0] == b[0] && Less(a[1..], b[1..])))
  }

  lemma {:induction false} LessTotal(a: string, b: string)
    ensures a == b || Less(a, b) || Less(b, a)
  {
    if a != "" && b != "" && a[0] == b[0] {
      LessTotal(a[1..], b[1..]);
      assert a == [a[0]] + a[1..] && b == [b[0]] + b[1..];
    }
  }

  lemma {:induction false} LessTransitive(a: string, b: string, c: string)
    requires Less(a, b) && Less(b, c)
    ensures Less(a, c)
  {
    if a != "" && a[0] == b[0] == c[0] {
      LessTransitive(a[1..], b[1..], c[1..]);
    }
  }

  lemma {:induction false} LessIrreflexive(a: string)
    ensures !Less(a, a)
  {
    if a != "" {
      LessIrreflexive(a[1..]);
    }
  }

  ghost predicate Ascending(xs: seq<string>) {
    forall i, j :: 0 <= i < j < |xs| ==> Less(xs[i], xs[j])
  }

  ghost function Elements(xs: seq<string>): set<string> {
    set x | x in xs
  }

  /** `xs` lists the set `s` in order, each element once. */
  ghost predicate Lists(xs: seq<string>, s: set<string>) {
    Ascending(xs) && Elements(xs) == s
  }

  lemma AscendingHead(xs: seq<string>)
    requires Ascending(xs) && xs != []
    ensures Ascending(xs[1..]) && Elements(xs[1..]) == Elements(xs) - {xs[0]}
    ensures forall x :: x in xs[1..] ==> Less(xs[0], x)
  {
    LessIrreflexive(xs[0]);
    forall x | x in Elements(xs) - {xs[0]}
      ensures x in xs[1..]
    {
      var i :| 0 <= i < |xs| && xs[i] == x;
      assert xs[1..][i - 1] == x;
    }
  }

  lemma NoElements(xs: seq<string>)
    ensures Elements(xs) == {} <==> xs == []
  {
    if xs != [] {
      assert xs[0] in Elements(xs);
    }
  }

  lemma SameHead(xs: seq<string>, ys: seq<string>)
    requires Ascending(xs) && Ascending(ys) && Elements(xs) == Elements(ys) && xs != [] && ys != []
    ensures xs[0] == ys[0]
  {
    AscendingHead(xs);
    AscendingHead(ys);
    assert xs[0] in Elements(ys) && ys[0] in Elements(xs);
    if xs[0] != ys[0] {
      assert Less(xs[0], ys[0]) && Less(ys[0], xs[0]);
      LessTransitive(xs[0], ys[0], xs[0]);
      LessIrreflexive(xs[0]);
    }
  }

  /** A set has one sorted listing, so no result depends on map iteration order. */
  lemma {:induction false} ListingUnique(xs: seq<string>, ys: seq<string>)
    requires Ascending(xs) && Ascending(ys) && Elements(xs) == Elements(ys)
    ensures xs == ys
  {
    NoElements(xs);
    NoElements(ys);
    if xs != [] {
      SameHead(xs, ys);
      AscendingHead(xs);
      AscendingHead(ys);
      ListingUnique(xs[1..], ys[1..]);
      assert xs == [xs[0]] + xs[1..] && ys == [ys[0]] + ys[1..];
    }
  }

  function InsertSorted(x: string, xs: seq<string>): seq<string> {
    if xs == [] || Less(x, xs[0]) then [x] + xs else [xs[0]] + InsertSorted(x, xs[1..])
  }

  lemma {:induction false} InsertSortedElements(x: string, xs: seq<string>)
    ensures Elements(InsertSorted(x, xs)) == Elements(xs) + {x}
  {
    if xs == [] || Less(x, xs[0]) {
    } else {
      InsertSortedElements(x, xs[1..]);
      assert forall y :: y in xs <==> y == xs[0] || y in xs[1..];
      assert forall y :: y in InsertSorted(x, xs) <==> y == xs[0] || y in InsertSorted(x, xs[1..]);
      assert forall y :: y in Elements(InsertSorted(x, xs[1..])) <==> y in InsertSorted(x, xs[1..]);
    }
  }

  lemma PrependAscending(x: string, xs: seq<string>)
    requires Ascending(xs) && forall y :: y in xs ==> Less(x, y)
    ensures Ascending([x] + xs)
  {
    forall i, j | 0 <= i < j < |[x] + xs|
      ensures Less(([x] + xs)[i], ([x] + xs)[j])
    {
      assert ([x] + xs)[j] == xs[j - 1];
    }
  }

  lemma {:induction false} InsertSortedAscending(x: string, xs: seq<string>)
    requires Ascending(xs) && x !in xs
    ensures Ascending(InsertSorted(x, xs))
  {
    if xs == [] {
    } else if Less(x, xs[0]) {
      AscendingHead(xs);
      forall y | y in xs[1..]
        ensures Less(x, y)
      {
        LessTransitive(x, xs[0], y);
      }
      assert forall y :: y in xs ==> y == xs[0] || y in xs[1..];
      PrependAscending(x, xs);
    } else {
      LessTotal(x, xs[0]);
      AscendingHead(xs);
      InsertSortedAscending(x, xs[1..]);
      InsertSortedElements(x, xs[1..]);
      forall y | y in InsertSorted(x, xs[1..])
        ensures Less(xs[0], y)
      {
        assert y in Elements(InsertSorted(x, xs[1..]));
      }
      PrependAscending(xs[0], InsertSorted(x, xs[1..]));
    }
  }

  function SortStrings(xs: seq<string>): seq<string> {
    if xs == [] then [] else InsertSorted(xs[|xs| - 1], SortStrings(xs[..|xs| - 1]))
  }

  ghost predicate NoDuplicates(xs: seq<string>) {
    forall i, j :: 0 <= i < j < |xs| ==> xs[i] != xs[j]
  }

  lemma {:induction false} SortStringsLists(xs: seq<string>)
    requires NoDuplicates(xs)
    ensures Lists(SortStrings(xs), Elements(xs))
  {
    if xs != [] {
      var n := |xs| - 1;
      SortStringsLists(xs[..n]);
      InsertSortedElements(xs[n], SortStrings(xs[..n]));
      assert forall x :: x in xs <==> x in xs[..n] || x == xs[n];
      assert xs[n] !in Elements(SortStrings(xs[..n]));
      InsertSortedAscending(xs[n], SortStrings(xs[..n]));
    }
  }

  lemma {:induction false} ListingExists(s: set<string>) returns (xs: seq<string>)
    ensures Lists(xs, s)
    decreases s
  {
    if s == {} {
      xs := [];
    } else {
      var x :| x in s;
      var ys := ListingExists(s - {x});
      assert x !in Elements(ys);
      InsertSortedElements(x, ys);
      InsertSortedAscending(x, ys);
      xs := InsertSorted(x, ys);
    }
  }

  /** The sorted listing of a set. */
  ghost function Sorted(s: set<string>): (xs: seq<string>)
    ensures Lists(xs, s)
    ensures forall x :: x in xs <==> x in s
  {
    assert exists xs :: Lists(xs, s) by {
      var xs := ListingExists(s);
    }
    var xs :| Lists(xs, s);
    assert forall x :: x in xs <==> x in Elements(xs);
    xs
  }

  /** The keys of a map, collected in whatever order the map yields them and then sorted. */
  method SortedKeys<V>(m: map<string, V>) returns (keys: seq<string>)
    ensures keys == Sorted(m.Keys)
  {
    var xs: seq<string> := [];
    var left := m.Keys;
    while left != {}
      invariant left <= m.Keys && NoDuplicates(xs) && Elements(xs) == m.Keys - left
      decreases left
    {
      var k :| k in left;
      assert k !in Elements(xs);
      assert Elements(xs + [k]) == Elements(xs) + {k};
      left := left - {k};
      xs := xs + [k];
    }
    SortStringsLists(xs);
    keys := SortStrings(xs);
    ListingUnique(keys, Sorted(m.Keys));
  }
}
