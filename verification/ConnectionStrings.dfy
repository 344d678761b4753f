/** Connection strings: the string builder that lists the fields and the sorted parameters. */
module ConnectionStrings {
  import opened Names

  datatype DatabaseConfig = DatabaseConfig(
    host: string,
    port: int,
    username: string,
    password: string,
    database: string,
    params: map<string, string>)

  const SSL: string := "sslmode"

  // The order of strings and sorted lists of keys.

  /** Lexicographic order. */
  predicate Less(a: string, b: string) {
    b != "" && (a == "" || a[0] < b[0] || (a[0] == b[0] && Less(a[1..], b[1..])))
  }

  lemma {:induction false} LessAsymmetric(a: string, b: string)
    requires Less(a, b)
    ensures a != b && !Less(b, a)
  {
    if a != "" && a[0] == b[0] {
      LessAsymmetric(a[1..], b[1..]);
    }
  }

  lemma {:induction false} LessTotal(a: string, b: string)
    ensures Less(a, b) || a == b || Less(b, a)
  {
    if a != "" && b != "" && a[0] == b[0] {
      LessTotal(a[1..], b[1..]);
      assert a == [a[0]] + a[1..] && b == [b[0]] + b[1..];
    }
  }

  lemma {:induction false} LessTransitive(a: string, b: string, c: string)
    requires Less(a, b) && Less(b, c)
    ensures Less(a, c)
  {
    if a != "" && a[0] == b[0] && b[0] == c[0] {
      LessTransitive(a[1..], b[1..], c[1..]);
    }
  }

  predicate Sorted(s: seq<string>) {
    forall i, j :: 0 <= i < j < |s| ==> Less(s[i], s[j])
  }

  function Elements(s: seq<string>): (r: set<string>) {
    set k | k in s
  }

  /** Puts a string before the first larger ones at the end of a list. */
  function Insert(x: string, s: seq<string>): (r: seq<string>)
    ensures |r| == |s| + 1
  {
    if s == [] || !Less(x, s[|s| - 1]) then s + [x]
    else Insert(x, s[..|s| - 1]) + [s[|s| - 1]]
  }

  function InsertionSorted(s: seq<string>): (r: seq<string>)
    ensures |r| == |s|
  {
    if s == [] then [] else Insert(s[|s| - 1], InsertionSorted(s[..|s| - 1]))
  }

  lemma {:induction false} InsertElements(x: string, s: seq<string>)
    ensures Elements(Insert(x, s)) == Elements(s) + {x}
  {
    if s != [] && Less(x, s[|s| - 1]) {
      InsertElements(x, s[..|s| - 1]);
      assert s == s[..|s| - 1] + [s[|s| - 1]];
      var r := Insert(x, s[..|s| - 1]);
      assert Elements(r + [s[|s| - 1]]) == Elements(r) + {s[|s| - 1]};
      assert Elements(s) == Elements(s[..|s| - 1]) + {s[|s| - 1]};
    }
  }

  lemma {:induction false} SortElements(s: seq<string>)
    ensures Elements(InsertionSorted(s)) == Elements(s)
  {
    if s != [] {
      var t := s[..|s| - 1];
      SortElements(t);
      InsertElements(s[|s| - 1], InsertionSorted(t));
      assert s == t + [s[|s| - 1]];
    }
  }

  lemma {:induction false} InsertSorts(x: string, s: seq<string>)
    requires Sorted(s) && x !in s
    ensures Sorted(Insert(x, s))
  {
    if s == [] {
    } else {
      var last := s[|s| - 1];
      if Less(x, last) {
        var t := s[..|s| - 1];
        InsertSorts(x, t);
        InsertElements(x, t);
        var r := Insert(x, t);
        forall i | 0 <= i < |r| ensures Less(r[i], last) {
          assert r[i] in Elements(r);
        }
      } else {
        LessTotal(x, last);
        forall i | 0 <= i < |s| ensures Less(s[i], x) {
          if i < |s| - 1 { LessTransitive(s[i], last, x); }
        }
      }
    }
  }

  predicate DistinctKeys(s: seq<string>) {
    forall i, j :: 0 <= i < j < |s| ==> s[i] != s[j]
  }

  lemma {:induction false} SortSorts(s: seq<string>)
    requires DistinctKeys(s)
    ensures Sorted(InsertionSorted(s))
  {
    if s != [] {
      var t := s[..|s| - 1];
      SortSorts(t);
      SortElements(t);
      assert s[|s| - 1] !in Elements(t);
      assert s[|s| - 1] !in Elements(InsertionSorted(t));
      InsertSorts(s[|s| - 1], InsertionSorted(t));
    }
  }

  /** A set of strings has one sorted listing: the order in which its members arrive does not show. */
  lemma {:induction false} SortedUnique(a: seq<string>, b: seq<string>)
    requires Sorted(a) && Sorted(b) && Elements(a) == Elements(b)
    ensures a == b
  {
    if a == [] {
      if b != [] { FirstIsLeast(b, a); }
    } else {
      FirstIsLeast(a, b);
      FirstIsLeast(b, a);
      SameLeast(a[0], b[0]);
      TailElements(a);
      TailElements(b);
      SortedUnique(a[1..], b[1..]);
      assert a == [a[0]] + a[1..] && b == [b[0]] + b[1..];
    }
  }

  lemma SameLeast(x: string, y: string)
    requires (x == y || Less(x, y)) && (x == y || Less(y, x))
    ensures x == y
  {
    if Less(x, y) {
      LessAsymmetric(x, y);
    }
  }

  lemma FirstIsLeast(a: seq<string>, b: seq<string>)
    requires Sorted(a) && a != [] && Elements(a) == Elements(b)
    ensures b != [] && (b[0] == a[0] || Less(a[0], b[0]))
  {
    assert a[0] in Elements(b);
    assert b[0] in Elements(b);
  }

  lemma TailElements(a: seq<string>)
    requires Sorted(a) && a != []
    ensures Sorted(a[1..]) && Elements(a[1..]) == Elements(a) - {a[0]}
  {
    forall i | 0 < i < |a| ensures a[i] != a[0] {
      LessAsymmetric(a[0], a[i]);
    }
    forall k | k in Elements(a) - {a[0]} ensures k in a[1..] {
      var i :| 0 <= i < |a| && a[i] == k;
      assert a[1..][i - 1] == k;
    }
  }

  /** In-place insertion sort. */
  method Sort(a: array<string>)
    modifies a
    ensures a[..] == InsertionSorted(old(a[..]))
  {
    ghost var was := a[..];
    var i := 0;
    while i < a.Length
      invariant 0 <= i <= a.Length == |was|
      invariant a[..i] == InsertionSorted(was[..i]) && a[i..] == was[i..]
    {
      assert a[i] == a[i..][0];
      Sink(a, i);
      assert was[..i + 1][..i] == was[..i];
      assert a[i + 1..] == was[i..][1..] == was[i + 1..];
      i := i + 1;
    }
    assert was[..a.Length] == was && a[..a.Length] == a[..];
  }

  /** Moves one element down into the sorted part before it. */
  method Sink(a: array<string>, i: nat)
    requires i < a.Length
    modifies a
    ensures a[..i + 1] == Insert(old(a[i]), old(a[..i]))
    ensures a[i + 1..] == old(a[i..])[1..]
  {
    ghost var before := a[..i];
    var x := a[i];
    var j := i;
    while j > 0 && Less(x, a[j - 1])
      invariant 0 <= j <= i && a[j] == x
      invariant forall k :: 0 <= k < j ==> a[k] == before[k]
      invariant forall k :: j < k <= i ==> a[k] == before[k - 1]
      invariant forall k :: j <= k < i ==> Less(x, before[k])
      invariant forall k :: i < k < a.Length ==> a[k] == old(a[k])
    {
      a[j], a[j - 1] := a[j - 1], x;
      j := j - 1;
    }
    InsertAt(x, before, j);
    ghost var r := before[..j] + [x] + before[j..];
    forall k | 0 <= k <= i ensures a[k] == r[k] {
      assert k > j ==> r[k] == before[j..][k - j - 1];
    }
  }

  lemma {:induction false} InsertAt(x: string, s: seq<string>, j: nat)
    requires j <= |s| && (j > 0 ==> !Less(x, s[j - 1]))
    requires forall k :: j <= k < |s| ==> Less(x, s[k])
    ensures Insert(x, s) == s[..j] + [x] + s[j..]
  {
    if j == |s| {
      assert s[..j] == s && s[j..] == [];
    } else {
      var t := s[..|s| - 1];
      InsertAt(x, t, j);
      assert t[..j] == s[..j] && t[j..] + [s[|s| - 1]] == s[j..];
    }
  }

  /** The sorted listing of a set of keys. */
  ghost function SortedKeys(keys: set<string>): (r: seq<string>)
    ensures Sorted(r) && Elements(r) == keys
    decreases |keys|
  {
    if keys == {} then []
    else
      var k :| k in keys;
      var rest := SortedKeys(keys - {k});
      assert k !in Elements(rest);
      InsertSorts(k, rest);
      InsertElements(k, rest);
      Insert(k, rest)
  }

  // The string builder.

  /** A port in decimal. */
  function PortText(port: int): (r: string) {
    if port < 0 then "-" + Decimal(-port) else Decimal(port)
  }

  function Head(c: DatabaseConfig): (r: string) {
    "host=" + c.host + " port=" + PortText(c.port) + " user=" + c.username +
    " password=" + c.password + " dbname=" + c.database
  }

  function Default(params: map<string, string>): (r: string) {
    if SSL in params then "" else " sslmode=disable"
  }

  function Rendered(keys: seq<string>, params: map<string, string>): (r: string)
    requires Elements(keys) <= params.Keys
  {
    if keys == [] then ""
    else
      var k := keys[|keys| - 1];
      assert k in Elements(keys);
      assert Elements(keys[..|keys| - 1]) <= Elements(keys);
      Rendered(keys[..|keys| - 1], params) + (" " + k + "=" + params[k])
  }

  /** What a connection string is: the fields, the default mode unless set, the parameters by key. */
  ghost function Text(c: DatabaseConfig): (r: string) {
    Completed(Head(c), c.params)
  }

  ghost function Completed(head: string, params: map<string, string>): (r: string) {
    head + Default(params) + Rendered(SortedKeys(params.Keys), params)
  }

  lemma KeysGrow(s: seq<string>, k: string)
    requires DistinctKeys(s) && k !in s
    ensures DistinctKeys(s + [k]) && Elements(s + [k]) == Elements(s) + {k}
  {
  }

  /** The parameter names, in whatever order the map yields them. */
  method CollectKeys(params: map<string, string>) returns (r: seq<string>)
    ensures DistinctKeys(r) && Elements(r) == params.Keys
  {
    r := [];
    var left := params.Keys;
    while left != {}
      invariant left <= params.Keys
      invariant DistinctKeys(r) && Elements(r) == params.Keys - left
    {
      var k :| k in left;
      assert k !in Elements(r);
      KeysGrow(r, k);
      r := r + [k];
      left := left - {k};
    }
  }

  /** The parameter names, sorted: the same list for every order of collection. */
  method SortKeys(params: map<string, string>) returns (r: seq<string>)
    ensures r == SortedKeys(params.Keys)
  {
    var collected := CollectKeys(params);
    var a := new string[|collected|](i requires 0 <= i < |collected| => collected[i]);
    assert a[..] == collected;
    Sort(a);
    r := a[..];
    SortSorts(collected);
    SortElements(collected);
    SortedUnique(r, SortedKeys(params.Keys));
  }

  lemma RenderedSnoc(keys: seq<string>, n: nat, params: map<string, string>)
    requires Elements(keys) == params.Keys && n < |keys|
    ensures Elements(keys[..n]) <= params.Keys && Elements(keys[..n + 1]) <= params.Keys && keys[n] in params
    ensures Rendered(keys[..n + 1], params) == Rendered(keys[..n], params) + (" " + keys[n] + "=" + params[keys[n]])
  {
    assert keys[n] in Elements(keys);
    forall k | k in keys[..n + 1] ensures k in Elements(keys) {
    }
    assert keys[..n + 1][..n] == keys[..n];
  }

  /** The string builder writes the specified text. */
  method ConnectionString(c: DatabaseConfig) returns (r: string)
    ensures r == Text(c)
  {
    r := Head(c);
    if SSL !in c.params {
      r := r + " sslmode=disable";
    }
    ghost var start := r;
    assert start == Head(c) + Default(c.params);
    if |c.params| > 0 {
      var keys := SortKeys(c.params);
      r := AppendParams(r, keys, c.params);
    } else {
      assert c.params.Keys == {};
      assert Text(c) == start + "";
    }
  }

  method AppendParams(start: string, keys: seq<string>, params: map<string, string>) returns (r: string)
    requires Elements(keys) == params.Keys
    ensures r == start + Rendered(keys, params)
  {
    r := start;
    var n := 0;
    while n < |keys|
      invariant 0 <= n <= |keys| && Elements(keys[..n]) <= params.Keys
      invariant r == start + Rendered(keys[..n], params)
    {
      RenderedSnoc(keys, n, params);
      r := r + (" " + keys[n] + "=" + params[keys[n]]);
      n := n + 1;
    }
    assert keys[..n] == keys;
  }
}
