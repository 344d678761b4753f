/**
  When two configurations have the same connection string. The string is a space-separated list of
  tokens, which a configuration free of spaces (and of '=' in parameter names) can be read back from.
  */
module ConnectionTokens {
  import opened Names
  import opened ConnectionStrings

  type Pair = (string, string)

  /** Tokens with one space between neighbours. */
  function Spaced(ts: seq<string>): (r: string)
    requires ts != []
  {
    if |ts| == 1 then ts[0] else ts[0] + " " + Spaced(ts[1..])
  }

  predicate NoSpaces(ts: seq<string>) {
    forall i :: 0 <= i < |ts| ==> ' ' !in ts[i]
  }

  lemma {:induction false} SpacedSnoc(ts: seq<string>, t: string)
    requires ts != []
    ensures Spaced(ts + [t]) == Spaced(ts) + " " + t
  {
    if |ts| == 1 {
      assert (ts + [t])[1..] == [t];
    } else {
      assert (ts + [t])[1..] == ts[1..] + [t];
      SpacedSnoc(ts[1..], t);
    }
  }

  lemma SpacedHead(ts: seq<string>)
    requires ts != [] && NoSpaces(ts)
    ensures FirstIndex(Spaced(ts), ' ') == |ts[0]|
    ensures |ts| == 1 <==> |Spaced(ts)| == |ts[0]|
  {
    if |ts| == 1 {
      assert ts[0] + "" == ts[0];
      FirstIndexAfter(ts[0], "", ' ');
    } else {
      assert ts[0] + (" " + Spaced(ts[1..])) == Spaced(ts);
      FirstIndexAfter(ts[0], " " + Spaced(ts[1..]), ' ');
    }
  }

  /** Splitting at spaces undoes the spacing. */
  lemma {:induction false} SpacedInjective(a: seq<string>, b: seq<string>)
    requires a != [] && b != [] && NoSpaces(a) && NoSpaces(b) && Spaced(a) == Spaced(b)
    ensures a == b
  {
    SpacedHead(a);
    SpacedHead(b);
    if |a| == 1 {
      assert a == [a[0]] && b == [b[0]];
    } else {
      SameHead(a[0], Spaced(a[1..]), b[0], Spaced(b[1..]), ' ');
      SpacedInjective(a[1..], b[1..]);
      assert a == [a[0]] + a[1..] && b == [b[0]] + b[1..];
    }
  }

  function PairToken(p: Pair): (r: string) {
    p.0 + "=" + p.1
  }

  function PairTokens(ps: seq<Pair>): (r: seq<string>)
    ensures |r| == |ps|
    ensures forall i :: 0 <= i < |ps| ==> r[i] == PairToken(ps[i])
  {
    if ps == [] then [] else PairTokens(ps[..|ps| - 1]) + [PairToken(ps[|ps| - 1])]
  }

  function PairsOf(keys: seq<string>, params: map<string, string>): (r: seq<Pair>)
    requires Elements(keys) <= params.Keys
    ensures |r| == |keys|
    ensures forall i :: 0 <= i < |keys| ==> keys[i] in params && r[i] == (keys[i], params[keys[i]])
  {
    if keys == [] then []
    else
      var k := keys[|keys| - 1];
      assert k in Elements(keys);
      assert Elements(keys[..|keys| - 1]) <= Elements(keys);
      PairsOf(keys[..|keys| - 1], params) + [(k, params[k])]
  }

  /** The default mode first, unless it is set, then the parameters by key. */
  ghost function Listing(params: map<string, string>): (r: seq<Pair>) {
    (if SSL in params then [] else [(SSL, "disable")]) + PairsOf(SortedKeys(params.Keys), params)
  }

  function FieldTokens(c: DatabaseConfig): (r: seq<string>)
    ensures |r| == 5
  {
    ["host=" + c.host, "port=" + PortText(c.port), "user=" + c.username,
     "password=" + c.password, "dbname=" + c.database]
  }

  ghost function Tokens(c: DatabaseConfig): (r: seq<string>)
    ensures r != []
  {
    FieldTokens(c) + PairTokens(Listing(c.params))
  }

  lemma SpacedFields(c: DatabaseConfig)
    ensures Spaced(FieldTokens(c)) == Head(c)
  {
    var h, p, u, w, d := "host=" + c.host, PortText(c.port), c.username, c.password, c.database;
    SpacedLabels();
    SpacedFive(h, "port=" + p, "user=" + u, "password=" + w, "dbname=" + d);
    Glue(h, " port=", "port=", p);
    Glue(h + " port=" + p, " user=", "user=", u);
    Glue(h + " port=" + p + " user=" + u, " password=", "password=", w);
    Glue(h + " port=" + p + " user=" + u + " password=" + w, " dbname=", "dbname=", d);
  }

  lemma SpacedLabels()
    ensures " " + "port=" == " port=" && " " + "user=" == " user="
    ensures " " + "password=" == " password=" && " " + "dbname=" == " dbname="
  {
  }

  /** One more field, set apart by a space. */
  lemma Glue(text: string, spaced: string, name: string, value: string)
    requires " " + name == spaced
    ensures text + " " + (name + value) == text + spaced + value
  {
    assert " " + (name + value) == (" " + name) + value;
  }

  lemma SpacedFive(a: string, b: string, c: string, d: string, e: string)
    ensures Spaced([a, b, c, d, e]) == a + " " + b + " " + c + " " + d + " " + e
  {
    SpacedSnoc([a], b);
    SpacedSnoc([a, b], c);
    SpacedSnoc([a, b, c], d);
    SpacedSnoc([a, b, c, d], e);
    assert [a] + [b] == [a, b] && [a, b] + [c] == [a, b, c] && [a, b, c] + [d] == [a, b, c, d];
    assert [a, b, c, d] + [e] == [a, b, c, d, e];
  }

  lemma {:induction false} SpacedPairs(ts: seq<string>, keys: seq<string>, params: map<string, string>)
    requires ts != [] && Elements(keys) <= params.Keys
    ensures Spaced(ts + PairTokens(PairsOf(keys, params))) == Spaced(ts) + Rendered(keys, params)
  {
    if keys == [] {
      assert ts + [] == ts;
    } else {
      var k, front := keys[|keys| - 1], keys[..|keys| - 1];
      assert k in Elements(keys);
      assert Elements(front) <= Elements(keys);
      SpacedPairs(ts, front, params);
      PairsSnoc(keys, params);
      SpacedPair(ts, PairTokens(PairsOf(front, params)), k, params[k]);
    }
  }

  lemma PairsSnoc(keys: seq<string>, params: map<string, string>)
    requires keys != [] && Elements(keys) <= params.Keys && Elements(keys[..|keys| - 1]) <= params.Keys
    ensures keys[|keys| - 1] in params
    ensures PairTokens(PairsOf(keys, params))
         == PairTokens(PairsOf(keys[..|keys| - 1], params)) + [PairToken((keys[|keys| - 1], params[keys[|keys| - 1]]))]
  {
    assert keys[|keys| - 1] in Elements(keys);
    assert PairsOf(keys, params)[..|keys| - 1] == PairsOf(keys[..|keys| - 1], params);
  }

  lemma SpacedPair(ts: seq<string>, us: seq<string>, k: string, v: string)
    requires ts != []
    ensures Spaced(ts + (us + [PairToken((k, v))])) == Spaced(ts + us) + (" " + k + "=" + v)
  {
    assert ts + (us + [PairToken((k, v))]) == (ts + us) + [PairToken((k, v))];
    SpacedSnoc(ts + us, PairToken((k, v)));
    assert " " + PairToken((k, v)) == " " + k + "=" + v;
  }

  lemma PairTokensCons(p: Pair, ps: seq<Pair>)
    ensures PairTokens([p] + ps) == [PairToken(p)] + PairTokens(ps)
  {
  }

  lemma SpacedDefault(ts: seq<string>, ps: seq<Pair>, rest: string)
    requires ts != []
    requires Spaced((ts + ["sslmode=disable"]) + PairTokens(ps)) == Spaced(ts + ["sslmode=disable"]) + rest
    ensures Spaced(ts + PairTokens([(SSL, "disable")] + ps)) == Spaced(ts) + " sslmode=disable" + rest
  {
    PairTokensCons((SSL, "disable"), ps);
    assert PairToken((SSL, "disable")) == "sslmode=disable";
    assert ts + (["sslmode=disable"] + PairTokens(ps)) == (ts + ["sslmode=disable"]) + PairTokens(ps);
    SpacedSnoc(ts, "sslmode=disable");
    assert Spaced(ts) + " " + "sslmode=disable" == Spaced(ts) + " sslmode=disable";
  }

  lemma DefaultIsSpaced(ts: seq<string>, keys: seq<string>, params: map<string, string>)
    requires ts != [] && Elements(keys) <= params.Keys
    ensures Spaced(ts) + " sslmode=disable" + Rendered(keys, params)
         == Spaced(ts + PairTokens([(SSL, "disable")] + PairsOf(keys, params)))
  {
    SpacedPairs(ts + ["sslmode=disable"], keys, params);
    SpacedDefault(ts, PairsOf(keys, params), Rendered(keys, params));
  }

  lemma SetMode(head: string, params: map<string, string>)
    requires SSL in params
    ensures Completed(head, params) == head + Rendered(SortedKeys(params.Keys), params)
    ensures Listing(params) == PairsOf(SortedKeys(params.Keys), params)
  {
    assert head + "" == head;
  }

  lemma CompletedIsSpaced(ts: seq<string>, params: map<string, string>)
    requires ts != []
    ensures Completed(Spaced(ts), params) == Spaced(ts + PairTokens(Listing(params)))
  {
    var keys := SortedKeys(params.Keys);
    if SSL in params {
      SetMode(Spaced(ts), params);
      SpacedPairs(ts, keys, params);
    } else {
      DefaultIsSpaced(ts, keys, params);
    }
  }

  /** The built string is the spaced list of tokens. */
  lemma TextIsSpaced(c: DatabaseConfig)
    ensures Text(c) == Spaced(Tokens(c))
  {
    SpacedFields(c);
    CompletedIsSpaced(FieldTokens(c), c.params);
  }

  // Reading a configuration back.

  predicate Clean(c: DatabaseConfig) {
    && ' ' !in c.host && ' ' !in c.username && ' ' !in c.password && ' ' !in c.database
    && forall k <- c.params :: ' ' !in k && '=' !in k && ' ' !in c.params[k]
  }

  /** The parameters in force. */
  function Effective(params: map<string, string>): (r: map<string, string>) {
    if SSL in params then params else params[SSL := "disable"]
  }

  predicate SameFields(c: DatabaseConfig, d: DatabaseConfig) {
    && c.host == d.host && c.port == d.port && c.username == d.username
    && c.password == d.password && c.database == d.database
  }

  lemma DecimalHasNoSpace(n: nat)
    ensures ' ' !in Decimal(n) && '-' !in Decimal(n)
  {
    assert AllDigits(Decimal(n));
  }

  lemma PortTextInjective(m: int, n: int)
    requires PortText(m) == PortText(n)
    ensures m == n
  {
    assert m < 0 ==> PortText(m)[0] == '-';
    assert n < 0 ==> PortText(n)[0] == '-';
    if m < 0 {
      DecimalHasNoSpace(if n < 0 then 0 else n);
      SameTail("-", Decimal(-m), Decimal(-n));
      DecimalInjective(-m, -n);
    } else {
      DecimalHasNoSpace(m);
      DecimalInjective(m, n);
    }
  }

  lemma PrefixedHasNoSpace(p: string, s: string)
    requires ' ' !in p && ' ' !in s
    ensures ' ' !in p + s
  {
  }

  lemma FieldsHaveNoSpaces(c: DatabaseConfig)
    requires Clean(c)
    ensures NoSpaces(FieldTokens(c))
  {
    if c.port < 0 {
      DecimalHasNoSpace(-c.port);
      PrefixedHasNoSpace("-", Decimal(-c.port));
    } else {
      DecimalHasNoSpace(c.port);
    }
    PrefixedHasNoSpace("host=", c.host);
    PrefixedHasNoSpace("port=", PortText(c.port));
    PrefixedHasNoSpace("user=", c.username);
    PrefixedHasNoSpace("password=", c.password);
    PrefixedHasNoSpace("dbname=", c.database);
  }

  predicate CleanPair(p: Pair) {
    ' ' !in p.0 && '=' !in p.0 && ' ' !in p.1
  }

  predicate CleanPairs(ps: seq<Pair>) {
    forall i :: 0 <= i < |ps| ==> CleanPair(ps[i])
  }

  lemma ListingIsClean(c: DatabaseConfig)
    requires Clean(c)
    ensures CleanPairs(Listing(c.params))
  {
    var ps := PairsOf(SortedKeys(c.params.Keys), c.params);
    assert CleanPairs(ps);
    assert CleanPair((SSL, "disable"));
  }

  lemma PairTokensHaveNoSpaces(ps: seq<Pair>)
    requires CleanPairs(ps)
    ensures NoSpaces(PairTokens(ps))
  {
    forall i | 0 <= i < |ps| ensures ' ' !in PairTokens(ps)[i] {
      assert CleanPair(ps[i]);
      PrefixedHasNoSpace(ps[i].0, "=");
      PrefixedHasNoSpace(ps[i].0 + "=", ps[i].1);
    }
  }

  lemma PairTokensInjective(ps: seq<Pair>, qs: seq<Pair>)
    requires CleanPairs(ps) && CleanPairs(qs) && PairTokens(ps) == PairTokens(qs)
    ensures ps == qs
  {
    forall i | 0 <= i < |ps| ensures ps[i] == qs[i] {
      assert CleanPair(ps[i]) && CleanPair(qs[i]);
      assert PairTokens(ps)[i] == PairTokens(qs)[i];
      SameHead(ps[i].0, ps[i].1, qs[i].0, qs[i].1, '=');
    }
  }

  lemma FieldTokensInjective(c: DatabaseConfig, d: DatabaseConfig)
    requires FieldTokens(c) == FieldTokens(d)
    ensures SameFields(c, d)
  {
    var s, t := FieldTokens(c), FieldTokens(d);
    assert s[0] == t[0] && s[1] == t[1] && s[2] == t[2] && s[3] == t[3] && s[4] == t[4];
    SameTail("host=", c.host, d.host);
    SameTail("port=", PortText(c.port), PortText(d.port));
    PortTextInjective(c.port, d.port);
    SameTail("user=", c.username, d.username);
    SameTail("password=", c.password, d.password);
    SameTail("dbname=", c.database, d.database);
  }

  lemma TokensInjective(c: DatabaseConfig, d: DatabaseConfig)
    requires Clean(c) && Clean(d) && Tokens(c) == Tokens(d)
    ensures SameFields(c, d) && Listing(c.params) == Listing(d.params)
  {
    assert Tokens(c)[..5] == FieldTokens(c) && Tokens(d)[..5] == FieldTokens(d);
    assert Tokens(c)[5..] == PairTokens(Listing(c.params)) && Tokens(d)[5..] == PairTokens(Listing(d.params));
    FieldTokensInjective(c, d);
    ListingIsClean(c);
    ListingIsClean(d);
    PairTokensInjective(Listing(c.params), Listing(d.params));
  }

  lemma TokensHaveNoSpaces(c: DatabaseConfig)
    requires Clean(c)
    ensures NoSpaces(Tokens(c))
  {
    FieldsHaveNoSpaces(c);
    ListingIsClean(c);
    PairTokensHaveNoSpaces(Listing(c.params));
  }

  lemma SameTextSameListing(c: DatabaseConfig, d: DatabaseConfig)
    requires Clean(c) && Clean(d)
    ensures Text(c) == Text(d) <==> SameFields(c, d) && Listing(c.params) == Listing(d.params)
  {
    TextIsSpaced(c);
    TextIsSpaced(d);
    if Text(c) == Text(d) {
      TokensHaveNoSpaces(c);
      TokensHaveNoSpaces(d);
      SpacedInjective(Tokens(c), Tokens(d));
      TokensInjective(c, d);
    }
  }

  // From listings to parameters in force.

  predicate Lists(ps: seq<Pair>, m: map<string, string>) {
    && (forall i :: 0 <= i < |ps| ==> ps[i].0 in m && m[ps[i].0] == ps[i].1)
    && (forall k <- m :: (k, m[k]) in ps)
  }

  lemma ListingLists(p: map<string, string>)
    ensures Lists(Listing(p), Effective(p))
  {
    var keys := SortedKeys(p.Keys);
    var ps := PairsOf(keys, p);
    forall k <- p ensures (k, p[k]) in ps {
      assert k in Elements(keys);
      var i :| 0 <= i < |keys| && keys[i] == k;
      assert ps[i] == (k, p[k]);
    }
    if SSL !in p {
      assert Listing(p)[0] == (SSL, "disable");
      assert forall i :: 0 < i < |Listing(p)| ==> Listing(p)[i] == ps[i - 1];
      assert forall x <- ps :: x in Listing(p);
    }
  }

  lemma ListsUnique(ps: seq<Pair>, m: map<string, string>, n: map<string, string>)
    requires Lists(ps, m) && Lists(ps, n)
    ensures m == n
  {
    forall k <- m ensures k in n && n[k] == m[k] {
      var i :| 0 <= i < |ps| && ps[i] == (k, m[k]);
    }
    forall k <- n ensures k in m {
      var i :| 0 <= i < |ps| && ps[i] == (k, n[k]);
    }
  }

  /**
    Equal strings mean equal settings: for configurations without spaces, and without '=' in
    parameter names, the comparison of strings never takes different settings for the same.
    */
  lemma EqualTextEqualSettings(c: DatabaseConfig, d: DatabaseConfig)
    requires Clean(c) && Clean(d) && Text(c) == Text(d)
    ensures SameFields(c, d) && Effective(c.params) == Effective(d.params)
  {
    SameTextSameListing(c, d);
    ListingLists(c.params);
    ListingLists(d.params);
    ListsUnique(Listing(c.params), Effective(c.params), Effective(d.params));
  }

  /** No other parameter sorts before the mode. */
  predicate ModeFirst(params: map<string, string>) {
    forall k <- params :: k == SSL || Less(SSL, k)
  }

  /** Both set the mode, or neither, or its place is the same either way. */
  predicate WrittenAlike(c: DatabaseConfig, d: DatabaseConfig) {
    (SSL in c.params <==> SSL in d.params) || ModeFirst(Effective(c.params))
  }

  /** The exact condition: same fields, same parameters in force, and the mode written in one place. */
  lemma EqualTextExactly(c: DatabaseConfig, d: DatabaseConfig)
    requires Clean(c) && Clean(d)
    ensures Text(c) == Text(d) <==> SameFields(c, d) && Effective(c.params) == Effective(d.params) && WrittenAlike(c, d)
  {
    SameTextSameListing(c, d);
    if Text(c) == Text(d) {
      EqualTextEqualSettings(c, d);
      if SSL in c.params && SSL !in d.params {
        ListingStart(c.params, d.params);
      } else if SSL in d.params && SSL !in c.params {
        ListingStart(d.params, c.params);
      }
    }
    if SameFields(c, d) && Effective(c.params) == Effective(d.params) && WrittenAlike(c, d) {
      if SSL in c.params && SSL !in d.params {
        SameListing(c.params, d.params);
      } else if SSL in d.params && SSL !in c.params {
        SameListing(d.params, c.params);
      } else {
        SameParams(c.params, d.params);
      }
    }
  }

  lemma SameParams(p: map<string, string>, q: map<string, string>)
    requires Effective(p) == Effective(q) && (SSL in p <==> SSL in q)
    ensures p == q
  {
    if SSL !in p {
      assert p == Effective(p) - {SSL};
      assert q == Effective(q) - {SSL};
    }
  }

  /** If a set mode is listed where the default is, it is listed first. */
  lemma ListingStart(p: map<string, string>, q: map<string, string>)
    requires SSL in p && SSL !in q && Listing(p) == Listing(q)
    ensures ModeFirst(p)
  {
    var keys := SortedKeys(p.Keys);
    var ps := PairsOf(keys, p);
    assert Listing(p) == ps;
    assert Listing(q)[0] == (SSL, "disable");
    assert ps[0].0 == keys[0];
    forall k <- p ensures k == SSL || Less(SSL, k) {
      assert k in Elements(keys);
      var i :| 0 <= i < |keys| && keys[i] == k;
      assert i > 0 ==> Less(keys[0], keys[i]);
    }
  }

  lemma ModeLeads(p: map<string, string>, rest: seq<string>)
    requires SSL in p && ModeFirst(p) && Sorted(rest) && Elements(rest) == p.Keys - {SSL}
    ensures SortedKeys(p.Keys) == [SSL] + rest
  {
    var all := [SSL] + rest;
    forall i | 0 <= i < |rest| ensures Less(SSL, rest[i]) {
      assert rest[i] in Elements(rest);
    }
    assert Elements(all) == {SSL} + Elements(rest);
    SortedUnique(all, SortedKeys(p.Keys));
  }

  lemma SameListing(p: map<string, string>, q: map<string, string>)
    requires SSL in p && SSL !in q && p == Effective(q) && ModeFirst(p)
    ensures Listing(p) == Listing(q)
  {
    var keys, rest := SortedKeys(p.Keys), SortedKeys(q.Keys);
    assert p.Keys - {SSL} == q.Keys;
    ModeLeads(p, rest);
    LeadingPair(keys, rest, p, q);
  }

  lemma LeadingPair(keys: seq<string>, rest: seq<string>, p: map<string, string>, q: map<string, string>)
    requires SSL in p && SSL !in q && p == Effective(q) && keys == [SSL] + rest
    requires Elements(keys) <= p.Keys && Elements(rest) <= q.Keys
    ensures PairsOf(keys, p) == [(SSL, "disable")] + PairsOf(rest, q)
  {
    var ps, qs := PairsOf(keys, p), PairsOf(rest, q);
    assert keys[0] == SSL;
    forall i | 0 < i < |ps| ensures ps[i] == qs[i - 1] {
      assert keys[i] == rest[i - 1];
    }
  }

  /** Same settings, different strings: a mode set explicitly moves behind any smaller key. */
  lemma ExplicitModeMoves(c: DatabaseConfig, d: DatabaseConfig, k: string)
    requires Clean(c) && Clean(d) && SameFields(c, d)
    requires SSL !in c.params && d.params == c.params[SSL := "disable"]
    requires k in c.params && Less(k, SSL)
    ensures Effective(c.params) == Effective(d.params) && Text(c) != Text(d)
  {
    ModeNotFirst(d.params, k);
    EqualTextExactly(c, d);
  }

  lemma ModeNotFirst(p: map<string, string>, k: string)
    requires k in p && Less(k, SSL)
    ensures !ModeFirst(p)
  {
    LessAsymmetric(k, SSL);
  }

  /** With spaces allowed, two configurations with different databases can have one string. */
  lemma SpacesConfuse()
    ensures exists c: DatabaseConfig, d: DatabaseConfig :: c.database != d.database && Text(c) == Text(d)
  {
    var c := DatabaseConfig("h", 1, "u", "x dbname=y", "z", map[]);
    var d := DatabaseConfig("h", 1, "u", "x", "y dbname=z", map[]);
    assert c.params == d.params;
    assert Head(c) == Head(d);
    assert c.database != d.database && Text(c) == Text(d);
  }
}
