/**
  Database names: the zero-padded printer for test databases, the template printer, a parser that
  splits a test name at its last underscore, and when the two families of names can meet.
  */
module Names {
  import opened Queues

  /** A decimal digit. */
  function Digit(d: nat): (r: char)
    requires d < 10
    ensures '0' <= r <= '9'
  {
    '0' + d as char
  }

  /** Decimal digits without padding. */
  function Decimal(n: nat): (r: string)
    ensures |r| >= 1 && AllDigits(r)
    ensures |r| > 1 ==> r[0] != '0'
    ensures r[0] == '0' ==> n == 0
  {
    if n < 10 then [Digit(n)] else Decimal(n / 10) + [Digit(n % 10)]
  }

  predicate AllDigits(s: string) {
    forall i :: 0 <= i < |s| ==> '0' <= s[i] <= '9'
  }

  /** The number a string of digits denotes. */
  function Value(s: string): (r: nat)
    requires AllDigits(s)
  {
    if s == "" then 0 else Value(s[..|s| - 1]) * 10 + (s[|s| - 1] - '0') as nat
  }

  function Zeros(k: nat): (r: string)
    ensures |r| == k && AllDigits(r)
  {
    if k == 0 then "" else "0" + Zeros(k - 1)
  }

  /** Decimal digits padded with zeros to width three, wider numbers in full. */
  function Padded(n: nat): (r: string)
    ensures AllDigits(r) && |r| >= 3
  {
    var d := Decimal(n);
    if |d| < 3 then Zeros(3 - |d|) + d else d
  }

  lemma {:induction false} ValueOfDecimal(n: nat)
    ensures Value(Decimal(n)) == n
  {
    var d := Decimal(n);
    if n < 10 {
      assert d[..0] == "";
    } else {
      ValueOfDecimal(n / 10);
      assert d[..|d| - 1] == Decimal(n / 10);
    }
  }

  lemma {:induction false} ValueOfZeros(k: nat, s: string)
    requires AllDigits(s)
    ensures Value(Zeros(k) + s) == Value(s)
  {
    var z := Zeros(k) + s;
    if s == "" {
      if k == 0 {
        assert z == "";
      } else {
        ZerosLast(k);
        assert z[..|z| - 1] == Zeros(k - 1) + "";
        ValueOfZeros(k - 1, "");
      }
    } else {
      assert z[..|z| - 1] == Zeros(k) + s[..|s| - 1];
      ValueOfZeros(k, s[..|s| - 1]);
    }
  }

  lemma {:induction false} ZerosLast(k: nat)
    requires k > 0
    ensures Zeros(k) == Zeros(k - 1) + "0"
  {
    if k > 1 {
      ZerosLast(k - 1);
    }
  }

  lemma ValueOfPadded(n: nat)
    ensures Value(Padded(n)) == n
  {
    var d := Decimal(n);
    ValueOfDecimal(n);
    if |d| < 3 {
      ValueOfZeros(3 - |d|, d);
    }
  }

  /** Different numbers print differently. */
  lemma DecimalInjective(m: nat, n: nat)
    requires Decimal(m) == Decimal(n)
    ensures m == n
  {
    ValueOfDecimal(m);
    ValueOfDecimal(n);
  }

  /** The name of a test database. */
  function TestName(prefix: string, hash: string, id: nat): (r: string) {
    prefix + hash + "_" + Padded(id)
  }

  lemma TestNameParts(prefix: string, hash: string, id: nat)
    ensures TestName(prefix, hash, id) == prefix + (hash + "_" + Padded(id))
  {
  }

  /** The prefix of test names that a new manager derives from its two configured prefixes. */
  function TestPrefix(dbPrefix: string, testPrefix: string): (r: string) {
    (if dbPrefix != "" then dbPrefix + "_" else "") + (if testPrefix != "" then testPrefix + "_" else "")
  }

  /** The name of a template database. */
  function TemplateName(dbPrefix: string, templatePrefix: string, hash: string): (r: string) {
    dbPrefix + "_" + templatePrefix + "_" + hash
  }

  /** The index of the last underscore. */
  function LastUnderscore(s: string): (r: Option<nat>)
    ensures r.None? <==> '_' !in s
    ensures r.Some? ==> r.value < |s| && s[r.value] == '_' && '_' !in s[r.value + 1..]
  {
    if s == "" then None
    else if s[|s| - 1] == '_' then Some(|s| - 1)
    else
      var front := s[..|s| - 1];
      var r := LastUnderscore(front);
      assert s == front + [s[|s| - 1]];
      assert r.Some? ==> s[r.value + 1..] == front[r.value + 1..] + [s[|s| - 1]];
      r
  }

  /** Reads back a hash and a padded number around the last underscore. */
  function ParseSuffix(rest: string): (r: Option<(string, nat)>) {
    match LastUnderscore(rest)
    case None => None
    case Some(k) => ReadNumber(rest[..k], rest[k + 1..])
  }

  function ReadNumber(hash: string, digits: string): (r: Option<(string, nat)>) {
    if AllDigits(digits) && digits == Padded(Value(digits)) then Some((hash, Value(digits))) else None
  }

  /** Reads a test name back: strip the prefix, split at the last underscore, read the number. */
  function ParseTestName(prefix: string, name: string): (r: Option<(string, nat)>) {
    if prefix <= name then ParseSuffix(name[|prefix|..]) else None
  }

  lemma {:induction false} LastSplit(hash: string, digits: string)
    requires AllDigits(digits)
    ensures LastUnderscore(hash + "_" + digits) == Some(|hash|)
  {
    var s := hash + "_" + digits;
    if digits != "" {
      assert s[..|s| - 1] == hash + "_" + digits[..|digits| - 1];
      LastSplit(hash, digits[..|digits| - 1]);
    }
  }

  lemma ReadPadded(hash: string, id: nat)
    ensures ReadNumber(hash, Padded(id)) == Some((hash, id))
  {
    ValueOfPadded(id);
  }

  lemma Split(hash: string, digits: string)
    ensures var rest := hash + "_" + digits; rest[..|hash|] == hash && rest[|hash| + 1..] == digits
  {
  }

  lemma Join(rest: string, k: nat)
    requires k < |rest| && rest[k] == '_'
    ensures rest == rest[..k] + "_" + rest[k + 1..]
  {
  }

  lemma SuffixPrinted(hash: string, id: nat)
    ensures ParseSuffix(hash + "_" + Padded(id)) == Some((hash, id))
  {
    var digits := Padded(id);
    LastSplit(hash, digits);
    Split(hash, digits);
    ReadPadded(hash, id);
  }

  lemma SuffixParsed(rest: string, hash: string, id: nat)
    requires ParseSuffix(rest) == Some((hash, id))
    ensures rest == hash + "_" + Padded(id)
  {
    var k := LastUnderscore(rest).value;
    Join(rest, k);
  }

  lemma ParsePrinted(prefix: string, hash: string, id: nat)
    ensures ParseTestName(prefix, TestName(prefix, hash, id)) == Some((hash, id))
  {
    var rest := hash + "_" + Padded(id);
    TestNameParts(prefix, hash, id);
    assert (prefix + rest)[|prefix|..] == rest;
    SuffixPrinted(hash, id);
  }

  lemma Rejoin(prefix: string, name: string)
    requires prefix <= name
    ensures name == prefix + name[|prefix|..]
  {
  }

  lemma PrintParsed(prefix: string, name: string, hash: string, id: nat)
    requires ParseTestName(prefix, name) == Some((hash, id))
    ensures name == TestName(prefix, hash, id)
  {
    SuffixParsed(name[|prefix|..], hash, id);
    Rejoin(prefix, name);
    TestNameParts(prefix, hash, id);
  }

  /** The parser accepts exactly the printed names and inverts the printer. */
  lemma ParseInvertsPrint(prefix: string, name: string, hash: string, id: nat)
    ensures ParseTestName(prefix, name) == Some((hash, id)) <==> name == TestName(prefix, hash, id)
  {
    ParsePrinted(prefix, hash, id);
    if ParseTestName(prefix, name) == Some((hash, id)) {
      PrintParsed(prefix, name, hash, id);
    }
  }

  /** Under one prefix a test name determines its hash and its id, whatever the hash contains. */
  lemma TestNameInjective(prefix: string, h1: string, id1: nat, h2: string, id2: nat)
    requires TestName(prefix, h1, id1) == TestName(prefix, h2, id2)
    ensures h1 == h2 && id1 == id2
  {
    ParseInvertsPrint(prefix, TestName(prefix, h1, id1), h1, id1);
    ParseInvertsPrint(prefix, TestName(prefix, h1, id1), h2, id2);
  }

  /** Some test name is also some template name. */
  ghost predicate Meet(dbPrefix: string, testPrefix: string, templatePrefix: string) {
    exists h1: string, id: nat, h2: string ::
      TestName(TestPrefix(dbPrefix, testPrefix), h1, id) == TemplateName(dbPrefix, templatePrefix, h2)
  }

  lemma CommonPrefix(p: string, x: string, q: string, y: string)
    requires p + x == q + y && |p| <= |q|
    ensures p <= q
  {
    forall i | 0 <= i < |p| ensures p[i] == q[i] {
      assert (p + x)[i] == (q + y)[i];
    }
  }

  lemma TemplateNameParts(dbPrefix: string, templatePrefix: string, hash: string)
    ensures TemplateName(dbPrefix, templatePrefix, hash) == TemplateName(dbPrefix, templatePrefix, "") + hash
    ensures TemplateName(dbPrefix, templatePrefix, hash) == (dbPrefix + "_") + (templatePrefix + "_" + hash)
  {
  }

  /** The two families meet exactly when one fixed part is a prefix of the other. */
  lemma NamesMeetWhen(dbPrefix: string, testPrefix: string, templatePrefix: string)
    ensures var p, q := TestPrefix(dbPrefix, testPrefix), TemplateName(dbPrefix, templatePrefix, "");
            Meet(dbPrefix, testPrefix, templatePrefix) <==> p <= q || q <= p
  {
    var p, q := TestPrefix(dbPrefix, testPrefix), TemplateName(dbPrefix, templatePrefix, "");
    if Meet(dbPrefix, testPrefix, templatePrefix) {
      var h1: string, id: nat, h2: string :| TestName(p, h1, id) == TemplateName(dbPrefix, templatePrefix, h2);
      TestNameParts(p, h1, id);
      TemplateNameParts(dbPrefix, templatePrefix, h2);
      if |p| <= |q| {
        CommonPrefix(p, h1 + "_" + Padded(id), q, h2);
      } else {
        CommonPrefix(q, h2, p, h1 + "_" + Padded(id));
      }
    }
    if p <= q {
      ShortMeets(dbPrefix, testPrefix, templatePrefix);
    } else if q <= p {
      LongMeets(dbPrefix, testPrefix, templatePrefix);
    }
  }

  lemma ShortMeets(dbPrefix: string, testPrefix: string, templatePrefix: string)
    requires TestPrefix(dbPrefix, testPrefix) <= TemplateName(dbPrefix, templatePrefix, "")
    ensures Meet(dbPrefix, testPrefix, templatePrefix)
  {
    var p, q := TestPrefix(dbPrefix, testPrefix), TemplateName(dbPrefix, templatePrefix, "");
    var tail := "_" + Padded(0);
    assert q == p + q[|p|..];
    assert p + q[|p|..] + "_" + Padded(0) == (p + q[|p|..]) + tail;
    TemplateNameParts(dbPrefix, templatePrefix, tail);
    assert TestName(p, q[|p|..], 0) == TemplateName(dbPrefix, templatePrefix, tail);
  }

  lemma LongMeets(dbPrefix: string, testPrefix: string, templatePrefix: string)
    requires TemplateName(dbPrefix, templatePrefix, "") <= TestPrefix(dbPrefix, testPrefix)
    ensures Meet(dbPrefix, testPrefix, templatePrefix)
  {
    var p, q := TestPrefix(dbPrefix, testPrefix), TemplateName(dbPrefix, templatePrefix, "");
    var tail := p[|q|..] + "_" + Padded(0);
    assert p == q + p[|q|..];
    assert p + "" + "_" + Padded(0) == q + tail;
    TemplateNameParts(dbPrefix, templatePrefix, tail);
    assert TestName(p, "", 0) == TemplateName(dbPrefix, templatePrefix, tail);
  }

  /** Distinct prefixes without underscores, the test prefix not empty, keep the families apart. */
  lemma NamesDisjoint(dbPrefix: string, testPrefix: string, templatePrefix: string, h1: string, id: nat, h2: string)
    requires testPrefix != "" && testPrefix != templatePrefix
    requires '_' !in testPrefix && '_' !in templatePrefix
    ensures TestName(TestPrefix(dbPrefix, testPrefix), h1, id) != TemplateName(dbPrefix, templatePrefix, h2)
  {
    TestNameParts(TestPrefix(dbPrefix, testPrefix), h1, id);
    TemplateNameParts(dbPrefix, templatePrefix, h2);
    RestsDiffer(dbPrefix, testPrefix, h1 + "_" + Padded(id), templatePrefix, h2);
  }

  lemma RestsDiffer(dbPrefix: string, x: string, xs: string, y: string, ys: string)
    requires x != "" && x != y && '_' !in x && '_' !in y
    ensures TestPrefix(dbPrefix, x) + xs != (dbPrefix + "_") + (y + "_" + ys)
  {
    var p := TestPrefix(dbPrefix, x);
    if dbPrefix == "" {
      FirstDiffers(x, "_" + xs, y + "_" + ys);
      assert p + xs == x + ("_" + xs);
      assert (dbPrefix + "_") + (y + "_" + ys) == "_" + (y + "_" + ys);
    } else {
      assert p + xs == (dbPrefix + "_") + (x + "_" + xs);
      PartsDiffer(dbPrefix + "_", x, xs, y, ys);
    }
  }

  lemma FirstDiffers(x: string, xs: string, ys: string)
    requires x != "" && '_' !in x
    ensures x + xs != "_" + ys
  {
    assert (x + xs)[0] == x[0];
    assert ("_" + ys)[0] == '_';
  }

  lemma PartsDiffer(p: string, x: string, xs: string, y: string, ys: string)
    requires x != y && '_' !in x && '_' !in y
    ensures p + (x + "_" + xs) != p + (y + "_" + ys)
  {
    if p + (x + "_" + xs) == p + (y + "_" + ys) {
      SameTail(p, x + "_" + xs, y + "_" + ys);
      SameHead(x, xs, y, ys, '_');
    }
  }

  lemma SameTail(p: string, x: string, y: string)
    requires p + x == p + y
    ensures x == y
  {
    assert (p + x)[|p|..] == x && (p + y)[|p|..] == y;
  }

  function FirstIndex(s: string, sep: char): (r: nat)
    ensures r <= |s|
  {
    if s == "" || s[0] == sep then 0 else 1 + FirstIndex(s[1..], sep)
  }

  lemma {:induction false} FirstIndexAfter(x: string, rest: string, sep: char)
    requires sep !in x && (rest == "" || rest[0] == sep)
    ensures FirstIndex(x + rest, sep) == |x|
  {
    if x == "" {
      assert x + rest == rest;
    } else {
      assert (x + rest)[1..] == x[1..] + rest;
      FirstIndexAfter(x[1..], rest, sep);
    }
  }

  /** Text up to the first separator is determined by the whole. */
  lemma SameHead(x: string, xs: string, y: string, ys: string, sep: char)
    requires sep !in x && sep !in y && x + [sep] + xs == y + [sep] + ys
    ensures x == y && xs == ys
  {
    var a := x + [sep] + xs;
    assert x + ([sep] + xs) == a && y + ([sep] + ys) == a;
    FirstIndexAfter(x, [sep] + xs, sep);
    FirstIndexAfter(y, [sep] + ys, sep);
    assert a[..|x|] == x && a[..|y|] == y;
    assert a[|x| + 1..] == xs && a[|y| + 1..] == ys;
  }

  /** Without a test prefix the families meet, whatever the other prefixes are. */
  lemma EmptyTestPrefixMeets(dbPrefix: string, templatePrefix: string)
    ensures Meet(dbPrefix, "", templatePrefix)
  {
    var p, q := TestPrefix(dbPrefix, ""), TemplateName(dbPrefix, templatePrefix, "");
    assert p <= q;
    NamesMeetWhen(dbPrefix, "", templatePrefix);
  }
}
