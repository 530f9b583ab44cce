/** The names of dump files, which carry what the replay needs to know about them. */
module DumpName {
  import opened Text

  const CLIENT_ERROR := "2"
  const TRANSIENT := "1"

  function Digit(d: nat): char
    requires d < 10
  {
    ('0' as int + d) as char
  }

  predicate AllDigits(s: string) {
    forall i | 0 <= i < |s| :: '0' <= s[i] <= '9'
  }

  // strconv.Itoa on a non-negative number.
  function Itoa(n: nat): (s: string)
    ensures s != "" && AllDigits(s)
  {
    if n < 10 then [Digit(n)] else Itoa(n / 10) + [Digit(n % 10)]
  }

  function Atoi(s: string): nat
    requires AllDigits(s)
  {
    if s == "" then 0 else 10 * Atoi(s[..|s| - 1]) + (s[|s| - 1] as int - '0' as int)
  }

  lemma {:induction false} AtoiItoa(n: nat)
    ensures Atoi(Itoa(n)) == n
  {
    if n < 10 {
      assert Itoa(n)[..0] == "";
    } else {
      AtoiItoa(n / 10);
      assert Itoa(n)[..|Itoa(n)| - 1] == Itoa(n / 10);
    }
  }

  // What follows the kind.
  function Numbers(num: nat, status: nat): string {
    Itoa(num) + ['-'] + (Itoa(status) + ".dmp")
  }

  // dumpName.
  function FileName(prefix: string, num: nat, kind: string, status: nat): string {
    "dump" + prefix + kind + "-" + Numbers(num, status)
  }

  // The kind a worker, or a synchronous request, gives to a dump.
  function KindOf(status: nat): string {
    if 400 <= status < 502 then CLIENT_ERROR else TRANSIENT
  }

  // An example: the seventh dump of a process, after a response with status 404.
  lemma SeventhDump()
    ensures FileName("20240102030405", 7, KindOf(404), 404) == "dump" + "20240102030405" + "2-7-404.dmp"
  {
    assert Itoa(4) == "4" && Itoa(40) == "40";
    assert Itoa(404) == Itoa(40) + "4" == "404" && Itoa(7) == "7";
    assert Numbers(7, 404) == "7-404.dmp";
    assert "dump" + "20240102030405" + "2" + "-" + "7-404.dmp" == "dump" + "20240102030405" + "2-7-404.dmp";
  }

  predicate IsKind(kind: string) {
    kind == TRANSIENT || kind == CLIENT_ERROR
  }

  predicate IsNumber(s: string) {
    s != "" && AllDigits(s)
  }

  // isClientErrorDumpFile, as a scan of the name.
  predicate IsClientError(name: string) {
    && |name| > 24 && name[..4] == "dump" && AllDigits(name[4..18]) && name[18..20] == "2-"
    && name[|name| - 4..] == ".dmp"
    && var middle := name[20..|name| - 4];
       var i := Index(middle, "-");
       i >= 0 && IsNumber(middle[..i]) && IsNumber(middle[i + 1..])
  }

  // The pattern it stands for: fourteen digits, "2", and two numbers between hyphens.
  ghost predicate InPattern(name: string) {
    exists p, a, b :: |p| == 14 && AllDigits(p) && IsNumber(a) && IsNumber(b) && name == ClientErrorShape(p, a, b)
  }

  function ClientErrorShape(p: string, a: string, b: string): string {
    "dump" + p + "2-" + (a + "-" + b) + ".dmp"
  }

  lemma NameParts(prefix: string, num: nat, kind: string, status: nat)
    requires |prefix| == 14 && IsKind(kind)
    ensures var name := FileName(prefix, num, kind, status);
            |name| > 20 && name[18] == kind[0] && name[20..] == Numbers(num, status)
  {
    var head := "dump" + prefix + kind + "-";
    assert |head| == 20;
    assert head[18] == kind[0];
    assert FileName(prefix, num, kind, status) == head + Numbers(num, status);
    assert FileName(prefix, num, kind, status)[18] == head[18];
  }

  lemma NumbersInjective(num: nat, status: nat, num': nat, status': nat)
    requires Numbers(num, status) == Numbers(num', status')
    ensures num == num' && status == status'
  {
    var a, a' := Itoa(num), Itoa(num');
    var b, b' := Itoa(status) + ".dmp", Itoa(status') + ".dmp";
    FirstSeparator(a, '-', b);
    FirstSeparator(a', '-', b');
    assert a == Numbers(num, status)[..|a|] == a';
    assert b == Numbers(num, status)[|a| + 1..] == b';
    assert Itoa(status) == b[..|b| - 4] == Itoa(status');
    AtoiItoa(num);
    AtoiItoa(num');
    AtoiItoa(status);
    AtoiItoa(status');
  }

  /** Within one process, which has one prefix, two dumps never share a file name. */
  lemma NamesDiffer(prefix: string, num: nat, kind: string, status: nat, num': nat, kind': string, status': nat)
    requires |prefix| == 14 && IsKind(kind) && IsKind(kind')
    requires FileName(prefix, num, kind, status) == FileName(prefix, num', kind', status')
    ensures num == num' && kind == kind' && status == status'
  {
    NameParts(prefix, num, kind, status);
    NameParts(prefix, num', kind', status');
    NumbersInjective(num, status, num', status');
  }

  lemma ShapeParts(p: string, a: string, b: string)
    requires |p| == 14
    ensures var name := ClientErrorShape(p, a, b);
            && |name| == 25 + |a| + |b| && name[..4] == "dump" && name[4..18] == p && name[18..20] == "2-"
            && name[20..|name| - 4] == a + ['-'] + b && name[|name| - 4..] == ".dmp"
  {
    var head, mid := "dump" + p + "2-", a + ['-'] + b;
    var name := ClientErrorShape(p, a, b);
    assert name == head + (mid + ".dmp");
    assert name[..20] == head;
    assert name[..4] == head[..4] && name[4..18] == head[4..18] && name[18..20] == head[18..20];
    assert name[20..] == mid + ".dmp";
  }

  lemma Around(s: string, c: char, i: nat)
    requires OccursAt(s, [c], i)
    ensures s == s[..i] + [c] + s[i + 1..]
  {
    assert s[i] == s[i..i + 1][0];
  }

  lemma FiveParts(s: string, n: nat)
    requires 20 <= n <= |s|
    ensures s == s[..4] + s[4..18] + s[18..20] + s[20..n] + s[n..]
  {
  }

  lemma ScannedHasShape(name: string)
    requires IsClientError(name)
    ensures InPattern(name)
  {
    var n := |name| - 4;
    var middle := name[20..n];
    var i := Index(middle, "-");
    var p, a, b := name[4..18], middle[..i], middle[i + 1..];
    Around(middle, '-', i);
    FiveParts(name, n);
    assert name == ClientErrorShape(p, a, b);
  }

  lemma ShapeIsScanned(p: string, a: string, b: string)
    requires |p| == 14 && AllDigits(p) && IsNumber(a) && IsNumber(b)
    ensures IsClientError(ClientErrorShape(p, a, b))
  {
    hide ClientErrorShape;
    ShapeParts(p, a, b);
    assert '-' !in a;
    FirstSeparator(a, '-', b);
    assert (a + ['-'] + b)[|a| + 1..] == b;
  }

  /** The scan accepts exactly the names of the pattern. */
  lemma ScanIsPattern(name: string)
    ensures IsClientError(name) <==> InPattern(name)
  {
    if InPattern(name) {
      var p, a, b :| |p| == 14 && AllDigits(p) && IsNumber(a) && IsNumber(b) && name == ClientErrorShape(p, a, b);
      ShapeIsScanned(p, a, b);
    }
    if IsClientError(name) {
      ScannedHasShape(name);
    }
  }

  /**
   A dump written after a failed send is later taken for a client error, and so never retried on its own, exactly when
   the status was from 400 to 501.
   */
  lemma RetryClass(prefix: string, num: nat, status: nat)
    requires |prefix| == 14 && AllDigits(prefix)
    ensures IsClientError(FileName(prefix, num, KindOf(status), status)) <==> 400 <= status < 502
  {
    var name := FileName(prefix, num, KindOf(status), status);
    NameParts(prefix, num, KindOf(status), status);
    if 400 <= status < 502 {
      assert name == ClientErrorShape(prefix, Itoa(num), Itoa(status));
      ScanIsPattern(name);
    } else {
      assert name[18..20][0] == name[18] == '1';
    }
  }

  // ---------------------------------------------------------------- names still to be given

  // None of these names is still to be given.
  ghost predicate Unused(prefix: string, dumpNum: nat, names: set<string>) {
    forall num: nat, kind, status: nat | num > dumpNum && IsKind(kind) ::
      FileName(prefix, num, kind, status) !in names
  }

  lemma NameIsNew(prefix: string, dumpNum: nat, kind: string, status: nat, names: set<string>)
    requires |prefix| == 14 && IsKind(kind) && Unused(prefix, dumpNum, names)
    ensures var name := FileName(prefix, dumpNum + 1, kind, status);
            name !in names && Unused(prefix, dumpNum + 1, names + {name})
  {
    hide FileName;
    var name := FileName(prefix, dumpNum + 1, kind, status);
    forall num: nat, k, st: nat | num > dumpNum + 1 && IsKind(k)
      ensures FileName(prefix, num, k, st) != name
    {
      if FileName(prefix, num, k, st) == name {
        NamesDiffer(prefix, num, k, st, dumpNum + 1, kind, status);
      }
    }
  }

  lemma FewerUnused(prefix: string, dumpNum: nat, names: set<string>, names': set<string>)
    requires Unused(prefix, dumpNum, names) && names' <= names
    ensures Unused(prefix, dumpNum, names')
  {
  }

  // A name carries its prefix.
  lemma PrefixOf(prefix: string, num: nat, kind: string, status: nat)
    requires |prefix| == 14 && IsKind(kind)
    ensures var name := FileName(prefix, num, kind, status);
            |name| > 20 && name[4..18] == prefix
  {
    var head := "dump" + prefix + kind + "-";
    assert FileName(prefix, num, kind, status) == head + Numbers(num, status);
    assert head[4..18] == prefix;
    assert FileName(prefix, num, kind, status)[4..18] == head[4..18];
  }

  /** Two dumps share a name exactly when they share the prefix, the number and the status. */
  lemma SameNameExactly(prefix: string, num: nat, status: nat, prefix': string, num': nat, status': nat)
    requires |prefix| == 14 == |prefix'|
    ensures FileName(prefix, num, KindOf(status), status) == FileName(prefix', num', KindOf(status'), status')
       <==> prefix == prefix' && num == num' && status == status'
  {
    hide FileName;
    if FileName(prefix, num, KindOf(status), status) == FileName(prefix', num', KindOf(status'), status') {
      PrefixOf(prefix, num, KindOf(status), status);
      PrefixOf(prefix', num', KindOf(status'), status');
      NamesDiffer(prefix, num, KindOf(status), status, num', KindOf(status'), status');
    }
  }

  ghost predicate OfPrefixes(names: set<string>, prefixes: set<string>) {
    forall f | f in names :: |f| > 20 && f[4..18] in prefixes
  }

  // A process with a prefix of its own may give every name.
  lemma NewPrefix(prefix: string, prefixes: set<string>, names: set<string>)
    requires |prefix| == 14 && prefix !in prefixes && OfPrefixes(names, prefixes)
    ensures Unused(prefix, 0, names)
  {
    hide FileName;
    forall num: nat, kind, status: nat | num > 0 && IsKind(kind) ensures FileName(prefix, num, kind, status) !in names {
      PrefixOf(prefix, num, kind, status);
    }
  }
}
