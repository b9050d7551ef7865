/** Which log files are handed out: source/main/ipc/get-logs.js. */
module LogSelection {
  import opened Sequences

  const ALLOWED_LOGS: seq<string> := [
    "Klarity.json",
    "System-info.json",
    "Klarity-versions.json",
    "State-snapshot.json",
    "Wallet-migration-report.json",
    "bcc-wallet.log",
    "node.log"
  ]
  const MAX_LOGS_ALLOWED := 3
  const STAMP := 14

  datatype File = File(name: string, isFile: bool)

  datatype Family = Node | Wallet | Launcher

  datatype Kind = Allowed | Rotated(family: Family) | Unknown

  predicate Digits(s: string) {
    forall c <- s :: '0' <= c <= '9'
  }

  predicate IsOldKlarityLog(name: string) {
    var base := ALLOWED_LOGS[0];
    && base <= name
    && |name| == |base| + 1 + STAMP
    && name[|base|] == '-'
    && Digits(name[|base| + 1..])
  }

  predicate IsFileAllowed(name: string) {
    name in ALLOWED_LOGS || IsOldKlarityLog(name)
  }

  function Prefix(family: Family): string {
    match family
    case Node => "node.log-"
    case Wallet => "bcc-wallet.log-"
    case Launcher => "launcher-"
  }

  /** A pattern's dot stands for any character but a line end. */
  predicate CharMatches(pattern: char, c: char) {
    if pattern == '.' then c !in {'\n', '\r', '\U{2028}', '\U{2029}'} else c == pattern
  }

  /** The name ends in the family's prefix and a stamp of fourteen digits; anything may come before. */
  predicate BelongsTo(name: string, family: Family) {
    var prefix := Prefix(family);
    var at := |name| - STAMP - |prefix|;
    && at >= 0
    && Digits(name[|name| - STAMP..])
    && forall k :: 0 <= k < |prefix| ==> CharMatches(prefix[k], name[at + k])
  }

  function KindOf(name: string): Kind {
    if IsFileAllowed(name) then Allowed
    else if BelongsTo(name, Node) then Rotated(Node)
    else if BelongsTo(name, Wallet) then Rotated(Wallet)
    else if BelongsTo(name, Launcher) then Rotated(Launcher)
    else Unknown
  }

  /** Two letters that tell the families apart. */
  lemma Marks(name: string, family: Family)
    requires BelongsTo(name, family)
    ensures var n := |name| - STAMP;
            && n >= 9
            && name[n - 2] == (if family == Launcher then 'r' else 'g')
            && name[n - 6] == (match family case Node => 'e' case Wallet => 't' case Launcher => 'n')
  {
    var prefix := Prefix(family);
    assert CharMatches(prefix[|prefix| - 2], name[|name| - STAMP - |prefix| + (|prefix| - 2)]);
    assert CharMatches(prefix[|prefix| - 6], name[|name| - STAMP - |prefix| + (|prefix| - 6)]);
  }

  lemma FamiliesAreDisjoint(name: string, a: Family, b: Family)
    requires a != b
    ensures !(BelongsTo(name, a) && BelongsTo(name, b))
  {
    if BelongsTo(name, a) && BelongsTo(name, b) {
      Marks(name, a);
      Marks(name, b);
    }
  }

  /** A stamp of fourteen digits. */
  predicate IsStamp(s: string) {
    |s| == 14 && Digits(s)
  }

  /** Exactly these digits make a stamp, and exactly the stamped names of the application's log, and no others, are
      those of its older versions. */
  lemma OldNamesAreStamped(name: string, stamp: string)
    ensures IsStamp(stamp) <==> |stamp| == 14 && forall c <- stamp :: c in "0123456789"
    ensures |name| > 13 ==> (IsOldKlarityLog(name) <==> name[..13] == "Klarity.json-" && IsStamp(name[13..]))
    ensures |name| <= 13 ==> !IsOldKlarityLog(name)
  {
    DigitsAre(stamp);
    if |name| > 13 {
      assert name[..13] == name[..12] + [name[12]];
      assert "Klarity.json-" == "Klarity.json" + "-";
    }
  }

  lemma DigitsAre(s: string)
    ensures Digits(s) <==> forall c <- s :: c in "0123456789"
  {
    forall c: char
      ensures '0' <= c <= '9' <==> c in "0123456789"
    {
      assert forall i :: 0 <= i < 10 ==> "0123456789"[i] == '0' + (i as char);
      if '0' <= c <= '9' {
        assert "0123456789"[(c - '0') as int] == c;
      }
    }
  }

  predicate MatchesAt(pattern: string, name: string, at: int) {
    0 <= at && at + |pattern| <= |name| && forall k :: 0 <= k < |pattern| ==> CharMatches(pattern[k], name[at + k])
  }

  lemma PlainMatches(pattern: string, name: string, at: nat)
    requires '.' !in pattern && at + |pattern| <= |name|
    ensures MatchesAt(pattern, name, at) <==> name[at..at + |pattern|] == pattern
  {
    forall k | 0 <= k < |pattern|
      ensures CharMatches(pattern[k], name[at + k]) <==> name[at..at + |pattern|][k] == pattern[k]
    {
      assert pattern[k] in pattern;
    }
  }

  lemma JoinedMatches(a: string, b: string, name: string, at: nat)
    ensures MatchesAt(a + b, name, at) <==> MatchesAt(a, name, at) && MatchesAt(b, name, at + |a|)
  {
    if MatchesAt(a + b, name, at) {
      forall k | 0 <= k < |a|
        ensures CharMatches(a[k], name[at + k])
      {
        assert (a + b)[k] == a[k];
      }
      forall k | 0 <= k < |b|
        ensures CharMatches(b[k], name[at + |a| + k])
      {
        assert (a + b)[|a| + k] == b[k];
      }
    }
  }

  predicate EndsInStamp(name: string) {
    |name| >= 14 && IsStamp(name[|name| - 14..])
  }

  lemma BelongsByParts(name: string, family: Family)
    ensures BelongsTo(name, family) <==>
            EndsInStamp(name) && MatchesAt(Prefix(family), name, |name| - 14 - |Prefix(family)|)
  {
  }

  lemma PatternMatchesItself(pattern: string, before: string, stamp: string)
    requires IsStamp(stamp)
    ensures MatchesAt(pattern, before + pattern + stamp, |before|) && EndsInStamp(before + pattern + stamp)
  {
    var name := before + pattern + stamp;
    assert name[|name| - 14..] == stamp;
    forall k | 0 <= k < |pattern|
      ensures CharMatches(pattern[k], name[|before| + k])
    {
      assert name[|before| + k] == pattern[k];
    }
  }

  /** At this place stand the base name, any character but a line end, and then what a rotated log goes on with. */
  predicate LogAt(base: string, name: string, at: int) {
    && 0 <= at && at + |base| + 5 <= |name|
    && name[at..at + |base|] == base
    && name[at + |base|] !in {'\n', '\r', '\U{2028}', '\U{2029}'}
    && name[at + |base| + 1..at + |base| + 5] == "log-"
  }

  lemma DotMatches(name: string, at: nat)
    requires at < |name|
    ensures MatchesAt(".", name, at) <==> name[at] !in {'\n', '\r', '\U{2028}', '\U{2029}'}
  {
    assert "."[0] == '.' && name[at + 0] == name[at];
    assert CharMatches("."[0], name[at + 0]) <==> name[at] !in {'\n', '\r', '\U{2028}', '\U{2029}'};
  }

  lemma LogMatches(base: string, name: string, at: int)
    requires '.' !in base
    ensures MatchesAt(base + ("." + "log-"), name, at) <==> LogAt(base, name, at)
  {
    if 0 <= at && at + |base| + 5 <= |name| {
      JoinedMatches(base, "." + "log-", name, at);
      JoinedMatches(".", "log-", name, at + |base|);
      DotMatches(name, at + |base|);
      PlainMatches(base, name, at);
      PlainMatches("log-", name, at + |base| + 1);
    }
  }

  lemma PrefixParts()
    ensures Prefix(Node) == "node" + ("." + "log-") && Prefix(Wallet) == "bcc-wallet" + ("." + "log-")
  {
  }

  /** What the patterns ask for: fourteen digits at the end, the family's prefix right before them, and where the
      pattern has a dot any character but a line end. */
  lemma BelongsExactly(name: string)
    ensures BelongsTo(name, Node) <==> EndsInStamp(name) && LogAt("node", name, |name| - 23)
    ensures BelongsTo(name, Wallet) <==> EndsInStamp(name) && LogAt("bcc-wallet", name, |name| - 29)
    ensures BelongsTo(name, Launcher) <==>
            |name| >= 23 && EndsInStamp(name) && name[|name| - 23..|name| - 14] == "launcher-"
  {
    BelongsByParts(name, Node);
    BelongsByParts(name, Wallet);
    BelongsByParts(name, Launcher);
    PrefixParts();
    LogMatches("node", name, |name| - 23);
    LogMatches("bcc-wallet", name, |name| - 29);
    if |name| >= 23 {
      PlainMatches("launcher-", name, |name| - 23);
    }
  }

  lemma ListedEndsInLetter(name: string)
    requires name in ALLOWED_LOGS
    ensures name != "" && name[|name| - 1] in {'n', 'g'}
  {
    var i :| 0 <= i < |ALLOWED_LOGS| && ALLOWED_LOGS[i] == name;
  }

  /** A stamped name that does not begin with a capital K is not allowed as it is. */
  lemma StampedIsNotAllowed(name: string, stamp: string)
    requires IsStamp(stamp) && |name| >= 14 && name[|name| - 14..] == stamp && name[0] != 'K'
    ensures !IsFileAllowed(name)
  {
    assert stamp[13] in stamp && stamp[13] == name[|name| - 1];
    if name in ALLOWED_LOGS {
      ListedEndsInLetter(name);
    }
    assert ALLOWED_LOGS[0][0] == 'K';
  }

  lemma KindOfFamily(name: string, family: Family)
    requires !IsFileAllowed(name) && BelongsTo(name, family)
    ensures KindOf(name) == Rotated(family)
  {
    if family != Node {
      FamiliesAreDisjoint(name, Node, family);
    }
    if family == Launcher {
      FamiliesAreDisjoint(name, Wallet, family);
    }
  }

  lemma RotatedName(family: Family, prefix: string, stamp: string)
    requires IsStamp(stamp) && prefix == Prefix(family)
    ensures KindOf(prefix + stamp) == Rotated(family)
  {
    var name := prefix + stamp;
    assert name == "" + prefix + stamp;
    PatternMatchesItself(prefix, "", stamp);
    BelongsByParts(name, family);
    assert name[|name| - 14..] == stamp && name[0] == prefix[0];
    StampedIsNotAllowed(name, stamp);
    KindOfFamily(name, family);
  }

  lemma OldName(stamp: string)
    requires IsStamp(stamp)
    ensures IsOldKlarityLog("Klarity.json-" + stamp)
  {
    var name, base := "Klarity.json-" + stamp, "Klarity.json";
    assert name[|base| + 1..] == stamp && name[..|base|] == base && name[|base|] == '-';
    assert ALLOWED_LOGS[0] == base;
  }

  /** The names that the application's log files have. */
  lemma NamesByKind(stamp: string)
    requires IsStamp(stamp)
    ensures KindOf("node.log-" + stamp) == Rotated(Node)
    ensures KindOf("bcc-wallet.log-" + stamp) == Rotated(Wallet)
    ensures KindOf("launcher-" + stamp) == Rotated(Launcher)
    ensures KindOf("Klarity.json-" + stamp) == Allowed
    ensures forall name <- ALLOWED_LOGS :: KindOf(name) == Allowed
  {
    RotatedName(Node, "node.log-", stamp);
    RotatedName(Wallet, "bcc-wallet.log-", stamp);
    RotatedName(Launcher, "launcher-", stamp);
    OldName(stamp);
  }

  // Order of names, and sorting.

  predicate Less(a: string, b: string) {
    if b == "" then false
    else if a == "" then true
    else if a[0] != b[0] then a[0] < b[0]
    else Less(a[1..], b[1..])
  }

  lemma {:induction false} LessIsLinear(a: string, b: string)
    ensures Less(a, b) || Less(b, a) <==> a != b
    ensures !(Less(a, b) && Less(b, a))
  {
    if a != "" && b != "" && a[0] == b[0] {
      LessIsLinear(a[1..], b[1..]);
      assert a == [a[0]] + a[1..] && b == [b[0]] + b[1..];
    }
  }

  lemma {:induction false} LessIsTransitive(a: string, b: string, c: string)
    requires !Less(b, a) && !Less(c, b)
    ensures !Less(c, a)
  {
    if a != "" && b != "" && c != "" && a[0] == b[0] == c[0] {
      LessIsTransitive(a[1..], b[1..], c[1..]);
    }
  }

  function Insert<T>(x: T, items: seq<T>, key: T -> string): seq<T> {
    if items == [] || !Less(key(items[0]), key(x)) then [x] + items
    else [items[0]] + Insert(x, items[1..], key)
  }

  /** A stable sort by a key. */
  function SortBy<T>(items: seq<T>, key: T -> string): seq<T> {
    if items == [] then [] else Insert(items[0], SortBy(items[1..], key), key)
  }

  ghost predicate Ordered<T>(items: seq<T>, key: T -> string) {
    forall i, j :: 0 <= i < j < |items| ==> !Less(key(items[j]), key(items[i]))
  }

  lemma {:induction false} InsertAdds<T>(x: T, items: seq<T>, key: T -> string)
    ensures multiset(Insert(x, items, key)) == multiset(items) + multiset{x}
  {
    if items != [] {
      InsertAdds(x, items[1..], key);
      assert items == [items[0]] + items[1..];
    }
  }

  lemma FirstIsLeast<T>(x: T, items: seq<T>, key: T -> string)
    requires Ordered(items, key) && forall j :: 0 <= j < |items| ==> !Less(key(items[j]), key(x))
    ensures Ordered([x] + items, key)
  {
  }

  lemma {:induction false} InsertKeepsOrder<T>(x: T, items: seq<T>, key: T -> string)
    requires Ordered(items, key)
    ensures Ordered(Insert(x, items, key), key)
  {
    if items == [] {
    } else if !Less(key(items[0]), key(x)) {
      forall j | 0 <= j < |items|
        ensures !Less(key(items[j]), key(x))
      {
        if j > 0 {
          LessIsTransitive(key(x), key(items[0]), key(items[j]));
        }
      }
      FirstIsLeast(x, items, key);
    } else {
      var rest := Insert(x, items[1..], key);
      InsertKeepsOrder(x, items[1..], key);
      InsertAdds(x, items[1..], key);
      LessIsLinear(key(items[0]), key(x));
      forall j | 0 <= j < |rest|
        ensures !Less(key(rest[j]), key(items[0]))
      {
        assert rest[j] in multiset(rest);
        assert rest[j] == x || rest[j] in items[1..];
      }
      FirstIsLeast(items[0], rest, key);
    }
  }

  lemma {:induction false} SortByOrders<T>(items: seq<T>, key: T -> string)
    ensures Ordered(SortBy(items, key), key)
    ensures multiset(SortBy(items, key)) == multiset(items)
  {
    if items != [] {
      SortByOrders(items[1..], key);
      InsertKeepsOrder(items[0], SortBy(items[1..], key), key);
      InsertAdds(items[0], SortBy(items[1..], key), key);
      assert items == [items[0]] + items[1..];
    }
  }

  function Reverse<T>(items: seq<T>): (r: seq<T>)
    ensures |r| == |items| && forall i :: 0 <= i < |items| ==> r[i] == items[|items| - 1 - i]
  {
    if items == [] then [] else Reverse(items[1..]) + [items[0]]
  }

  function NameOf(f: File): string {
    f.name
  }

  /** The directory, greatest names first. */
  function Listing(directory: seq<File>): seq<File> {
    Reverse(SortBy(directory, NameOf))
  }

  ghost predicate Descending(files: seq<File>) {
    forall i, j :: 0 <= i < j < |files| ==> Less(files[j].name, files[i].name)
  }

  ghost predicate DistinctNames(files: seq<File>) {
    forall i, j :: 0 <= i < j < |files| ==> files[i].name != files[j].name
  }

  // The selection.

  predicate InFamily(f: File, family: Family) {
    f.isFile && KindOf(f.name) == Rotated(family)
  }

  function MemberOf(family: Family): File -> bool {
    (f: File) => InFamily(f, family)
  }

  function CountOf(files: seq<File>, p: File -> bool): nat {
    if files == [] then 0
    else CountOf(files[..|files| - 1], p) + if p(files[|files| - 1]) then 1 else 0
  }

  function Count(files: seq<File>, family: Family): nat {
    CountOf(files, MemberOf(family))
  }

  predicate Takes(before: seq<File>, f: File) {
    f.isFile && match KindOf(f.name)
      case Allowed => true
      case Rotated(family) => Count(before, family) < MAX_LOGS_ALLOWED
      case Unknown => false
  }

  function Chosen(files: seq<File>): seq<string> {
    if files == [] then []
    else
      var before, last := files[..|files| - 1], files[|files| - 1];
      Chosen(before) + if Takes(before, last) then [last.name] else []
  }

  function Capped(n: nat): nat {
    if n < MAX_LOGS_ALLOWED then n else MAX_LOGS_ALLOWED
  }

  /** The name up to its first dot, and the length of what follows without dots, in digits. */
  function SortKey(log: string): string {
    FirstSegment(log) + Decimal(LengthAfter(log))
  }

  function FirstSegment(log: string): string {
    if log == "" || log[0] == '.' then "" else [log[0]] + FirstSegment(log[1..])
  }

  function LengthAfter(log: string): nat {
    DotlessLength(log) - |FirstSegment(log)|
  }

  function DotlessLength(log: string): (n: nat)
    ensures n >= |FirstSegment(log)|
  {
    if log == "" then 0 else DotlessLength(log[1..]) + if log[0] == '.' then 0 else 1
  }

  function Decimal(n: nat): string {
    var digit := ['0' + (n % 10) as char];
    if n < 10 then digit else Decimal(n / 10) + digit
  }

  /** The number that digits are read as. */
  function Read(s: string): int {
    if s == "" then 0 else Read(s[..|s| - 1]) * 10 + (s[|s| - 1] as int - '0' as int)
  }

  /** `Decimal` writes digits that read back as the number, without a leading zero. */
  lemma {:induction false} DecimalReadsBack(n: nat)
    ensures Digits(Decimal(n)) && Read(Decimal(n)) == n && Decimal(n) != ""
    ensures n > 0 ==> Decimal(n)[0] != '0'
  {
    if n >= 10 {
      DecimalReadsBack(n / 10);
      var s, digit := Decimal(n / 10), ['0' + (n % 10) as char];
      assert (s + digit)[..|s + digit| - 1] == s;
    }
  }

  predicate IsFileNodeLog(name: string, nodeLogsIncluded: nat) {
    BelongsTo(name, Node) && nodeLogsIncluded < MAX_LOGS_ALLOWED
  }

  predicate IsFileWalletLog(name: string, walletLogsIncluded: nat) {
    BelongsTo(name, Wallet) && walletLogsIncluded < MAX_LOGS_ALLOWED
  }

  predicate IsFileLauncherLog(name: string, launcherLogsIncluded: nat) {
    BelongsTo(name, Launcher) && launcherLogsIncluded < MAX_LOGS_ALLOWED
  }

  /** The tests of the loop, by kind. */
  lemma TestsByKind(name: string, n: nat)
    requires !IsFileAllowed(name)
    ensures IsFileNodeLog(name, n) <==> KindOf(name) == Rotated(Node) && n < MAX_LOGS_ALLOWED
    ensures IsFileWalletLog(name, n) <==> KindOf(name) == Rotated(Wallet) && n < MAX_LOGS_ALLOWED
    ensures IsFileLauncherLog(name, n) <==> KindOf(name) == Rotated(Launcher) && n < MAX_LOGS_ALLOWED
  {
    FamiliesAreDisjoint(name, Node, Wallet);
    FamiliesAreDisjoint(name, Node, Launcher);
    FamiliesAreDisjoint(name, Wallet, Launcher);
  }

  lemma CountStep(before: seq<File>, f: File, family: Family)
    ensures Count(before + [f], family) == Count(before, family) + if InFamily(f, family) then 1 else 0
  {
    assert (before + [f])[..|before|] == before;
  }

  lemma ChosenStep(before: seq<File>, f: File)
    ensures Chosen(before + [f]) == Chosen(before) + if Takes(before, f) then [f.name] else []
  {
    assert (before + [f])[..|before|] == before;
  }

  function Counted(f: File, family: Family, included: nat): nat {
    if InFamily(f, family) && included < MAX_LOGS_ALLOWED then included + 1 else included
  }

  predicate Wanted(f: File, node: nat, wallet: nat, launcher: nat) {
    f.isFile && match KindOf(f.name)
      case Allowed => true
      case Rotated(Node) => node < MAX_LOGS_ALLOWED
      case Rotated(Wallet) => wallet < MAX_LOGS_ALLOWED
      case Rotated(Launcher) => launcher < MAX_LOGS_ALLOWED
      case Unknown => false
  }

  /** The body of the loop. */
  method Consider(f: File, logFiles: seq<string>, node: nat, wallet: nat, launcher: nat)
    returns (logFiles': seq<string>, node': nat, wallet': nat, launcher': nat)
    ensures logFiles' == logFiles + if Wanted(f, node, wallet, launcher) then [f.name] else []
    ensures node' == Counted(f, Node, node)
    ensures wallet' == Counted(f, Wallet, wallet)
    ensures launcher' == Counted(f, Launcher, launcher)
  {
    logFiles', node', wallet', launcher' := logFiles, node, wallet, launcher;
    if f.isFile {
      if IsFileAllowed(f.name) {
        logFiles' := logFiles + [f.name];
      } else {
        TestsByKind(f.name, node);
        TestsByKind(f.name, wallet);
        TestsByKind(f.name, launcher);
        if IsFileNodeLog(f.name, node) {
          logFiles', node' := logFiles + [f.name], node + 1;
        } else if IsFileWalletLog(f.name, wallet) {
          logFiles', wallet' := logFiles + [f.name], wallet + 1;
        } else if IsFileLauncherLog(f.name, launcher) {
          logFiles', launcher' := logFiles + [f.name], launcher + 1;
        }
      }
    }
  }

  lemma CountersDecide(before: seq<File>, f: File)
    ensures Takes(before, f) <==>
            Wanted(f, Capped(Count(before, Node)), Capped(Count(before, Wallet)), Capped(Count(before, Launcher)))
    ensures forall family :: Capped(Count(before + [f], family)) == Counted(f, family, Capped(Count(before, family)))
  {
    forall family
      ensures Capped(Count(before + [f], family)) == Counted(f, family, Capped(Count(before, family)))
    {
      CountStep(before, f, family);
    }
  }

  method GetLogs(directory: seq<File>) returns (logs: seq<string>)
    ensures logs == SortBy(Chosen(Listing(directory)), SortKey)
  {
    var files := Listing(directory);
    var logFiles := [];
    var nodeLogsIncluded, walletLogsIncluded, launcherLogsIncluded := 0, 0, 0;
    for i := 0 to |files|
      invariant logFiles == Chosen(files[..i])
      invariant nodeLogsIncluded == Capped(Count(files[..i], Node))
      invariant walletLogsIncluded == Capped(Count(files[..i], Wallet))
      invariant launcherLogsIncluded == Capped(Count(files[..i], Launcher))
    {
      CountersDecide(files[..i], files[i]);
      ChosenStep(files[..i], files[i]);
      assert files[..i + 1] == files[..i] + [files[i]];
      logFiles, nodeLogsIncluded, walletLogsIncluded, launcherLogsIncluded :=
        Consider(files[i], logFiles, nodeLogsIncluded, walletLogsIncluded, launcherLogsIncluded);
    }
    assert files[..|files|] == files;
    logs := SortBy(logFiles, SortKey);
  }

  predicate Dotless(s: string) {
    '.' !in s
  }

  lemma {:induction false} KeyParts(a: string, rest: string)
    requires Dotless(a) && (rest == "" || rest[0] == '.')
    ensures FirstSegment(a + rest) == a && DotlessLength(a + rest) == |a| + DotlessLength(rest)
  {
    if a == "" {
      assert a + rest == rest;
    } else {
      assert (a + rest)[0] == a[0] && a[0] in a && (a + rest)[1..] == a[1..] + rest;
      KeyParts(a[1..], rest);
      assert a == [a[0]] + a[1..];
    }
  }

  lemma AfterTheDot(b: string)
    requires Dotless(b)
    ensures DotlessLength("." + b) == |b|
  {
    KeyParts(b, "");
    assert b + "" == b && ("." + b)[1..] == b;
  }

  /** The key of a name with one dot: what is before it, and how many characters are after it. */
  lemma KeyOfName(name: string, a: string, b: string)
    requires Dotless(a) && Dotless(b) && name == a + ("." + b)
    ensures SortKey(name) == a + Decimal(|b|)
  {
    AfterTheDot(b);
    KeyParts(a, "." + b);
  }

  lemma HyphenatedComesFirst(a: string, b: string, extension: string)
    requires Dotless(a) && Dotless(b) && Dotless(extension) && |extension| < 10
    ensures Less(SortKey(a + "-" + b + ("." + extension)), SortKey(a + ("." + extension)))
  {
    KeyOfName(a + "-" + b + ("." + extension), a + "-" + b, extension);
    KeyOfName(a + ("." + extension), a, extension);
    assert a + "-" + b == a + ("-" + b);
    OneDigitKeys(a, "-" + b, |extension|);
  }

  lemma OneDigitKeys(a: string, b: string, n: nat)
    requires b != "" && b[0] < '0' && n < 10
    ensures Less(a + b + Decimal(n), a + Decimal(n))
  {
    CommonStart(a, b + Decimal(n), Decimal(n));
    assert a + b + Decimal(n) == a + (b + Decimal(n));
    assert Decimal(n)[0] >= '0';
  }

  lemma RotatedComesFirst(stamp: string)
    requires IsStamp(stamp)
    ensures Less(SortKey("node.log-" + stamp), SortKey("node.log"))
  {
    NoDotInDigits(stamp);
    assert "node.log-" + stamp == "node" + ("." + ("log-" + stamp));
    KeyOfName("node.log-" + stamp, "node", "log-" + stamp);
    KeyOfName("node.log", "node", "log");
    CommonStart("node", Decimal(18), Decimal(3));
    assert Decimal(18)[0] == '1' && Decimal(3) == "3";
  }

  /** The keys do not put the files in the order in which they are listed: a name that goes on with a hyphen comes
      before the one without, as the log of versions before the application's own; and a rotated file comes before the
      one it was rotated from. */
  lemma KeysReorder(a: string, b: string, extension: string, stamp: string)
    requires Dotless(a) && Dotless(b) && Dotless(extension) && |extension| < 10 && IsStamp(stamp)
    ensures Less(SortKey(a + "-" + b + ("." + extension)), SortKey(a + ("." + extension)))
    ensures Less(SortKey("node.log-" + stamp), SortKey("node.log"))
  {
    HyphenatedComesFirst(a, b, extension);
    RotatedComesFirst(stamp);
  }

  lemma NoDotInDigits(stamp: string)
    requires Digits(stamp)
    ensures Dotless("log-" + stamp)
  {
  }

  lemma {:induction false} CommonStart(a: string, b: string, c: string)
    ensures Less(a + b, a + c) <==> Less(b, c)
  {
    if a == "" {
      assert a + b == b && a + c == c;
    } else {
      assert (a + b)[1..] == a[1..] + b && (a + c)[1..] == a[1..] + c;
      CommonStart(a[1..], b, c);
    }
  }

  // The selection, without the loop.

  /** The files of the same family with greater names. */
  ghost function Newer(files: seq<File>, f: File): set<File> {
    set g | g in files && g.isFile && KindOf(g.name) == KindOf(f.name) && Less(f.name, g.name)
  }

  ghost predicate Selected(files: seq<File>, f: File) {
    f in files && f.isFile &&
    match KindOf(f.name)
      case Allowed => true
      case Rotated(_) => |Newer(files, f)| < 3
      case Unknown => false
  }

  lemma ReversedHolds(sorted: seq<File>, f: File)
    ensures f in Reverse(sorted) <==> f in sorted
  {
    if i :| 0 <= i < |sorted| && sorted[i] == f {
      assert Reverse(sorted)[|sorted| - 1 - i] == f;
    }
  }

  lemma SortedAscends(directory: seq<File>, i: nat, j: nat)
    requires DistinctNames(directory) && i < j < |SortBy(directory, NameOf)|
    ensures Less(SortBy(directory, NameOf)[i].name, SortBy(directory, NameOf)[j].name)
  {
    var sorted := SortBy(directory, NameOf);
    SortByOrders(directory, NameOf);
    SortedNamesDiffer(directory, sorted, i, j);
    LessIsLinear(sorted[i].name, sorted[j].name);
    assert !Less(NameOf(sorted[j]), NameOf(sorted[i]));
  }

  lemma ListingHolds(directory: seq<File>, f: File)
    ensures f in Listing(directory) <==> f in directory
  {
    var sorted := SortBy(directory, NameOf);
    SortByOrders(directory, NameOf);
    ReversedHolds(sorted, f);
    assert f in sorted <==> f in multiset(sorted);
    assert f in directory <==> f in multiset(directory);
  }

  lemma ListingDescends(directory: seq<File>)
    requires DistinctNames(directory)
    ensures Descending(Listing(directory))
  {
    var files, n := Listing(directory), |SortBy(directory, NameOf)|;
    forall i, j | 0 <= i < j < n
      ensures Less(files[j].name, files[i].name)
    {
      SortedAscends(directory, n - 1 - j, n - 1 - i);
    }
  }

  lemma SortedNamesDiffer(directory: seq<File>, sorted: seq<File>, i: nat, j: nat)
    requires DistinctNames(directory) && multiset(sorted) == multiset(directory) && i < j < |sorted|
    ensures sorted[i].name != sorted[j].name
  {
    assert sorted[i] in multiset(sorted) && sorted[j] in multiset(sorted);
    assert sorted[i] in directory && sorted[j] in directory;
    if sorted[i] == sorted[j] {
      CountedTwice(sorted, i, j);
      OnceAtMost(directory, sorted[i]);
    }
  }

  lemma {:induction false} OnceAtMost(s: seq<File>, f: File)
    requires DistinctNames(s)
    ensures multiset(s)[f] <= 1
  {
    if s != [] {
      var n := |s| - 1;
      assert s == s[..n] + [s[n]];
      assert multiset(s) == multiset(s[..n]) + multiset([s[n]]);
      OnceAtMost(s[..n], f);
      if s[n] == f {
        assert f !in s[..n];
        assert f !in multiset(s[..n]);
      }
    }
  }

  lemma LastIsNew(files: seq<File>)
    requires DistinctNames(files) && files != []
    ensures files[|files| - 1] !in files[..|files| - 1]
  {
  }

  ghost function Those(files: seq<File>, p: File -> bool): set<File> {
    set g | g in files && p(g)
  }

  lemma {:induction false} CountIsSize(files: seq<File>, p: File -> bool)
    requires DistinctNames(files)
    ensures CountOf(files, p) == |Those(files, p)|
  {
    if files == [] {
      assert Those(files, p) == {};
    } else {
      var before, last := files[..|files| - 1], files[|files| - 1];
      CountIsSize(before, p);
      LastIsNew(files);
      assert files == before + [last];
      assert Those(files, p) == Those(before, p) + if p(last) then {last} else {};
    }
  }

  lemma DescendingIsDistinct(files: seq<File>)
    requires Descending(files)
    ensures DistinctNames(files)
  {
    forall i, j | 0 <= i < j < |files|
      ensures files[i].name != files[j].name
    {
      LessIsLinear(files[i].name, files[j].name);
    }
  }

  /** In a descending listing, the newer files are the ones already seen. */
  lemma NewerIsSeen(files: seq<File>, i: nat)
    requires Descending(files) && i < |files| && KindOf(files[i].name).Rotated?
    ensures |Newer(files, files[i])| == Count(files[..i], KindOf(files[i].name).family)
  {
    var family := KindOf(files[i].name).family;
    forall k | 0 <= k < |files|
      ensures Less(files[i].name, files[k].name) <==> k < i
    {
      LessIsLinear(files[i].name, files[k].name);
    }
    assert forall k :: 0 <= k < i ==> files[..i][k] == files[k];
    assert Newer(files, files[i]) == Those(files[..i], MemberOf(family));
    DescendingIsDistinct(files);
    CountIsSize(files[..i], MemberOf(family));
  }

  lemma {:induction false} ChosenByPlace(files: seq<File>, n: nat, name: string)
    requires Descending(files) && n <= |files|
    ensures name in Chosen(files[..n]) <==>
            exists i :: 0 <= i < n && files[i].name == name && Takes(files[..i], files[i])
  {
    if n > 0 {
      assert files[..n][..n - 1] == files[..n - 1];
      ChosenByPlace(files, n - 1, name);
    }
  }

  lemma NewerSame(files: seq<File>, files': seq<File>, f: File)
    requires forall g :: g in files <==> g in files'
    ensures Newer(files, f) == Newer(files', f)
  {
  }

  lemma TakesIsSelected(directory: seq<File>, i: nat)
    requires DistinctNames(directory) && i < |Listing(directory)|
    ensures Takes(Listing(directory)[..i], Listing(directory)[i]) <==> Selected(directory, Listing(directory)[i])
  {
    var files := Listing(directory);
    ListingDescends(directory);
    forall f: File
      ensures f in files <==> f in directory
    {
      ListingHolds(directory, f);
    }
    if KindOf(files[i].name).Rotated? {
      NewerIsSeen(files, i);
      NewerSame(files, directory, files[i]);
    }
  }

  lemma SortedNames(names: seq<string>, name: string)
    ensures name in SortBy(names, SortKey) <==> name in names
  {
    SortByOrders(names, SortKey);
    assert name in SortBy(names, SortKey) <==> name in multiset(SortBy(names, SortKey));
    assert name in names <==> name in multiset(names);
  }

  /** The names handed out are, whatever order the directory is read in, those of the allowed files and, in each of the
      three families, of those with fewer than three greater names. */
  lemma HandsOutTheLatest(directory: seq<File>, name: string)
    requires DistinctNames(directory)
    ensures name in SortBy(Chosen(Listing(directory)), SortKey) <==>
            exists f: File :: f.name == name && Selected(directory, f)
  {
    var files := Listing(directory);
    SortedNames(Chosen(files), name);
    ListingDescends(directory);
    assert files[..|files|] == files;
    ChosenByPlace(files, |files|, name);
    if name in Chosen(files) {
      var i :| 0 <= i < |files| && files[i].name == name && Takes(files[..i], files[i]);
      TakesIsSelected(directory, i);
    }
    if f: File :| f.name == name && Selected(directory, f) {
      ListingHolds(directory, f);
      var i :| 0 <= i < |files| && files[i] == f;
      TakesIsSelected(directory, i);
    }
  }

  /** No name is handed out twice, and the names come in the order of their keys. */
  lemma HandsOutOnceInOrder(directory: seq<File>)
    requires DistinctNames(directory)
    ensures var logs := SortBy(Chosen(Listing(directory)), SortKey);
            Ordered(logs, SortKey) && forall name <- logs :: multiset(logs)[name] == 1
  {
    var files := Listing(directory);
    ListingDescends(directory);
    SortByOrders(Chosen(files), SortKey);
    forall name | name in SortBy(Chosen(files), SortKey)
      ensures multiset(SortBy(Chosen(files), SortKey))[name] == 1
    {
      assert name in multiset(SortBy(Chosen(files), SortKey));
      assert files[..|files|] == files;
      ChosenOnce(files, |files|, name);
    }
  }

  lemma LastNameIsNew(files: seq<File>, n: nat)
    requires Descending(files) && 0 < n <= |files|
    ensures files[n - 1].name !in Chosen(files[..n - 1])
  {
    ChosenByPlace(files, n - 1, files[n - 1].name);
    forall i | 0 <= i < n - 1
      ensures files[i].name != files[n - 1].name
    {
      LessIsLinear(files[n - 1].name, files[i].name);
    }
  }

  lemma {:induction false} ChosenOnce(files: seq<File>, n: nat, name: string)
    requires Descending(files) && n <= |files|
    ensures multiset(Chosen(files[..n]))[name] <= 1
  {
    if n > 0 {
      ChosenOnce(files, n - 1, name);
      LastNameIsNew(files, n);
      ChosenStep(files[..n - 1], files[n - 1]);
      assert files[..n] == files[..n - 1] + [files[n - 1]];
      AddedOnce(Chosen(files[..n - 1]), files[n - 1].name, name);
    }
  }

  lemma AddedOnce(names: seq<string>, last: string, name: string)
    requires last !in names && multiset(names)[name] <= 1
    ensures multiset(names + [last])[name] <= 1
  {
    assert multiset(names)[last] == 0;
  }
}
