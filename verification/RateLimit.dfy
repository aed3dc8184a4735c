/** The fixed-window rate limiter: rule selection, the in-memory counter store
    and the bound on what one client gets through. Times are in nanoseconds. */
module RateLimit {
  import opened Strings
  import opened Spacing

  datatype Rule = Rule(window: int, max: int)

  /** The resolved settings, and whether the addresses of clients are told apart. */
  datatype Limits = Limits(window: int, max: int, rules: map<string, Rule>, tracked: bool)

  datatype Entry = Entry(count: int, resetAt: int)

  datatype Counter = Unused | Used(entry: Entry)

  type Entries = map<string, Entry>

  const DEFAULT_WINDOW := 60_000_000_000
  const DEFAULT_MAX := 100

  /** `resolveRateLimit`: non-positive settings fall back to the defaults. */
  function Resolve(window: int, max: int, rules: map<string, Rule>, tracked: bool): (rl: Limits)
    ensures Resolved(rl)
  {
    Limits(if window <= 0 then DEFAULT_WINDOW else window,
           if max <= 0 then DEFAULT_MAX else max, rules, tracked)
  }

  /** The settings apply as they are, and the defaults are a hundred requests a minute. */
  lemma LimitDefaults(window: int, max: int, rules: map<string, Rule>, tracked: bool)
    ensures window > 0 && max > 0 ==> Resolve(window, max, rules, tracked) == Limits(window, max, rules, tracked)
    ensures Resolve(0, 0, rules, tracked) == Limits(60 * 1_000_000_000, 100, rules, tracked)
  {
  }

  predicate Resolved(rl: Limits)
  {
    rl.window > 0 && rl.max > 0
  }

  /** `ruleOrDefault`. */
  function OrDefault(rule: Rule, rl: Limits): Rule
  {
    Rule(if rule.window <= 0 then rl.window else rule.window,
         if rule.max <= 0 then rl.max else rule.max)
  }

  /** The window and maximum that a bucket key stands for. */
  function RuleOfKey(rl: Limits, key: string): Rule
  {
    if key in rl.rules then OrDefault(rl.rules[key], rl) else Rule(rl.window, rl.max)
  }

  predicate PrefixPattern(pattern: string, path: string)
  {
    HasSuffix(pattern, "*") && pattern[..|pattern| - 1] <= path
  }

  /** The bucket keys that `ruleFor` may pick for a path: the path itself if it
      has a rule, else any matching prefix pattern, else the catch-all. */
  predicate MayPick(rl: Limits, path: string, key: string)
  {
    if path in rl.rules then key == path
    else if exists p :: p in rl.rules && PrefixPattern(p, path) then
      key in rl.rules && PrefixPattern(key, path)
    else key == "*"
  }

  /** `ruleFor`: the patterns are tried in an arbitrary order, yet the key that
      comes back alone determines the window and the maximum. */
  method RuleFor(rl: Limits, path: string) returns (rule: Rule, key: string)
    ensures MayPick(rl, path, key)
    ensures rule == RuleOfKey(rl, key)
  {
    if path in rl.rules {
      return OrDefault(rl.rules[path], rl), path;
    }
    var untried := rl.rules.Keys;
    while untried != {}
      invariant untried <= rl.rules.Keys
      invariant forall p :: p in rl.rules && p !in untried ==> !PrefixPattern(p, path)
    {
      var pattern :| pattern in untried;
      untried := untried - {pattern};
      if HasSuffix(pattern, "*") && pattern[..|pattern| - 1] <= path {
        return OrDefault(rl.rules[pattern], rl), pattern;
      }
    }
    assert PrefixPattern("*", path);
    return Rule(rl.window, rl.max), "*";
  }

  /** A pattern that covers the path: a beginning of it, followed by a star. */
  ghost predicate Covers(pattern: string, path: string)
  {
    exists front :: pattern == front + "*" && front <= path
  }

  lemma CoversIsPrefixPattern(pattern: string, path: string)
    ensures Covers(pattern, path) <==> PrefixPattern(pattern, path)
  {
    if PrefixPattern(pattern, path) {
      assert pattern == pattern[..|pattern| - 1] + "*";
    }
    if front :| pattern == front + "*" && front <= path {
      assert pattern[..|pattern| - 1] == front;
    }
  }

  /** The limits that `rule` sets, with the general ones for what it leaves open. */
  predicate Sets(rule: Rule, rl: Limits, limit: Rule)
  {
    && limit.window == (if rule.window > 0 then rule.window else rl.window)
    && limit.max == (if rule.max > 0 then rule.max else rl.max)
  }

  /** A path with a rule of its own is under that rule, whatever patterns cover it; one
      that is only covered is under a pattern that covers it; and the others are under the
      general limits. */
  lemma LimitOfPath(rl: Limits, path: string, key: string)
    requires MayPick(rl, path, key)
    ensures path in rl.rules ==> Sets(rl.rules[path], rl, RuleOfKey(rl, key))
    ensures path !in rl.rules && (exists p :: p in rl.rules && Covers(p, path)) ==>
              exists p :: p in rl.rules && Covers(p, path) && Sets(rl.rules[p], rl, RuleOfKey(rl, key))
    ensures path !in rl.rules && (forall p :: p in rl.rules ==> !Covers(p, path)) ==>
              RuleOfKey(rl, key) == Rule(rl.window, rl.max)
  {
    forall p {
      CoversIsPrefixPattern(p, path);
    }
    assert PrefixPattern("*", path);
  }

  // -------------------------------------------------------- paths and addresses

  /** `normalizePath`. */
  function NormalizePath(path: string): (p: string)
    ensures p != ""
  {
    var rest := if HasSuffix(path, "/") then path[..|path| - 1] else path;
    if rest == "" then "/" else rest
  }

  /** The path under which the handler limits and routes a request. */
  function ServedPath(skipTrailingSlashes: bool, raw: string): (p: string)
    ensures p != ""
  {
    if skipTrailingSlashes && HasSuffix(raw, "/") && raw != "/" then NormalizePath(raw[..|raw| - 1]) else NormalizePath(raw)
  }

  /** One slash at the end is dropped, and with the option one more; nothing else changes,
      except that the empty path is the root. */
  lemma ServedPathDropsSlashes(skipTrailingSlashes: bool, path: string)
    requires path != ""
    ensures !HasSuffix(path, "/") ==> ServedPath(skipTrailingSlashes, path) == path
    ensures ServedPath(false, path + "/") == path
    ensures ServedPath(true, path + "/" + "/") == path
    ensures ServedPath(skipTrailingSlashes, "") == ServedPath(skipTrailingSlashes, "/") == "/"
  {
    var one := path + "/";
    var two := one + "/";
    assert one[..|one| - 1] == path && HasSuffix(one, "/");
    assert two[..|two| - 1] == one && HasSuffix(two, "/");
    assert "/"[..0] == "";
  }

  /** Every text but the empty one is such a path, also one that ends in a slash. */
  lemma ServedPathsAreTexts(skipTrailingSlashes: bool, path: string)
    ensures path != "" <==> exists raw :: ServedPath(skipTrailingSlashes, raw) == path
  {
    if path != "" {
      var one := path + "/";
      var two := one + "/";
      assert one[..|one| - 1] == path && HasSuffix(one, "/");
      assert two[..|two| - 1] == one && HasSuffix(two, "/");
      assert ServedPath(skipTrailingSlashes, if skipTrailingSlashes then two else one) == path;
    }
  }

  /** The host of a peer address: what is in front of its last colon. */
  function Host(remote: string): string
  {
    if ':' !in remote then remote
    else if remote[|remote| - 1] == ':' then remote[..|remote| - 1]
    else Host(remote[..|remote| - 1])
  }

  lemma {:induction false} HostIsBeforeLastColon(host: string, port: string)
    requires ':' !in port
    ensures Host(host + ":" + port) == host
    ensures Host(port) == port
  {
    var remote := host + ":" + port;
    assert remote[|host|] == ':';
    if port == "" {
      assert remote[..|remote| - 1] == host;
    } else {
      var front := port[..|port| - 1];
      assert remote[|remote| - 1] == port[|port| - 1];
      assert remote[..|remote| - 1] == host + ":" + front;
      HostIsBeforeLastColon(host, front);
    }
  }

  /** The client's address from the values of the configured headers, in order, and
      from its peer address. */
  function Address(tracked: bool, headers: seq<string>, remote: string): string
  {
    if !tracked then ""
    else if headers == [] then Host(remote)
    else if headers[0] != "" then TrimSpace(Split(headers[0], ',')[0])
    else Address(tracked, headers[1..], remote)
  }

  /** `ClientIP`. */
  method ClientIP(tracked: bool, headers: seq<string>, remote: string) returns (ip: string)
    ensures ip == Address(tracked, headers, remote)
  {
    if !tracked {
      return "";
    }
    assert headers[0..] == headers;
    for i := 0 to |headers|
      invariant Address(tracked, headers, remote) == Address(tracked, headers[i..], remote)
    {
      if headers[i] != "" {
        return TrimSpace(Split(headers[i], ',')[0]);
      }
      assert headers[i..][1..] == headers[i + 1..];
    }
    return Host(remote);
  }

  /** The first header with a value decides, and in it the text in front of the first
      comma; without one it is the peer's host, and without tracking nothing. */
  lemma {:induction false} AddressFrom(headers: seq<string>, remote: string, i: nat, first: string, more: string)
    requires i < |headers| && ',' !in first && (headers[i] == first != "" || headers[i] == first + "," + more)
    requires forall j :: 0 <= j < i ==> headers[j] == ""
    ensures Address(true, headers, remote) == TrimSpace(first)
    ensures Address(true, headers[..i], remote) == Host(remote)
    ensures Address(false, headers, remote) == ""
  {
    if i == 0 {
      if headers[0] == first {
        SplitOfWhole(first, ',');
      } else {
        assert first + "," + more == first + [','] + more;
        SplitAtSeparator(first, ',', more);
      }
    } else {
      AddressFrom(headers[1..], remote, i - 1, first, more);
      assert headers[..i][1..] == headers[1..][..i - 1];
    }
  }

  /** Trimmed and without a comma, as a peer's host is. */
  predicate Plain(ip: string)
  {
    Trimmed(ip) && ',' !in ip
  }

  /** The addresses with which requests come: any plain text, or none at all. */
  predicate MayCall(tracked: bool, ip: string)
  {
    if tracked then Plain(ip) else ip == ""
  }

  lemma {:induction false} AddressIsPlain(tracked: bool, headers: seq<string>, remote: string)
    requires Plain(Host(remote))
    ensures MayCall(tracked, Address(tracked, headers, remote))
  {
    if tracked && headers != [] {
      if headers[0] != "" {
        var piece := Split(headers[0], ',')[0];
        SplitPiecesLackSeparator(headers[0], ',');
        assert piece in Split(headers[0], ',');
        TrimSpaceProperties(piece);
      } else {
        AddressIsPlain(tracked, headers[1..], remote);
      }
    }
  }

  lemma HeadersOf(tracked: bool, ip: string) returns (headers: seq<string>, remote: string)
    requires MayCall(tracked, ip)
    ensures Plain(Host(remote)) && Address(tracked, headers, remote) == ip
  {
    remote := "";
    headers := if ip == "" then [] else [ip];
    SplitOfWhole(ip, ',');
    TrimSpaceProperties(ip);
  }

  lemma AddressesOfCallers(tracked: bool, ip: string)
    ensures MayCall(tracked, ip) <==> exists headers, remote :: Plain(Host(remote)) && Address(tracked, headers, remote) == ip
  {
    if headers, remote :| Plain(Host(remote)) && Address(tracked, headers, remote) == ip {
      AddressIsPlain(tracked, headers, remote);
    }
    if MayCall(tracked, ip) {
      var headers, remote := HeadersOf(tracked, ip);
    }
  }

  // -------------------------------------------------------- shared counters

  /** A client's counter for a rule; an unknown address counts as one client. */
  function StorageKey(ip: string, ruleKey: string): string
  {
    Client(ip) + "|" + ruleKey
  }

  function Client(ip: string): string
  {
    if ip == "" then "unknown" else ip
  }

  /** The longer key ends in a bar and the shorter one. */
  predicate Extends(long: string, short: string)
  {
    HasSuffix(long, "|" + short)
  }

  /** What it has in front of them. */
  function Head(long: string, short: string): (head: string)
    requires Extends(long, short)
    ensures long == head + "|" + short
  {
    var head := long[..|long| - |short| - 1];
    assert long == head + ("|" + short);
    head
  }

  lemma SameText(c: string, k: string, c': string, k': string)
    requires |k| == |k'|
    ensures c + "|" + k == c' + "|" + k' <==> c == c' && k == k'
  {
    var s, s' := c + "|" + k, c' + "|" + k';
    if s == s' {
      assert s[..|c|] == c && s'[..|c|] == c';
      assert s[|c| + 1..] == k && s'[|c| + 1..] == k';
    }
  }

  lemma LongerText(c: string, k: string, c': string, k': string)
    requires |k| < |k'|
    ensures c + "|" + k == c' + "|" + k' <==> Extends(k', k) && c == c' + "|" + Head(k', k)
  {
    var s, s' := c + "|" + k, c' + "|" + k';
    if s == s' {
      assert s'[|s| - |k'|..] == k';
      assert s[|c|..] == "|" + k;
      assert k'[|k'| - |k| - 1..] == s[|c|..];
    }
    if Extends(k', k) {
      assert s' == (c' + "|" + Head(k', k)) + "|" + k;
      SameText(c, k, c' + "|" + Head(k', k), k);
    }
  }

  /** Two requests share a counter exactly if they agree in client and rule, or one rule
      key extends the other and the addresses make up the difference. */
  lemma SharedCounter(ip: string, k: string, ip': string, k': string)
    ensures StorageKey(ip, k) == StorageKey(ip', k') <==>
            || (Client(ip) == Client(ip') && k == k')
            || (Extends(k', k) && Client(ip) == Client(ip') + "|" + Head(k', k))
            || (Extends(k, k') && Client(ip') == Client(ip) + "|" + Head(k, k'))
  {
    var c, c' := Client(ip), Client(ip');
    if |k| < |k'| {
      LongerText(c, k, c', k');
    } else if |k'| < |k| {
      LongerText(c', k', c, k);
    } else {
      SameText(c, k, c', k');
    }
  }

  /** An address can end in the text. */
  predicate Carried(head: string)
  {
    ',' !in head && (head == "" || !IsSpace(head[|head| - 1]))
  }

  /** Some address can stand for what one rule key has in front of the other, and then
      both lead to one counter. */
  predicate Overlap(k: string, k': string)
  {
    (Extends(k, k') && Carried(Head(k, k'))) || (Extends(k', k) && Carried(Head(k', k)))
  }

  lemma CarriedEnd(ip: string, c: string, head: string)
    requires Plain(ip) && ip == c + "|" + head
    ensures Carried(head)
  {
    assert forall i :: 0 <= i < |head| ==> head[i] == ip[|c| + 1 + i];
  }

  lemma CarriedAddress(head: string)
    requires Carried(head)
    ensures Plain("c|" + head)
  {
  }

  /** Callers with different rules share a counter only if their addresses are told
      apart and the rule keys overlap. */
  lemma CallersShare(tracked: bool, ip: string, k: string, ip': string, k': string)
    requires MayCall(tracked, ip) && MayCall(tracked, ip') && StorageKey(ip, k) == StorageKey(ip', k')
    ensures (Client(ip) == Client(ip') && k == k') || (k != k' && tracked && Overlap(k, k'))
  {
    SharedCounter(ip, k, ip', k');
    if Extends(k', k) && Client(ip) == Client(ip') + "|" + Head(k', k) {
      assert '|' in Client(ip) && '|' !in "unknown";
      CarriedEnd(ip, Client(ip'), Head(k', k));
    } else if Extends(k, k') && Client(ip') == Client(ip) + "|" + Head(k, k') {
      assert '|' in Client(ip') && '|' !in "unknown";
      CarriedEnd(ip', Client(ip), Head(k, k'));
    }
  }

  lemma HeadAddressShares(long: string, short: string)
    requires Extends(long, short) && Carried(Head(long, short))
    ensures var ip := "c|" + Head(long, short);
            Plain(ip) && Plain("c") && StorageKey(ip, short) == StorageKey("c", long)
  {
    CarriedAddress(Head(long, short));
    SharedCounter("c|" + Head(long, short), short, "c", long);
    assert "c|" + Head(long, short) == "c" + "|" + Head(long, short);
  }

  /** Two addresses through which overlapping keys meet. */
  lemma MeetingAddresses(key: string, k: string) returns (ip: string, ip': string)
    requires Overlap(key, k)
    ensures Plain(ip) && Plain(ip') && StorageKey(ip, key) == StorageKey(ip', k)
  {
    if Extends(key, k) && Carried(Head(key, k)) {
      HeadAddressShares(key, k);
      ip, ip' := "c", "c|" + Head(key, k);
    } else {
      HeadAddressShares(k, key);
      ip, ip' := "c|" + Head(k, key), "c";
    }
  }

  /** Different rule keys share a counter, for some two callers, exactly if addresses
      are told apart and the keys overlap. */
  lemma KeysMeetExactly(tracked: bool, k: string, k': string)
    requires k != k'
    ensures tracked && Overlap(k, k') <==>
            exists ip, ip' :: MayCall(tracked, ip) && MayCall(tracked, ip') && StorageKey(ip, k) == StorageKey(ip', k')
  {
    if tracked && Overlap(k, k') {
      var ip, ip' := MeetingAddresses(k, k');
    } else {
      forall ip, ip' | MayCall(tracked, ip) && MayCall(tracked, ip') ensures StorageKey(ip, k) != StorageKey(ip', k') {
        if StorageKey(ip, k) == StorageKey(ip', k') {
          CallersShare(tracked, ip, k, ip', k');
        }
      }
    }
  }

  /** The keys of the configured rules and, unless they match everything, the catch-all. */
  ghost function RuleKeys(rl: Limits): set<string>
  {
    rl.rules.Keys - {""} + if exists path :: path != "" && MayPick(rl, path, "*") then {"*"} else {}
  }

  /** They are the keys under which some path may be filed. */
  lemma RuleKeysAreUsed(rl: Limits, key: string)
    ensures key in RuleKeys(rl) <==> exists path :: path != "" && MayPick(rl, path, key)
  {
    if key in rl.rules && key != "" {
      assert MayPick(rl, key, key);
    }
  }

  lemma PickedKey(rl: Limits, path: string, key: string)
    requires path != "" && MayPick(rl, path, key)
    ensures key in RuleKeys(rl)
  {
    RuleKeysAreUsed(rl, key);
  }

  /** The counters of a rule cannot be reopened too early: it admits one request at a
      time, or addresses are not told apart, or no overlapping key has a window more than
      a nanosecond shorter. */
  ghost predicate Undisturbed(rl: Limits, key: string)
  {
    var rule := RuleOfKey(rl, key);
    || rule.max == 1 || !rl.tracked
    || forall k :: k in RuleKeys(rl) && Overlap(key, k) ==> rule.window <= RuleOfKey(rl, k).window + 1
  }

  lemma OverlapNeedsBar(k: string, k': string)
    requires Overlap(k, k')
    ensures '|' in k || '|' in k'
  {
    var long, short := if Extends(k, k') then k else k', if Extends(k, k') then k' else k;
    assert long[|long| - |short| - 1..][0] == '|';
  }

  /** Without bars in the configured keys no two keys overlap. */
  lemma BarFreeKeysAreUndisturbed(rl: Limits, key: string)
    requires key in RuleKeys(rl) && forall k :: k in rl.rules ==> '|' !in k
    ensures Undisturbed(rl, key)
  {
    forall k | k in RuleKeys(rl) ensures !Overlap(key, k) {
      if Overlap(key, k) {
        OverlapNeedsBar(key, k);
      }
    }
  }

  function CounterAt(entries: Entries, key: string): Counter
  {
    if key in entries then Used(entries[key]) else Unused
  }

  /** A counter's new state after one more request at `now`. */
  function Bump(c: Counter, window: int, now: int): Entry
  {
    if c.Unused? || now > c.entry.resetAt then Entry(1, now + window)
    else Entry(c.entry.count + 1, c.entry.resetAt)
  }

  /** One request as the limiter sees it, with the rule that was picked for it. */
  datatype Hit = Hit(now: int, ip: string, path: string, ruleKey: string)

  function KeyOf(hit: Hit): string
  {
    StorageKey(hit.ip, hit.ruleKey)
  }

  /** The counter that the request leaves behind. */
  function Counted(rl: Limits, entries: Entries, hit: Hit): Entry
  {
    Bump(CounterAt(entries, KeyOf(hit)), RuleOfKey(rl, hit.ruleKey).window, hit.now)
  }

  predicate Admits(rl: Limits, entries: Entries, hit: Hit)
  {
    Counted(rl, entries, hit).count <= RuleOfKey(rl, hit.ruleKey).max
  }

  /** Requests in clock order. */
  ghost predicate InOrder(run: seq<Hit>)
  {
    forall i, j :: 0 <= i <= j < |run| ==> run[i].now <= run[j].now
  }

  /** The request comes from an address that callers can have, for a path that is served,
      and carries a key under which the path may be filed. */
  predicate Genuine(rl: Limits, hit: Hit)
  {
    MayCall(rl.tracked, hit.ip) && hit.path != "" && MayPick(rl, hit.path, hit.ruleKey)
  }

  ghost predicate Filed(rl: Limits, run: seq<Hit>)
  {
    forall i :: 0 <= i < |run| ==> Genuine(rl, run[i])
  }

  /** The counters after a run that started with none. */
  ghost function After(rl: Limits, run: seq<Hit>): Entries
  {
    if run == [] then map[]
    else
      var before := After(rl, run[..|run| - 1]);
      var hit := run[|run| - 1];
      before[KeyOf(hit) := Counted(rl, before, hit)]
  }

  predicate Concerns(hit: Hit, ip: string, ruleKey: string)
  {
    Client(hit.ip) == Client(ip) && hit.ruleKey == ruleKey
  }

  /** When the run let a request of this client under this rule through. */
  ghost function AllowedTimes(rl: Limits, run: seq<Hit>, ip: string, ruleKey: string): seq<int>
  {
    if run == [] then []
    else
      var hit := run[|run| - 1];
      AllowedTimes(rl, run[..|run| - 1], ip, ruleKey)
      + if Concerns(hit, ip, ruleKey) && Admits(rl, After(rl, run[..|run| - 1]), hit)
        then [hit.now] else []
  }

  lemma RunStep(rl: Limits, before: seq<Hit>, hit: Hit, ip: string, ruleKey: string)
    ensures After(rl, before + [hit]) == After(rl, before)[KeyOf(hit) := Counted(rl, After(rl, before), hit)]
    ensures AllowedTimes(rl, before + [hit], ip, ruleKey) == AllowedTimes(rl, before, ip, ruleKey) +
            if Concerns(hit, ip, ruleKey) && Admits(rl, After(rl, before), hit) then [hit.now] else []
  {
    assert (before + [hit])[..|before|] == before;
  }

  lemma InOrderOneMore(before: seq<Hit>, hit: Hit)
    requires InOrder(before) && (before != [] ==> before[|before| - 1].now <= hit.now)
    ensures InOrder(before + [hit])
  {
    var n := |before|;
    forall i, j | 0 <= i <= j < n + 1 ensures (before + [hit])[i].now <= (before + [hit])[j].now {
      if j == n && i < n {
        assert before[i].now <= before[n - 1].now;
      }
    }
  }

  /** The counter's window is still open and already full. */
  predicate Full(rl: Limits, entries: Entries, hit: Hit)
  {
    match CounterAt(entries, KeyOf(hit))
    case Unused => false
    case Used(e) => hit.now <= e.resetAt && e.count >= RuleOfKey(rl, hit.ruleKey).max
  }

  lemma RefusedWhenFull(rl: Limits, entries: Entries, hit: Hit)
    requires Resolved(rl)
    ensures !Admits(rl, entries, hit) <==> Full(rl, entries, hit)
  {
  }

  lemma FiledOneMore(rl: Limits, before: seq<Hit>, hit: Hit)
    requires Filed(rl, before) && Genuine(rl, hit)
    ensures Filed(rl, before + [hit])
  {
  }

  lemma ServedOneMore(rl: Limits, before: seq<Hit>, hit: Hit)
    requires InOrder(before) && Filed(rl, before) && Genuine(rl, hit)
    requires before != [] ==> before[|before| - 1].now <= hit.now
    ensures InOrder(before + [hit]) && Filed(rl, before + [hit])
    ensures After(rl, before + [hit]) == After(rl, before)[KeyOf(hit) := Counted(rl, After(rl, before), hit)]
  {
    InOrderOneMore(before, hit);
    FiledOneMore(rl, before, hit);
    RunStep(rl, before, hit, hit.ip, hit.ruleKey);
  }

  /** The in-memory store and the middleware check in front of the handlers. */
  class Limiter {
    const limits: Limits
    var entries: Entries
    ghost var served: seq<Hit>

    ghost predicate Valid()
      reads this
    {
      Resolved(limits) && InOrder(served) && Filed(limits, served) && entries == After(limits, served)
    }

    constructor (window: int, max: int, rules: map<string, Rule>, tracked: bool)
      ensures Valid() && served == [] && limits == Resolve(window, max, rules, tracked)
    {
      limits := Resolve(window, max, rules, tracked);
      entries, served := map[], [];
    }

    /** `Incr`. */
    method Incr(key: string, window: int, now: int) returns (count: int)
      modifies this`entries
      ensures entries == old(entries)[key := Bump(CounterAt(old(entries), key), window, now)]
      ensures count == entries[key].count
    {
      if key !in entries || now > entries[key].resetAt {
        entries := entries[key := Entry(1, now + window)];
        return 1;
      }
      var e := entries[key];
      e := e.(count := e.count + 1);
      entries := entries[key := e];
      return e.count;
    }

    /** `rateLimitAllow` with limiting switched on: a request is turned away
        exactly when its counter's window is still open and already full. */
    method Allow(path: string, headers: seq<string>, remote: string, now: int) returns (ok: bool)
      requires Valid() && path != "" && Plain(Host(remote))
      requires served != [] ==> served[|served| - 1].now <= now
      modifies this
      ensures Valid()
      ensures |served| == |old(served)| + 1 && served[..|old(served)|] == old(served)
      ensures var hit := served[|old(served)|];
              && hit.now == now && hit.ip == Address(limits.tracked, headers, remote) && hit.path == path
              && MayPick(limits, path, hit.ruleKey)
              && ok == Admits(limits, old(entries), hit)
              && (!ok <==> Full(limits, old(entries), hit))
    {
      var rule, ruleKey := RuleFor(limits, path);
      var ip := ClientIP(limits.tracked, headers, remote);
      AddressIsPlain(limits.tracked, headers, remote);
      ghost var hit := Hit(now, ip, path, ruleKey);
      if ip == "" {
        ip := "unknown";
      }
      var key := ip + "|" + ruleKey;
      assert key == KeyOf(hit);
      RefusedWhenFull(limits, entries, hit);
      ServedOneMore(limits, served, hit);
      var count := Incr(key, rule.window, now);
      served := served + [hit];
      assert served[..|served| - 1] == old(served);
      if count > rule.max {
        return false;
      }
      return true;
    }

    /** The head of the handler: the request is limited under its normalized path. */
    method Serve(skipTrailingSlashes: bool, raw: string, headers: seq<string>, remote: string, now: int) returns (ok: bool)
      requires Valid() && Plain(Host(remote))
      requires served != [] ==> served[|served| - 1].now <= now
      modifies this
      ensures Valid() && |served| == |old(served)| + 1 && served[..|old(served)|] == old(served)
      ensures var hit := served[|old(served)|];
              && hit.now == now && hit.ip == Address(limits.tracked, headers, remote)
              && hit.path == ServedPath(skipTrailingSlashes, raw) && ok == Admits(limits, old(entries), hit)
    {
      ok := Allow(ServedPath(skipTrailingSlashes, raw), headers, remote, now);
    }
  }

  /** How the current window of a counter came about: when it was opened, whether by
      the client and rule in question, and how many of its requests it has admitted. */
  datatype Opening = Opening(start: int, own: bool, admitted: nat)

  /** Admissions in clock order, of which those with 2 * max - 2 others between them are
      more than a window apart. */
  ghost predicate Bounded(rule: Rule, ts: seq<int>)
    requires rule.max > 0
  {
    Nondecreasing(ts) && Spaced(ts, 2 * rule.max - 1, rule.window + 1)
  }

  /** What a counter remembers about the admissions `ts` of one client under one rule,
      although requests with an overlapping key may use it too. */
  ghost predicate Explains(c: Counter, rule: Rule, ts: seq<int>, clock: int, g: Opening)
  {
    && (ts != [] ==> ts[|ts| - 1] <= clock)
    && match c
       case Unused => ts == []
       case Used(e) =>
         var start, p := g.start, g.admitted;
         && p <= |ts| && p <= rule.max && start <= clock
         && (if g.own then 1 <= p <= e.count && ts[|ts| - p] == start && e.resetAt == start + rule.window
             else p < rule.max && p < e.count && (rule.max == 1 || start + rule.window <= e.resetAt + 1))
         && start <= e.resetAt && (ts != [] ==> ts[|ts| - 1] <= e.resetAt)
         && (|ts| > p ==> ts[|ts| - p - 1] < start)
         && (|ts| >= p + rule.max ==> ts[|ts| - p - rule.max] + rule.window < start)
  }

  /** No admission among the last `max` lies within a window before a later opening. */
  lemma OpeningIsLate(e: Entry, rule: Rule, ts: seq<int>, clock: int, g: Opening, now: int)
    requires rule.window > 0 && rule.max > 0 && Nondecreasing(ts)
    requires Explains(Used(e), rule, ts, clock, g) && e.resetAt < now
    ensures |ts| >= rule.max ==> ts[|ts| - rule.max] + rule.window < now
  {
    if |ts| >= rule.max && g.admitted < rule.max {
      assert ts[|ts| - rule.max] <= ts[|ts| - g.admitted - 1];
    }
  }

  lemma LastAdmissionIsEarlier(e: Entry, rule: Rule, ts: seq<int>, clock: int, g: Opening, now: int)
    requires rule.window > 0 && rule.max > 0 && Nondecreasing(ts)
    requires Explains(Used(e), rule, ts, clock, g) && e.resetAt < now
    ensures ts != [] ==> ts[|ts| - 1] < now
  {
  }

  lemma AdmittedHit(c: Counter, rule: Rule, ts: seq<int>, clock: int, g: Opening, now: int) returns (g': Opening)
    requires rule.window > 0 && rule.max > 0
    requires Bounded(rule, ts) && Explains(c, rule, ts, clock, g) && clock <= now
    requires Bump(c, rule.window, now).count <= rule.max
    ensures Bounded(rule, ts + [now])
    ensures Explains(Used(Bump(c, rule.window, now)), rule, ts + [now], now, g')
  {
    var reopened := c.Unused? || now > c.entry.resetAt;
    g' := if reopened then Opening(now, true, 1) else g.(admitted := g.admitted + 1);
    if reopened && c.Used? {
      OpeningIsLate(c.entry, rule, ts, clock, g, now);
    }
    var last := |ts| - (2 * rule.max - 1);
    forall i | 0 <= i <= last ensures ts[i] + rule.window + 1 <= now {
      assert ts[i] <= ts[if reopened then |ts| - rule.max else |ts| - g.admitted - rule.max];
    }
  }

  lemma RejectedHit(c: Counter, rule: Rule, ts: seq<int>, clock: int, g: Opening, now: int)
    requires rule.window > 0 && rule.max > 0
    requires Explains(c, rule, ts, clock, g) && clock <= now
    requires Bump(c, rule.window, now).count > rule.max
    ensures Explains(Used(Bump(c, rule.window, now)), rule, ts, now, g)
  {
  }

  /** A request with an overlapping key may use up the window or open the next, but
      not much too early. */
  lemma ForeignHit(c: Counter, rule: Rule, ts: seq<int>, clock: int, g: Opening, window: int, now: int) returns (g': Opening)
    requires rule.window > 0 && rule.max > 0 && window > 0 && (rule.max == 1 || rule.window <= window + 1)
    requires Nondecreasing(ts) && Explains(c, rule, ts, clock, g) && clock <= now
    ensures Explains(Used(Bump(c, window, now)), rule, ts, now, g')
  {
    g' := g;
    if c.Unused? || now > c.entry.resetAt {
      g' := Opening(now, false, 0);
      if c.Used? {
        OpeningIsLate(c.entry, rule, ts, clock, g, now);
        LastAdmissionIsEarlier(c.entry, rule, ts, clock, g, now);
      }
    }
  }

  /** Everything the bound needs, about one client and rule after a run. */
  ghost predicate RunFacts(rl: Limits, run: seq<Hit>, ip: string, ruleKey: string, clock: int, g: Opening)
    requires Resolved(rl)
  {
    var rule, ts := RuleOfKey(rl, ruleKey), AllowedTimes(rl, run, ip, ruleKey);
    && Bounded(rule, ts)
    && Explains(CounterAt(After(rl, run), StorageKey(ip, ruleKey)), rule, ts, clock, g)
  }

  /** A request that uses the counter, by the client under the rule or by somebody else. */
  lemma HitOnCounter(rl: Limits, c: Counter, hit: Hit, ip: string, ruleKey: string, ts: seq<int>, g: Opening) returns (ts': seq<int>, g': Opening)
    requires Resolved(rl) && Undisturbed(rl, ruleKey) && MayCall(rl.tracked, ip) && Genuine(rl, hit)
    requires KeyOf(hit) == StorageKey(ip, ruleKey)
    requires Bounded(RuleOfKey(rl, ruleKey), ts) && Explains(c, RuleOfKey(rl, ruleKey), ts, hit.now, g)
    ensures var window := RuleOfKey(rl, hit.ruleKey).window;
            var admitted := Concerns(hit, ip, ruleKey) && Bump(c, window, hit.now).count <= RuleOfKey(rl, hit.ruleKey).max;
            && ts' == ts + (if admitted then [hit.now] else [])
            && Bounded(RuleOfKey(rl, ruleKey), ts')
            && Explains(Used(Bump(c, window, hit.now)), RuleOfKey(rl, ruleKey), ts', hit.now, g')
  {
    var rule, theirs := RuleOfKey(rl, ruleKey), RuleOfKey(rl, hit.ruleKey);
    ts', g' := ts, g;
    assert ts + [] == ts;
    if !Concerns(hit, ip, ruleKey) {
      PickedKey(rl, hit.path, hit.ruleKey);
      CallersShare(rl.tracked, ip, ruleKey, hit.ip, hit.ruleKey);
      g' := ForeignHit(c, rule, ts, hit.now, g, theirs.window, hit.now);
    } else if Bump(c, theirs.window, hit.now).count <= theirs.max {
      g' := AdmittedHit(c, rule, ts, hit.now, g, hit.now);
      ts' := ts + [hit.now];
    } else {
      RejectedHit(c, rule, ts, hit.now, g, hit.now);
    }
  }

  lemma OneMoreHit(rl: Limits, before: seq<Hit>, hit: Hit, ip: string, ruleKey: string, g: Opening) returns (g': Opening)
    requires Resolved(rl) && Undisturbed(rl, ruleKey) && MayCall(rl.tracked, ip) && Genuine(rl, hit)
    requires RunFacts(rl, before, ip, ruleKey, hit.now, g)
    ensures RunFacts(rl, before + [hit], ip, ruleKey, hit.now, g')
  {
    RunStep(rl, before, hit, ip, ruleKey);
    var key, entries, ts := StorageKey(ip, ruleKey), After(rl, before), AllowedTimes(rl, before, ip, ruleKey);
    g' := g;
    if KeyOf(hit) != key {
      assert !Concerns(hit, ip, ruleKey);
      assert ts + [] == ts;
    } else {
      var ts';
      ts', g' := HitOnCounter(rl, CounterAt(entries, key), hit, ip, ruleKey, ts, g);
      assert AllowedTimes(rl, before + [hit], ip, ruleKey) == ts';
    }
  }

  lemma NothingExplained(rl: Limits, ip: string, ruleKey: string, clock: int)
    requires Resolved(rl)
    ensures RunFacts(rl, [], ip, ruleKey, clock, Opening(0, false, 0))
  {
  }

  lemma ClockRuns(rl: Limits, run: seq<Hit>, ip: string, ruleKey: string, clock: int, later: int, g: Opening)
    requires Resolved(rl) && RunFacts(rl, run, ip, ruleKey, clock, g) && clock <= later
    ensures RunFacts(rl, run, ip, ruleKey, later, g)
  {
  }

  lemma LastHit(rl: Limits, run: seq<Hit>)
    requires run != [] && InOrder(run) && Filed(rl, run)
    ensures var n := |run| - 1;
            && InOrder(run[..n]) && Filed(rl, run[..n]) && Genuine(rl, run[n]) && run == run[..n] + [run[n]]
            && (run[..n] != [] ==> run[..n][n - 1].now <= run[n].now)
  {
  }

  lemma {:induction false} RunExplained(rl: Limits, run: seq<Hit>, ip: string, ruleKey: string, clock: int) returns (g: Opening)
    requires Resolved(rl) && InOrder(run) && Filed(rl, run) && Undisturbed(rl, ruleKey) && MayCall(rl.tracked, ip)
    requires run != [] ==> run[|run| - 1].now <= clock
    ensures RunFacts(rl, run, ip, ruleKey, clock, g)
    decreases |run|
  {
    if run == [] {
      g := Opening(0, false, 0);
      NothingExplained(rl, ip, ruleKey, clock);
    } else {
      LastHit(rl, run);
      var before, hit := run[..|run| - 1], run[|run| - 1];
      g := RunExplained(rl, before, ip, ruleKey, hit.now);
      g := OneMoreHit(rl, before, hit, ip, ruleKey, g);
      ClockRuns(rl, run, ip, ruleKey, hit.now, clock, g);
    }
  }

  lemma ShortWindow(ts: seq<int>, m: nat, window: int, from: int)
    requires m >= 1 && window > 0 && Nondecreasing(ts) && Spaced(ts, m, window + 1)
    ensures CountWithin(ts, from, from + window) <= m
  {
    WindowBound(ts, m, window + 1, from, window);
    assert window / (window + 1) == 0;
  }

  /** Fewer than twice the maximum of the admissions lie in the closed interval that
      starts at `from` and is as long as the window. */
  ghost predicate Meets(rule: Rule, ts: seq<int>, from: int)
  {
    CountWithin(ts, from, from + rule.window) < 2 * rule.max
  }

  lemma TimesBound(ts: seq<int>, rule: Rule, from: int)
    requires rule.window > 0 && rule.max > 0 && Bounded(rule, ts)
    ensures Meets(rule, ts, from)
  {
    ShortWindow(ts, 2 * rule.max - 1, rule.window, from);
  }

  lemma FactsAreBounded(rl: Limits, run: seq<Hit>, ip: string, ruleKey: string, clock: int, g: Opening)
    requires Resolved(rl) && RunFacts(rl, run, ip, ruleKey, clock, g)
    ensures Bounded(RuleOfKey(rl, ruleKey), AllowedTimes(rl, run, ip, ruleKey))
  {
  }

  lemma {:induction false} ClientDecides(rl: Limits, run: seq<Hit>, ip: string, ip': string, ruleKey: string)
    requires Client(ip) == Client(ip')
    ensures AllowedTimes(rl, run, ip, ruleKey) == AllowedTimes(rl, run, ip', ruleKey)
    decreases |run|
  {
    if run != [] {
      ClientDecides(rl, run[..|run| - 1], ip, ip', ruleKey);
    }
  }

  lemma {:induction false} StrangersGetNothing(rl: Limits, run: seq<Hit>, ip: string, ruleKey: string)
    requires forall i :: 0 <= i < |run| ==> Client(run[i].ip) != Client(ip)
    ensures AllowedTimes(rl, run, ip, ruleKey) == []
    decreases |run|
  {
    if run != [] {
      StrangersGetNothing(rl, run[..|run| - 1], ip, ruleKey);
    }
  }

  lemma CallersBound(rl: Limits, run: seq<Hit>, ip: string, ruleKey: string, from: int)
    requires Resolved(rl) && InOrder(run) && Filed(rl, run) && Undisturbed(rl, ruleKey) && MayCall(rl.tracked, ip)
    ensures Meets(RuleOfKey(rl, ruleKey), AllowedTimes(rl, run, ip, ruleKey), from)
  {
    var clock := if run == [] then 0 else run[|run| - 1].now;
    var g := RunExplained(rl, run, ip, ruleKey, clock);
    FactsAreBounded(rl, run, ip, ruleKey, clock, g);
    TimesBound(AllowedTimes(rl, run, ip, ruleKey), RuleOfKey(rl, ruleKey), from);
  }

  /** However requests fall, from whatever addresses, no closed interval as long as an
      undisturbed rule's window admits twice the rule's maximum of one client: one
      request fewer is the most. */
  lemma LessThanTwiceTheMaximum(rl: Limits, run: seq<Hit>, ip: string, ruleKey: string, from: int)
    requires Resolved(rl) && InOrder(run) && Filed(rl, run) && Undisturbed(rl, ruleKey)
    ensures Meets(RuleOfKey(rl, ruleKey), AllowedTimes(rl, run, ip, ruleKey), from)
  {
    if i :| 0 <= i < |run| && Client(run[i].ip) == Client(ip) {
      ClientDecides(rl, run, ip, run[i].ip, ruleKey);
      CallersBound(rl, run, run[i].ip, ruleKey, from);
    } else {
      StrangersGetNothing(rl, run, ip, ruleKey);
    }
  }

  lemma CountOneMore(ts: seq<int>, t: int, from: int, to: int)
    ensures CountWithin(ts + [t], from, to) == CountWithin(ts, from, to) + if from <= t <= to then 1 else 0
  {
    assert (ts + [t])[..|ts|] == ts;
  }

  lemma ExampleTimes(rl: Limits, ip: string, a: Hit, b: Hit, c: Hit)
    requires RuleOfKey(rl, "*") == Rule(10, 2)
    requires a == Hit(0, ip, "/p", "*") && b == Hit(10, ip, "/p", "*") && c == Hit(11, ip, "/p", "*")
    ensures AllowedTimes(rl, [a, b, c, c], ip, "*") == [0, 10, 11, 11]
  {
    RunStep(rl, [], a, ip, "*");
    RunStep(rl, [] + [a], b, ip, "*");
    RunStep(rl, [] + [a] + [b], c, ip, "*");
    RunStep(rl, [] + [a] + [b] + [c], c, ip, "*");
    assert [] + [a] + [b] + [c] + [c] == [a, b, c, c];
  }

  lemma ExampleCount()
    ensures CountWithin([0, 10, 11, 11], 1, 11) == 3
  {
    CountOneMore([], 0, 1, 11);
    CountOneMore([0], 10, 1, 11);
    CountOneMore([0, 10], 11, 1, 11);
    CountOneMore([0, 10, 11], 11, 1, 11);
    assert [] + [0] == [0] && [0] + [10] == [0, 10] && [0, 10] + [11] == [0, 10, 11] && [0, 10, 11] + [11] == [0, 10, 11, 11];
  }

  /** The bound is met: with a maximum of two per ten units, the requests at
      10, 11 and 11 all pass, as the window opened at 0 ends before 11. */
  lemma BoundIsMet(ip: string)
    requires Plain(ip)
    ensures var rl := Resolve(10, 2, map[], true);
            var run := [Hit(0, ip, "/p", "*"), Hit(10, ip, "/p", "*"), Hit(11, ip, "/p", "*"), Hit(11, ip, "/p", "*")];
            InOrder(run) && Filed(rl, run) && CountWithin(AllowedTimes(rl, run, ip, "*"), 1, 11) == 3
  {
    ExampleTimes(Resolve(10, 2, map[], true), ip, Hit(0, ip, "/p", "*"), Hit(10, ip, "/p", "*"), Hit(11, ip, "/p", "*"));
    ExampleCount();
  }

}
