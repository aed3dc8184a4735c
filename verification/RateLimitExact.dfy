/** When the limiter's bound holds: over every run exactly for the rules that no other
    configured rule disturbs. */
module RateLimitExact {
  import opened Spacing
  import opened RateLimit

  /** The promise of the limiter about one rule, over every run, address and interval. */
  ghost predicate BoundHolds(rl: Limits, ruleKey: string)
  {
    forall run, ip, from :: InOrder(run) && Filed(rl, run) ==> BoundIn(rl, ruleKey, run, ip, from)
  }

  ghost predicate BoundIn(rl: Limits, ruleKey: string, run: seq<Hit>, ip: string, from: int)
  {
    Meets(RuleOfKey(rl, ruleKey), AllowedTimes(rl, run, ip, ruleKey), from)
  }

  /** The sequence with `n` more copies of `x` at its end. */
  ghost function Repeat<T>(s: seq<T>, x: T, n: nat): seq<T>
  {
    if n == 0 then s else Repeat(s, x, n - 1) + [x]
  }

  lemma {:induction false} CountRepeat(ts: seq<int>, t: int, n: nat, from: int, to: int)
    ensures CountWithin(Repeat(ts, t, n), from, to) == CountWithin(ts, from, to) + if from <= t <= to then n else 0
  {
    if n > 0 {
      CountRepeat(ts, t, n - 1, from, to);
      CountOneMore(Repeat(ts, t, n - 1), t, from, to);
    }
  }

  /** What a run has done to one client and rule: the state of the counter and the admissions. */
  ghost predicate Reached(rl: Limits, run: seq<Hit>, ip: string, ruleKey: string, e: Entry, ts: seq<int>)
  {
    CounterAt(After(rl, run), StorageKey(ip, ruleKey)) == Used(e) && AllowedTimes(rl, run, ip, ruleKey) == ts
  }

  lemma OneFits(rl: Limits, run: seq<Hit>, hit: Hit, e: Entry, ts: seq<int>)
    requires Reached(rl, run, hit.ip, hit.ruleKey, e, ts)
    requires hit.now <= e.resetAt && e.count + 1 <= RuleOfKey(rl, hit.ruleKey).max
    ensures Reached(rl, run + [hit], hit.ip, hit.ruleKey, e.(count := e.count + 1), ts + [hit.now])
  {
    RunStep(rl, run, hit, hit.ip, hit.ruleKey);
  }

  /** A burst of requests that still fits into the open window is admitted in full. */
  lemma {:induction false} Burst(rl: Limits, run: seq<Hit>, hit: Hit, n: nat, e: Entry, ts: seq<int>)
    requires Reached(rl, run, hit.ip, hit.ruleKey, e, ts)
    requires hit.now <= e.resetAt && e.count + n <= RuleOfKey(rl, hit.ruleKey).max
    ensures Reached(rl, Repeat(run, hit, n), hit.ip, hit.ruleKey, Entry(e.count + n, e.resetAt), Repeat(ts, hit.now, n))
    decreases n
  {
    if n > 0 {
      Burst(rl, run, hit, n - 1, e, ts);
      OneFits(rl, Repeat(run, hit, n - 1), hit, Entry(e.count + n - 1, e.resetAt), Repeat(ts, hit.now, n - 1));
    }
  }

  /** A request under an overlapping key opens the next window. */
  lemma Reopen(rl: Limits, run: seq<Hit>, hit: Hit, ip: string, ruleKey: string, c: Counter, ts: seq<int>)
    requires KeyOf(hit) == StorageKey(ip, ruleKey) && hit.ruleKey != ruleKey
    requires CounterAt(After(rl, run), KeyOf(hit)) == c && AllowedTimes(rl, run, ip, ruleKey) == ts
    requires c.Unused? || c.entry.resetAt < hit.now
    ensures Reached(rl, run + [hit], ip, ruleKey, Entry(1, hit.now + RuleOfKey(rl, hit.ruleKey).window), ts)
  {
    RunStep(rl, run, hit, ip, ruleKey);
    assert ts + [] == ts;
  }

  /** So does a request of the client itself, which is then admitted. */
  lemma ReopenOwn(rl: Limits, run: seq<Hit>, hit: Hit, e: Entry, ts: seq<int>)
    requires Resolved(rl) && Reached(rl, run, hit.ip, hit.ruleKey, e, ts) && e.resetAt < hit.now
    ensures Reached(rl, run + [hit], hit.ip, hit.ruleKey, Entry(1, hit.now + RuleOfKey(rl, hit.ruleKey).window), ts + [hit.now])
  {
    RunStep(rl, run, hit, hit.ip, hit.ruleKey);
  }

  /** A window opened under an overlapping key and then filled by the client. */
  lemma ForeignWindow(rl: Limits, run: seq<Hit>, own: Hit, other: Hit, c: Counter, ts: seq<int>, n: nat)
    requires KeyOf(own) == KeyOf(other) && own.ruleKey != other.ruleKey
    requires CounterAt(After(rl, run), KeyOf(own)) == c && AllowedTimes(rl, run, own.ip, own.ruleKey) == ts
    requires c.Unused? || c.entry.resetAt < other.now
    requires own.now <= other.now + RuleOfKey(rl, other.ruleKey).window && n + 1 <= RuleOfKey(rl, own.ruleKey).max
    ensures Reached(rl, Repeat(run + [other], own, n), own.ip, own.ruleKey,
                    Entry(1 + n, other.now + RuleOfKey(rl, other.ruleKey).window), Repeat(ts, own.now, n))
  {
    Reopen(rl, run, other, own.ip, own.ruleKey, c, ts);
    Burst(rl, run + [other], own, n, Entry(1, other.now + RuleOfKey(rl, other.ruleKey).window), ts);
  }

  /** A window opened and filled by the client. */
  lemma OwnWindow(rl: Limits, run: seq<Hit>, own: Hit, e: Entry, ts: seq<int>, n: nat)
    requires Resolved(rl) && Reached(rl, run, own.ip, own.ruleKey, e, ts) && e.resetAt < own.now
    requires n + 1 <= RuleOfKey(rl, own.ruleKey).max
    ensures Reached(rl, Repeat(run + [own], own, n), own.ip, own.ruleKey,
                    Entry(1 + n, own.now + RuleOfKey(rl, own.ruleKey).window), Repeat(ts + [own.now], own.now, n))
  {
    ReopenOwn(rl, run, own, e, ts);
    Burst(rl, run + [own], own, n, Entry(1, own.now + RuleOfKey(rl, own.ruleKey).window), ts + [own.now]);
  }

  /** A window that `other` opens at 0 and the client fills at its end. */
  ghost function FirstWindow(own: Hit, other: Hit, w: int, n: nat): seq<Hit>
  {
    Repeat([] + [other.(now := 0)], own.(now := w), n)
  }

  /** A second one that `other` opens at `w + 1` and the client fills at its start. */
  ghost function TwoWindows(own: Hit, other: Hit, w: int, n: nat): seq<Hit>
  {
    Repeat(FirstWindow(own, other, w, n) + [other.(now := w + 1)], own.(now := w + 1), n)
  }

  ghost function TwoBursts(w: int, n: nat): seq<int>
  {
    Repeat(Repeat([], w, n), w + 1, n)
  }

  /** The run that breaks the bound: right after two such windows the client opens and
      fills one of its own. */
  ghost function CrowdedRun(own: Hit, other: Hit, w: int, n: nat): seq<Hit>
  {
    Repeat(TwoWindows(own, other, w, n) + [own.(now := 2 * w + 2)], own.(now := 2 * w + 2), n)
  }

  ghost function CrowdedAdmissions(w: int, n: nat): seq<int>
  {
    Repeat(TwoBursts(w, n) + [2 * w + 2], 2 * w + 2, n)
  }

  /** The run is one that the limiter can serve, and it ends at `now` at the latest. */
  ghost predicate Served(rl: Limits, run: seq<Hit>, now: int)
  {
    InOrder(run) && Filed(rl, run) && (run != [] ==> run[|run| - 1].now <= now)
  }

  lemma ServedSnoc(rl: Limits, run: seq<Hit>, hit: Hit)
    requires Served(rl, run, hit.now) && Genuine(rl, hit)
    ensures Served(rl, run + [hit], hit.now)
  {
    ServedOneMore(rl, run, hit);
  }

  lemma {:induction false} ServedBurst(rl: Limits, run: seq<Hit>, hit: Hit, n: nat)
    requires Served(rl, run, hit.now) && Genuine(rl, hit)
    ensures Served(rl, Repeat(run, hit, n), hit.now)
    decreases n
  {
    if n > 0 {
      ServedBurst(rl, run, hit, n - 1);
      ServedSnoc(rl, Repeat(run, hit, n - 1), hit);
    }
  }

  lemma ServedLater(rl: Limits, run: seq<Hit>, now: int, later: int)
    requires Served(rl, run, now) && now <= later
    ensures Served(rl, run, later)
  {
  }

  /** One request, and then a burst that is not earlier. */
  lemma ServedPair(rl: Limits, run: seq<Hit>, now: int, first: Hit, burst: Hit, n: nat)
    requires Served(rl, run, now) && now <= first.now <= burst.now && Genuine(rl, first) && Genuine(rl, burst)
    ensures Served(rl, Repeat(run + [first], burst, n), burst.now)
  {
    ServedLater(rl, run, now, first.now);
    ServedSnoc(rl, run, first);
    ServedLater(rl, run + [first], first.now, burst.now);
    ServedBurst(rl, run + [first], burst, n);
  }

  lemma CrowdedRunIsServed(rl: Limits, own: Hit, other: Hit, w: int, n: nat)
    requires w > 0 && Genuine(rl, own) && Genuine(rl, other)
    ensures Served(rl, CrowdedRun(own, other, w, n), 2 * w + 2)
  {
    ServedPair(rl, [], 0, other.(now := 0), own.(now := w), n);
    ServedPair(rl, FirstWindow(own, other, w, n), w, other.(now := w + 1), own.(now := w + 1), n);
    ServedPair(rl, TwoWindows(own, other, w, n), w + 1, own.(now := 2 * w + 2), own.(now := 2 * w + 2), n);
  }

  lemma AfterFirstWindow(rl: Limits, own: Hit, other: Hit, w: int, n: nat)
    requires Resolved(rl) && KeyOf(own) == KeyOf(other) && own.ruleKey != other.ruleKey
    requires n + 1 <= RuleOfKey(rl, own.ruleKey).max && RuleOfKey(rl, other.ruleKey).window == w
    ensures Reached(rl, FirstWindow(own, other, w, n), own.ip, own.ruleKey, Entry(1 + n, w), Repeat([], w, n))
  {
    assert After(rl, []) == map[] && AllowedTimes(rl, [], own.ip, own.ruleKey) == [];
    ForeignWindow(rl, [], own.(now := w), other.(now := 0), Unused, [], n);
  }

  lemma AfterTwoWindows(rl: Limits, own: Hit, other: Hit, w: int, n: nat)
    requires Resolved(rl) && KeyOf(own) == KeyOf(other) && own.ruleKey != other.ruleKey
    requires n + 1 <= RuleOfKey(rl, own.ruleKey).max && RuleOfKey(rl, other.ruleKey).window == w
    ensures Reached(rl, TwoWindows(own, other, w, n), own.ip, own.ruleKey, Entry(1 + n, 2 * w + 1), TwoBursts(w, n))
  {
    AfterFirstWindow(rl, own, other, w, n);
    ForeignWindow(rl, FirstWindow(own, other, w, n), own.(now := w + 1), other.(now := w + 1), Used(Entry(1 + n, w)), Repeat([], w, n), n);
  }

  lemma AfterCrowd(rl: Limits, own: Hit, other: Hit, w: int, n: nat)
    requires Resolved(rl) && KeyOf(own) == KeyOf(other) && own.ruleKey != other.ruleKey
    requires n + 1 <= RuleOfKey(rl, own.ruleKey).max && RuleOfKey(rl, other.ruleKey).window == w
    ensures Reached(rl, CrowdedRun(own, other, w, n), own.ip, own.ruleKey,
                    Entry(1 + n, 2 * w + 2 + RuleOfKey(rl, own.ruleKey).window), CrowdedAdmissions(w, n))
  {
    AfterTwoWindows(rl, own, other, w, n);
    OwnWindow(rl, TwoWindows(own, other, w, n), own.(now := 2 * w + 2), Entry(1 + n, 2 * w + 1), TwoBursts(w, n), n);
  }

  lemma CrowdedCount(rule: Rule, w: int)
    requires w > 0 && rule.max >= 2 && rule.window >= w + 2
    ensures !Meets(rule, CrowdedAdmissions(w, rule.max - 1), w)
  {
    var k, to := rule.max - 1, w + rule.window;
    var first := Repeat([], w, k);
    CountRepeat([], w, k, w, to);
    CountRepeat(first, w + 1, k, w, to);
    CountOneMore(TwoBursts(w, k), 2 * w + 2, w, to);
    CountRepeat(TwoBursts(w, k) + [2 * w + 2], 2 * w + 2, k, w, to);
  }

  lemma RunBreaks(rl: Limits, run: seq<Hit>, ip: string, ruleKey: string, e: Entry, ts: seq<int>, from: int)
    requires InOrder(run) && Filed(rl, run) && Reached(rl, run, ip, ruleKey, e, ts)
    requires !Meets(RuleOfKey(rl, ruleKey), ts, from)
    ensures !BoundHolds(rl, ruleKey)
  {
    assert !BoundIn(rl, ruleKey, run, ip, from);
  }

  lemma CrowdedRunBreaks(rl: Limits, own: Hit, other: Hit)
    requires Resolved(rl) && KeyOf(own) == KeyOf(other) && own.ruleKey != other.ruleKey
    requires Genuine(rl, own) && Genuine(rl, other)
    requires RuleOfKey(rl, own.ruleKey).max > 1
    requires RuleOfKey(rl, own.ruleKey).window > RuleOfKey(rl, other.ruleKey).window + 1
    ensures !BoundHolds(rl, own.ruleKey)
  {
    var rule, w := RuleOfKey(rl, own.ruleKey), RuleOfKey(rl, other.ruleKey).window;
    var n := rule.max - 1;
    CrowdedRunIsServed(rl, own, other, w, n);
    AfterCrowd(rl, own, other, w, n);
    CrowdedCount(rule, w);
    RunBreaks(rl, CrowdedRun(own, other, w, n), own.ip, own.ruleKey,
              Entry(1 + n, 2 * w + 2 + rule.window), CrowdedAdmissions(w, n), w);
  }

  lemma DisturbedRuleBreaks(rl: Limits, key: string, k: string)
    requires Resolved(rl) && rl.tracked && key in RuleKeys(rl) && k in RuleKeys(rl) && Overlap(key, k)
    requires RuleOfKey(rl, key).max > 1 && RuleOfKey(rl, key).window > RuleOfKey(rl, k).window + 1
    ensures !BoundHolds(rl, key)
  {
    RuleKeysAreUsed(rl, key);
    RuleKeysAreUsed(rl, k);
    var path :| path != "" && MayPick(rl, path, key);
    var path' :| path' != "" && MayPick(rl, path', k);
    var ip, ip' := MeetingAddresses(key, k);
    assert key != k;
    CrowdedRunBreaks(rl, Hit(0, ip, path, key), Hit(0, ip', path', k));
  }

  /** A rule keeps its bound over every run of callers and for every address exactly if
      no overlapping key of the configuration disturbs it. */
  lemma BoundHoldsExactly(rl: Limits, key: string)
    requires Resolved(rl) && key in RuleKeys(rl)
    ensures BoundHolds(rl, key) <==> Undisturbed(rl, key)
  {
    if Undisturbed(rl, key) {
      forall run, ip, from | InOrder(run) && Filed(rl, run) ensures BoundIn(rl, key, run, ip, from) {
        LessThanTwiceTheMaximum(rl, run, ip, key, from);
      }
    } else {
      var k :| k in RuleKeys(rl) && Overlap(key, k) && RuleOfKey(rl, key).window > RuleOfKey(rl, k).window + 1;
      DisturbedRuleBreaks(rl, key, k);
    }
  }

  /** A configuration that breaks the bound: the rule for "/b|/c" shares counters with
      the much shorter one for "/c". */
  lemma BoundCanBreak()
    ensures !BoundHolds(Resolve(0, 0, map["/c" := Rule(1, 2), "/b|/c" := Rule(100, 2)], true), "/b|/c")
  {
    var rl := Resolve(0, 0, map["/c" := Rule(1, 2), "/b|/c" := Rule(100, 2)], true);
    assert "/b|/c"[2..] == "|" + "/c" && Head("/b|/c", "/c") == "/b";
    assert Overlap("/b|/c", "/c");
    BoundHoldsExactly(rl, "/b|/c");
  }

}
