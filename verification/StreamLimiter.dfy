/** The limiter of open event streams: counts per account or address, a total, and a release that
    each response's closing events may call any number of times. */
module StreamLimiter {
  import opened Options

  const ACCOUNT_LIMIT: nat := 12
  const ADDRESS_LIMIT: nat := 300
  const TOTAL_LIMIT: nat := 1200

  datatype Request = Request(verb: string, path: string, account: Option<string>, ip: string)

  /** `/api/admin/events`, or anything under `/api/` that ends in `/stream` (paths have no line
      breaks). */
  predicate StreamPath(path: string) {
    path == "/api/admin/events"
    || ("/api/" <= path && |path| >= 12 && path[|path| - 7..] == "/stream")
  }

  predicate SignedIn(r: Request) { r.account.Some? && r.account.value != "" }

  function Key(r: Request): string {
    if SignedIn(r) then "user:" + r.account.value else "ip:" + r.ip
  }

  function Limit(r: Request): nat { if SignedIn(r) then ACCOUNT_LIMIT else ADDRESS_LIMIT }

  /** An admitted stream and its `released` flag. */
  datatype Stream = Stream(key: string, released: bool)

  datatype Limiter = Limiter(counts: map<string, int>, total: int, streams: seq<Stream>)

  datatype Verdict = Passed | Admitted(stream: nat) | Rejected

  function Count(l: Limiter, key: string): int { if key in l.counts then l.counts[key] else 0 }

  function Decide(l: Limiter, r: Request): Verdict {
    if r.verb != "GET" || !StreamPath(r.path) then Passed
    else if Count(l, Key(r)) >= Limit(r) || l.total >= TOTAL_LIMIT then Rejected
    else Admitted(|l.streams|)
  }

  function AfterRequest(l: Limiter, r: Request): Limiter {
    if Decide(l, r).Admitted? then
      Limiter(l.counts[Key(r) := Count(l, Key(r)) + 1], l.total + 1, l.streams + [Stream(Key(r), false)])
    else l
  }

  /** A close, finish or error event of an admitted stream's response. */
  function AfterRelease(l: Limiter, stream: nat): Limiter {
    if stream >= |l.streams| || l.streams[stream].released then l
    else
      var key := l.streams[stream].key;
      var remaining := (if key in l.counts then l.counts[key] else 1) - 1;
      Limiter(if remaining > 0 then l.counts[key := remaining] else l.counts - {key},
              l.total - 1, l.streams[stream := Stream(key, true)])
  }

  class LimiterState {
    var counts: map<string, int>
    var total: int
    var streams: seq<Stream>

    function View(): Limiter
      reads this
    {
      Limiter(counts, total, streams)
    }

    constructor ()
      ensures View() == Limiter(map[], 0, [])
    {
      counts, total, streams := map[], 0, [];
    }

    method Handle(r: Request) returns (verdict: Verdict)
      modifies this
      ensures verdict == Decide(old(View()), r)
      ensures View() == AfterRequest(old(View()), r)
    {
      if r.verb != "GET" || !StreamPath(r.path) {
        return Passed;
      }
      var account := r.account.Some? && r.account.value != "";
      var key := if account then "user:" + r.account.value else "ip:" + r.ip;
      var limit := if account then 12 else 300;
      var count := if key in counts then counts[key] else 0;
      if count >= limit || total >= 1200 {
        return Rejected;
      }
      counts := counts[key := count + 1];
      total := total + 1;
      streams := streams + [Stream(key, false)];
      return Admitted(|streams| - 1);
    }

    method Release(stream: nat)
      modifies this
      ensures View() == AfterRelease(old(View()), stream)
    {
      if stream >= |streams| || streams[stream].released {
        return;
      }
      var key := streams[stream].key;
      streams := streams[stream := Stream(key, true)];
      total := total - 1;
      var remaining := (if key in counts then counts[key] else 1) - 1;
      counts := if remaining > 0 then counts[key := remaining] else counts - {key};
    }
  }

  // ---------- what the counters mean ----------

  function LiveOf(streams: seq<Stream>, key: string): nat {
    if streams == [] then 0
    else
      var last := streams[|streams| - 1];
      LiveOf(streams[..|streams| - 1], key) + if last.key == key && !last.released then 1 else 0
  }

  function Live(streams: seq<Stream>): nat {
    if streams == [] then 0
    else Live(streams[..|streams| - 1]) + if !streams[|streams| - 1].released then 1 else 0
  }

  function LimitOf(key: string): nat { if "user:" <= key then ACCOUNT_LIMIT else ADDRESS_LIMIT }

  ghost predicate Consistent(l: Limiter) {
    && (forall key :: Count(l, key) == LiveOf(l.streams, key))
    && (forall key :: key in l.counts <==> LiveOf(l.streams, key) > 0)
    && l.total == Live(l.streams)
  }

  ghost predicate Bounded(l: Limiter) {
    l.total <= TOTAL_LIMIT && forall key :: LiveOf(l.streams, key) <= LimitOf(key)
  }

  lemma {:induction false} ReleaseCounts(streams: seq<Stream>, i: nat, key: string)
    requires i < |streams| && !streams[i].released
    ensures
      var after := streams[i := Stream(streams[i].key, true)];
      && LiveOf(after, key) == LiveOf(streams, key) - (if streams[i].key == key then 1 else 0)
      && Live(after) == Live(streams) - 1
  {
    var n := |streams|;
    var after := streams[i := Stream(streams[i].key, true)];
    if i < n - 1 {
      ReleaseCounts(streams[..n - 1], i, key);
      assert after[..n - 1] == streams[..n - 1][i := Stream(streams[i].key, true)];
    } else {
      assert after[..n - 1] == streams[..n - 1];
    }
  }

  lemma RequestKeeps(l: Limiter, r: Request)
    requires Consistent(l) && Bounded(l)
    ensures Consistent(AfterRequest(l, r)) && Bounded(AfterRequest(l, r))
  {
    if Decide(l, r).Admitted? {
      var after := AfterRequest(l, r);
      assert after.streams[..|after.streams| - 1] == l.streams;
      KeyTellsLimit(r);
      forall key
        ensures LiveOf(after.streams, key) == LiveOf(l.streams, key) + if key == Key(r) then 1 else 0
      {
      }
    }
  }

  /** An address never passes for an account: the two kinds of key do not overlap. */
  lemma KeyTellsLimit(r: Request)
    ensures LimitOf(Key(r)) == Limit(r)
  {
    if SignedIn(r) {
      assert Key(r)[..5] == "user:";
    } else {
      assert Key(r)[0] == 'i';
    }
  }

  /** Two requests are counted together exactly when they are of one account, or of no account and
      one address. */
  lemma KeysAgreeIff(r: Request, s: Request)
    ensures Key(r) == Key(s)
       <==> || (r.account.Some? && r.account.value != "" && s.account == r.account)
            || ((r.account.None? || r.account.value == "") && (s.account.None? || s.account.value == "")
                && r.ip == s.ip)
  {
    KeyParts(r);
    KeyParts(s);
    if SignedIn(r) && SignedIn(s) {
      assert Key(r)[5..] == r.account.value && Key(s)[5..] == s.account.value;
    } else if !SignedIn(r) && !SignedIn(s) {
      assert Key(r)[3..] == r.ip && Key(s)[3..] == s.ip;
    }
  }

  lemma KeyParts(r: Request)
    ensures if r.account.Some? && r.account.value != "" then Key(r)[0] == 'u' else Key(r)[0] == 'i'
  {
  }

  /** Which paths are streams. */
  lemma StreamPathIff(path: string)
    ensures StreamPath(path)
       <==> path == "/api/admin/events" || exists middle: string :: path == "/api/" + middle + "/stream"
  {
    if "/api/" <= path && |path| >= 12 && path[|path| - 7..] == "/stream" {
      var middle := path[5..|path| - 7];
      assert path == "/api/" + middle + "/stream";
    }
    if middle: string :| path == "/api/" + middle + "/stream" {
      assert |path| == 5 + |middle| + 7 && path[..5] == "/api/" && path[|path| - 7..] == "/stream";
    }
  }

  lemma ReleaseKeeps(l: Limiter, stream: nat)
    requires Consistent(l) && Bounded(l)
    ensures Consistent(AfterRelease(l, stream)) && Bounded(AfterRelease(l, stream))
  {
    if stream < |l.streams| && !l.streams[stream].released {
      var key := l.streams[stream].key;
      forall k
        ensures LiveOf(AfterRelease(l, stream).streams, k) == LiveOf(l.streams, k) - if key == k then 1 else 0
      {
        ReleaseCounts(l.streams, stream, k);
      }
      ReleaseCounts(l.streams, stream, key);
    }
  }

  // ---------- runs ----------

  datatype Event = Arrives(r: Request) | Closes(stream: nat)

  function After(l: Limiter, e: Event): Limiter {
    match e
    case Arrives(r) => AfterRequest(l, r)
    case Closes(stream) => AfterRelease(l, stream)
  }

  function Run(events: seq<Event>): Limiter {
    if events == [] then Limiter(map[], 0, []) else After(Run(events[..|events| - 1]), events[|events| - 1])
  }

  /** After any sequence of requests and of closing events, repeated or not, each count is the
      number of live streams of its key, absent exactly when there are none; the total is the
      number of live streams; and no limit is exceeded. */
  lemma {:induction false} CountsAreLiveStreams(events: seq<Event>)
    ensures Consistent(Run(events)) && Bounded(Run(events))
  {
    if events != [] {
      CountsAreLiveStreams(events[..|events| - 1]);
      match events[|events| - 1]
      case Arrives(r) => RequestKeeps(Run(events[..|events| - 1]), r);
      case Closes(stream) => ReleaseKeeps(Run(events[..|events| - 1]), stream);
    }
  }

  /** At any time a request that opens a stream is admitted exactly when its account or address
      has fewer live streams than its limit and all together are fewer than the total. */
  lemma AdmittedIff(events: seq<Event>, r: Request)
    requires r.verb == "GET" && StreamPath(r.path)
    ensures
      var l := Run(events);
      var limit := if r.account.Some? && r.account.value != "" then 12 else 300;
      && (Decide(l, r).Admitted? <==> LiveOf(l.streams, Key(r)) < limit && Live(l.streams) < 1200)
      && (!Decide(l, r).Admitted? ==> Decide(l, r) == Rejected && AfterRequest(l, r) == l)
      && (Decide(l, r).Admitted? ==> AfterRequest(l, r).streams == l.streams + [Stream(Key(r), false)])
  {
    CountsAreLiveStreams(events);
    assert Count(Run(events), Key(r)) == LiveOf(Run(events).streams, Key(r));
  }

  /** Any other request passes and is not counted. */
  lemma OthersPass(l: Limiter, r: Request)
    requires r.verb != "GET" || !StreamPath(r.path)
    ensures Decide(l, r) == Passed && AfterRequest(l, r) == l
  {
  }

  // ---------- the total is the sum of the counts ----------

  function SumOf(l: Limiter, keys: seq<string>): int {
    if keys == [] then 0 else SumOf(l, keys[..|keys| - 1]) + Count(l, keys[|keys| - 1])
  }

  function SumLive(streams: seq<Stream>, keys: seq<string>): nat {
    if keys == [] then 0 else SumLive(streams, keys[..|keys| - 1]) + LiveOf(streams, keys[|keys| - 1])
  }

  predicate Distinct(keys: seq<string>) { forall i, j :: 0 <= i < j < |keys| ==> keys[i] != keys[j] }

  lemma {:induction false} SumOneMore(streams: seq<Stream>, keys: seq<string>)
    requires streams != [] && Distinct(keys)
    ensures
      var front, last := streams[..|streams| - 1], streams[|streams| - 1];
      SumLive(streams, keys) == SumLive(front, keys) + if last.key in keys && !last.released then 1 else 0
  {
    if keys != [] {
      SumOneMore(streams, keys[..|keys| - 1]);
      var key := streams[|streams| - 1].key;
      assert key in keys <==> key in keys[..|keys| - 1] || key == keys[|keys| - 1];
      LastIsNew(keys);
    }
  }

  lemma LastIsNew(keys: seq<string>)
    requires Distinct(keys) && keys != []
    ensures keys[|keys| - 1] !in keys[..|keys| - 1]
  {
  }

  lemma {:induction false} LiveIsSum(streams: seq<Stream>, keys: seq<string>)
    requires Distinct(keys)
    requires forall i :: 0 <= i < |streams| && !streams[i].released ==> streams[i].key in keys
    ensures Live(streams) == SumLive(streams, keys)
  {
    if streams == [] {
      NothingLive(keys);
    } else {
      SumOneMore(streams, keys);
      LiveIsSum(streams[..|streams| - 1], keys);
    }
  }

  lemma {:induction false} NothingLive(keys: seq<string>)
    ensures SumLive([], keys) == 0
  {
    if keys != [] {
      NothingLive(keys[..|keys| - 1]);
    }
  }

  lemma {:induction false} SumsAgree(l: Limiter, keys: seq<string>)
    requires Consistent(l)
    ensures SumOf(l, keys) == SumLive(l.streams, keys)
  {
    if keys != [] {
      SumsAgree(l, keys[..|keys| - 1]);
    }
  }

  lemma {:induction false} LiveIsCounted(streams: seq<Stream>, i: nat)
    requires i < |streams| && !streams[i].released
    ensures LiveOf(streams, streams[i].key) > 0
  {
    if i < |streams| - 1 {
      LiveIsCounted(streams[..|streams| - 1], i);
    }
  }

  /** The total is the sum of the counts, however the map's keys are listed. */
  lemma TotalIsSumOfCounts(events: seq<Event>, keys: seq<string>)
    requires Distinct(keys) && forall key :: key in keys <==> key in Run(events).counts
    ensures Run(events).total == SumOf(Run(events), keys)
  {
    CountsAreLiveStreams(events);
    var l := Run(events);
    forall i | 0 <= i < |l.streams| && !l.streams[i].released
      ensures l.streams[i].key in keys
    {
      LiveIsCounted(l.streams, i);
    }
    LiveIsSum(l.streams, keys);
    SumsAgree(l, keys);
  }

  // ---------- released once ----------

  function Releases(events: seq<Event>): nat {
    if events == [] then 0
    else
      Releases(events[..|events| - 1])
      + if Run(events) != Run(events[..|events| - 1]) && events[|events| - 1].Closes? then 1 else 0
  }

  /** The counters are lowered exactly once for each stream that is no longer live. */
  lemma {:induction false} ReleasedOnce(events: seq<Event>)
    ensures |Run(events).streams| == Live(Run(events).streams) + Releases(events)
  {
    if events != [] {
      var before := Run(events[..|events| - 1]);
      ReleasedOnce(events[..|events| - 1]);
      match events[|events| - 1]
      case Arrives(r) =>
        if Decide(before, r).Admitted? {
          assert Run(events).streams[..|before.streams|] == before.streams;
        }
      case Closes(stream) =>
        if stream < |before.streams| && !before.streams[stream].released {
          ReleaseCounts(before.streams, stream, "");
        }
    }
  }
}
