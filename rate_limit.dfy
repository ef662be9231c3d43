/**
  The in-memory sliding-window rate limiter in front of the HTTP API.

  Each client keeps two lists of request timestamps: one for the last minute
  and one for the last hour. The clock is an integer number of seconds that
  the caller supplies, once for the periodic cleanup and once for the check.
 */
module RateLimit {
  import opened Wrappers

  const MinuteSpan := 60
  const HourSpan := 3600
  /** Seconds between two prunings of the whole table. */
  const CleanupInterval := 300
  const HealthPath := "/health"
  const TooManyRequests := 429
  const MinuteMessage := "Rate limit exceeded: too many requests per minute"
  const HourMessage := "Rate limit exceeded: too many requests per hour"
  const DefaultPerMinute := 60
  const DefaultPerHour := 1000

  // ---------------------------------------------------------------------
  // The client identifier
  // ---------------------------------------------------------------------

  /**
    What the limiter reads of a request. Header names are lower case, as the
    headers of the web framework are looked up case-insensitively.
   */
  datatype Request = Request(path: string, clientHost: Option<string>, headers: map<string, string>, cookies: map<string, string>)

  function Host(req: Request): string {
    if req.clientHost.Some? then req.clientHost.value else "unknown"
  }

  /** `headers.get("x-user-id") or cookies.get("user_id")`, kept only when truthy. */
  function UserId(req: Request): (r: Option<string>)
    ensures r.Some? ==> r.value != ""
    ensures r.None? <==> (("x-user-id" !in req.headers || req.headers["x-user-id"] == "")
                          && ("user_id" !in req.cookies || req.cookies["user_id"] == ""))
  {
    if "x-user-id" in req.headers && req.headers["x-user-id"] != "" then Some(req.headers["x-user-id"])
    else if "user_id" in req.cookies && req.cookies["user_id"] != "" then Some(req.cookies["user_id"])
    else None
  }

  /** `_get_client_id`. */
  function ClientId(req: Request): (r: string)
    ensures UserId(req).None? ==> r == Host(req)
    ensures UserId(req).Some? ==> r == Host(req) + ":" + UserId(req).value
  {
    var user := UserId(req);
    if user.Some? then Host(req) + ":" + user.value else Host(req)
  }

  /** The header wins over the cookie, and the host is "unknown" when no client address is known. */
  lemma ClientIdSources(req: Request)
    ensures "x-user-id" in req.headers && req.headers["x-user-id"] != "" ==> ClientId(req) == Host(req) + ":" + req.headers["x-user-id"]
    ensures ("x-user-id" !in req.headers || req.headers["x-user-id"] == "") && "user_id" in req.cookies && req.cookies["user_id"] != ""
      ==> ClientId(req) == Host(req) + ":" + req.cookies["user_id"]
    ensures req.clientHost.None? && UserId(req).None? ==> ClientId(req) == "unknown"
  {
  }

  /** Two users behind the same address are told apart, and both differ from the anonymous client there. */
  lemma DistinctUsersDistinctIds(a: Request, b: Request)
    requires Host(a) == Host(b)
    requires UserId(a) != UserId(b)
    ensures ClientId(a) != ClientId(b)
  {
    var h := Host(a);
    if UserId(a).Some? && UserId(b).Some? {
      assert ClientId(a)[|h| + 1..] == UserId(a).value;
      assert ClientId(b)[|h| + 1..] == UserId(b).value;
    } else {
      assert |ClientId(a)| != |ClientId(b)|;
    }
  }

  // ---------------------------------------------------------------------
  // Windows of timestamps
  // ---------------------------------------------------------------------

  /** `[ts for ts in s if ts > lo]`. */
  function Keep(s: seq<int>, lo: int): (r: seq<int>)
    ensures |r| <= |s|
  {
    if s == [] then [] else (if s[0] > lo then [s[0]] else []) + Keep(s[1..], lo)
  }

  /** The kept timestamps are exactly those newer than `lo`. */
  lemma {:induction false} KeepMembers(s: seq<int>, lo: int)
    ensures forall x :: x in Keep(s, lo) <==> x in s && x > lo
  {
    if s != [] {
      KeepMembers(s[1..], lo);
      assert s == [s[0]] + s[1..];
    }
  }

  lemma {:induction false} KeepAppend(s: seq<int>, t: seq<int>, lo: int)
    ensures Keep(s + t, lo) == Keep(s, lo) + Keep(t, lo)
  {
    if s == [] {
      assert s + t == t;
    } else {
      assert (s + t)[0] == s[0] && (s + t)[1..] == s[1..] + t;
      KeepAppend(s[1..], t, lo);
    }
  }

  /** Pruning with an older bound and then a newer one is pruning with the newer one. */
  lemma {:induction false} KeepKeep(s: seq<int>, a: int, b: int)
    requires a <= b
    ensures Keep(Keep(s, a), b) == Keep(s, b)
  {
    if s != [] {
      KeepKeep(s[1..], a, b);
      KeepAppend(if s[0] > a then [s[0]] else [], Keep(s[1..], a), b);
    }
  }

  /** The list of a client, with a missing client read as the empty list (`defaultdict(list)`). */
  function Stored(m: map<string, seq<int>>, c: string): seq<int> {
    if c in m then m[c] else []
  }

  /** Reading `m[c]` through a `defaultdict` inserts an empty list for a missing client. */
  function Touch(m: map<string, seq<int>>, c: string): (r: map<string, seq<int>>)
    ensures c in r && r.Keys == m.Keys + {c}
  {
    if c in m then m else m[c := []]
  }

  /** A client the `defaultdict` inserted reads as it did before: empty. */
  lemma TouchStored(m: map<string, seq<int>>, c: string, d: string)
    ensures Stored(Touch(m, c), d) == Stored(m, d)
  {
  }

  lemma TouchThenSet(m: map<string, seq<int>>, c: string, s: seq<int>)
    ensures Touch(m, c)[c := s] == m[c := s]
  {
  }

  /** One window of the cleanup: stale timestamps dropped and emptied clients deleted. */
  function PruneAll(m: map<string, seq<int>>, lo: int): (r: map<string, seq<int>>)
    ensures r.Keys <= m.Keys
    ensures forall c :: c in r ==> r[c] != [] && |r[c]| <= |m[c]|
  {
    map c | c in m && Keep(m[c], lo) != [] :: Keep(m[c], lo)
  }

  /** What a pruned table keeps: every client's recent timestamps, and no empty list. */
  lemma PruneAllKeeps(m: map<string, seq<int>>, lo: int, c: string)
    ensures Stored(PruneAll(m, lo), c) == Keep(Stored(m, c), lo)
    ensures c in PruneAll(m, lo) ==> PruneAll(m, lo)[c] != [] && forall x :: x in PruneAll(m, lo)[c] ==> x > lo
  {
    KeepMembers(Stored(m, c), lo);
  }

  /** The table as `todo`'s clients are still to be pruned. */
  function PrunedExcept(m: map<string, seq<int>>, lo: int, todo: set<string>): map<string, seq<int>> {
    map c | c in m && (c in todo || Keep(m[c], lo) != []) :: if c in todo then m[c] else Keep(m[c], lo)
  }

  /** One loop of `_cleanup_old_requests`, over the clients of a table in any order. */
  method Prune(m: map<string, seq<int>>, lo: int) returns (r: map<string, seq<int>>)
    ensures r == PruneAll(m, lo)
  {
    r := m;
    var todo := m.Keys;
    assert r == PrunedExcept(m, lo, todo);
    while todo != {}
      invariant todo <= m.Keys
      invariant r == PrunedExcept(m, lo, todo)
      decreases |todo|
    {
      var c :| c in todo;
      PruneOne(m, lo, todo, c);
      var kept := Keep(r[c], lo);
      r := r[c := kept];
      if kept == [] {
        r := r - {c};
      }
      todo := todo - {c};
    }
    assert PrunedExcept(m, lo, {}) == PruneAll(m, lo);
  }

  /** Pruning one more client of the table. */
  lemma PruneOne(m: map<string, seq<int>>, lo: int, todo: set<string>, c: string)
    requires c in todo && todo <= m.Keys
    ensures var r := PrunedExcept(m, lo, todo);
      && c in r && r[c] == m[c]
      && PrunedExcept(m, lo, todo - {c}) == (if Keep(m[c], lo) == [] then r[c := Keep(m[c], lo)] - {c} else r[c := Keep(m[c], lo)])
  {
  }

  // ---------------------------------------------------------------------
  // The limiter as a function of its state
  // ---------------------------------------------------------------------

  datatype Windows = Windows(minute: map<string, seq<int>>, hour: map<string, seq<int>>, lastCleanup: int)

  /** The response the middleware gives: the request passed on, or a 429 with a Retry-After header. */
  datatype Verdict = Forward | Reject(status: int, content: string, retryAfter: string)

  datatype Outcome = Outcome(windows: Windows, verdict: Verdict)

  /** `_cleanup_old_requests` at time `now`. */
  function CleanupStep(w: Windows, now: int): (r: Windows)
    ensures r == w || r.lastCleanup == now >= w.lastCleanup + CleanupInterval
    ensures r.minute.Keys <= w.minute.Keys && r.hour.Keys <= w.hour.Keys
  {
    if now - w.lastCleanup < CleanupInterval then w
    else Windows(PruneAll(w.minute, now - MinuteSpan), PruneAll(w.hour, now - HourSpan), now)
  }

  /** The limit check and the recording of `dispatch` for client `c`, on the table the cleanup left. */
  function CheckStep(w: Windows, perMinute: int, perHour: int, c: string, now: int): (o: Outcome)
    ensures o.verdict.Forward? <==>
      |Keep(Stored(w.minute, c), now - MinuteSpan)| < perMinute && |Keep(Stored(w.hour, c), now - HourSpan)| < perHour
    ensures o.verdict.Reject? ==> o.verdict.status == TooManyRequests
    ensures o.windows.lastCleanup == w.lastCleanup
    ensures forall d :: d != c ==> Stored(o.windows.minute, d) == Stored(w.minute, d) && Stored(o.windows.hour, d) == Stored(w.hour, d)
  {
    var recentMinute := Keep(Stored(w.minute, c), now - MinuteSpan);
    if |recentMinute| >= perMinute then
      Outcome(w.(minute := Touch(w.minute, c)), Reject(TooManyRequests, MinuteMessage, "60"))
    else
      var recentHour := Keep(Stored(w.hour, c), now - HourSpan);
      if |recentHour| >= perHour then
        Outcome(w.(minute := Touch(w.minute, c), hour := Touch(w.hour, c)), Reject(TooManyRequests, HourMessage, "3600"))
      else
        Outcome(w.(minute := w.minute[c := recentMinute + [now]], hour := w.hour[c := recentHour + [now]]), Forward)
  }

  /** `dispatch` with the cleanup reading the clock at `cleanupTime` and the check at `now`. */
  function DispatchStep(w: Windows, perMinute: int, perHour: int, req: Request, cleanupTime: int, now: int): (o: Outcome)
    ensures req.path == HealthPath ==> o == Outcome(w, Forward)
    ensures o.verdict.Reject? ==> o.verdict.status == TooManyRequests && (o.verdict.retryAfter == "60" || o.verdict.retryAfter == "3600")
  {
    if req.path == HealthPath then Outcome(w, Forward)
    else CheckStep(CleanupStep(w, cleanupTime), perMinute, perHour, ClientId(req), now)
  }

  /** Within five minutes of the last cleanup nothing is pruned; afterwards every stale timestamp and every emptied client goes. */
  lemma CleanupCases(w: Windows, now: int)
    ensures now - w.lastCleanup < CleanupInterval ==> CleanupStep(w, now) == w
    ensures now - w.lastCleanup >= CleanupInterval ==> CleanupStep(w, now).lastCleanup == now
    ensures now - w.lastCleanup >= CleanupInterval ==> forall c ::
      && Stored(CleanupStep(w, now).minute, c) == Keep(Stored(w.minute, c), now - MinuteSpan)
      && Stored(CleanupStep(w, now).hour, c) == Keep(Stored(w.hour, c), now - HourSpan)
      && (c in CleanupStep(w, now).minute ==> CleanupStep(w, now).minute[c] != [])
      && (c in CleanupStep(w, now).hour ==> CleanupStep(w, now).hour[c] != [])
  {
    if now - w.lastCleanup >= CleanupInterval {
      forall c
        ensures Stored(CleanupStep(w, now).minute, c) == Keep(Stored(w.minute, c), now - MinuteSpan)
        ensures Stored(CleanupStep(w, now).hour, c) == Keep(Stored(w.hour, c), now - HourSpan)
        ensures c in CleanupStep(w, now).minute ==> CleanupStep(w, now).minute[c] != []
        ensures c in CleanupStep(w, now).hour ==> CleanupStep(w, now).hour[c] != []
      {
        PruneAllKeeps(w.minute, now - MinuteSpan, c);
        PruneAllKeeps(w.hour, now - HourSpan, c);
      }
    }
  }

  /** The health check bypasses the limiter; the minute limit is checked before the hour limit. */
  lemma VerdictCases(w: Windows, perMinute: int, perHour: int, req: Request, cleanupTime: int, now: int)
    ensures var cw := CleanupStep(w, cleanupTime);
      var v := DispatchStep(w, perMinute, perHour, req, cleanupTime, now).verdict;
      var recentMinute := |Keep(Stored(cw.minute, ClientId(req)), now - MinuteSpan)|;
      var recentHour := |Keep(Stored(cw.hour, ClientId(req)), now - HourSpan)|;
      && (req.path == HealthPath ==> DispatchStep(w, perMinute, perHour, req, cleanupTime, now) == Outcome(w, Forward))
      && (v == Reject(TooManyRequests, MinuteMessage, "60") <==> req.path != HealthPath && recentMinute >= perMinute)
      && (v == Reject(TooManyRequests, HourMessage, "3600") <==> req.path != HealthPath && recentMinute < perMinute && recentHour >= perHour)
      && (v == Forward <==> req.path == HealthPath || (recentMinute < perMinute && recentHour < perHour))
  {
  }

  /** A rejected request records no timestamp: every list is as the cleanup left it. */
  lemma RejectRecordsNothing(w: Windows, perMinute: int, perHour: int, req: Request, cleanupTime: int, now: int)
    requires DispatchStep(w, perMinute, perHour, req, cleanupTime, now).verdict.Reject?
    ensures forall d :: Stored(DispatchStep(w, perMinute, perHour, req, cleanupTime, now).windows.minute, d) == Stored(CleanupStep(w, cleanupTime).minute, d)
    ensures forall d :: Stored(DispatchStep(w, perMinute, perHour, req, cleanupTime, now).windows.hour, d) == Stored(CleanupStep(w, cleanupTime).hour, d)
    ensures DispatchStep(w, perMinute, perHour, req, cleanupTime, now).windows.lastCleanup == CleanupStep(w, cleanupTime).lastCleanup
  {
  }

  /**
    An accepted request leaves the client's lists as the recent window plus
    `now`, at most `perMinute` and `perHour` long, and no other client's lists change.
   */
  lemma AcceptRecordsNow(w: Windows, perMinute: int, perHour: int, req: Request, cleanupTime: int, now: int)
    requires req.path != HealthPath
    requires DispatchStep(w, perMinute, perHour, req, cleanupTime, now).verdict == Forward
    ensures var cw := CleanupStep(w, cleanupTime);
      var w' := DispatchStep(w, perMinute, perHour, req, cleanupTime, now).windows;
      var c := ClientId(req);
      && Stored(w'.minute, c) == Keep(Stored(cw.minute, c), now - MinuteSpan) + [now]
      && Stored(w'.hour, c) == Keep(Stored(cw.hour, c), now - HourSpan) + [now]
      && |Stored(w'.minute, c)| <= perMinute
      && |Stored(w'.hour, c)| <= perHour
      && (forall d :: d != c ==> Stored(w'.minute, d) == Stored(cw.minute, d) && Stored(w'.hour, d) == Stored(cw.hour, d))
  {
  }

  // ---------------------------------------------------------------------
  // Invariants of the table
  // ---------------------------------------------------------------------

  function Cap(n: int): nat {
    if n < 0 then 0 else n
  }

  /** No stored minute list is longer than the minute limit, and no hour list longer than the hour limit. */
  ghost predicate WithinCaps(w: Windows, perMinute: int, perHour: int) {
    Capped(w.minute, Cap(perMinute)) && Capped(w.hour, Cap(perHour))
  }

  /** Every list of `m` is at most `cap` long. */
  ghost predicate Capped(m: map<string, seq<int>>, cap: nat) {
    forall c :: c in m ==> |m[c]| <= cap
  }

  lemma PruneKeepsCap(m: map<string, seq<int>>, lo: int, cap: nat)
    requires Capped(m, cap)
    ensures Capped(PruneAll(m, lo), cap)
  {
  }

  lemma CleanupKeepsCaps(w: Windows, perMinute: int, perHour: int, now: int)
    requires WithinCaps(w, perMinute, perHour)
    ensures WithinCaps(CleanupStep(w, now), perMinute, perHour)
  {
    PruneKeepsCap(w.minute, now - MinuteSpan, Cap(perMinute));
    PruneKeepsCap(w.hour, now - HourSpan, Cap(perHour));
  }

  lemma StepKeepsCaps(w: Windows, perMinute: int, perHour: int, req: Request, cleanupTime: int, now: int)
    requires WithinCaps(w, perMinute, perHour)
    ensures WithinCaps(DispatchStep(w, perMinute, perHour, req, cleanupTime, now).windows, perMinute, perHour)
  {
    CleanupKeepsCaps(w, perMinute, perHour, cleanupTime);
    CheckKeepsCaps(CleanupStep(w, cleanupTime), perMinute, perHour, ClientId(req), now);
  }

  /**
    The stored lists agree with the log of every accepted request on the
    timestamps newer than `lo`.
   */
  ghost predicate Agree(log: map<string, seq<int>>, m: map<string, seq<int>>, lo: int) {
    forall c {:trigger Keep(Stored(log, c), lo)} :: Keep(Stored(log, c), lo) == Keep(Stored(m, c), lo)
  }

  function Record(log: map<string, seq<int>>, c: string, now: int): map<string, seq<int>> {
    log[c := Stored(log, c) + [now]]
  }

  /** The log of admitted requests after an outcome for client `c` at `now`. */
  function Logged(log: map<string, seq<int>>, o: Outcome, c: string, now: int): map<string, seq<int>> {
    if o.verdict == Forward then Record(log, c, now) else log
  }

  /** Agreement read off for one client. */
  lemma AgreeAt(log: map<string, seq<int>>, m: map<string, seq<int>>, lo: int, c: string)
    requires Agree(log, m, lo)
    ensures Keep(Stored(log, c), lo) == Keep(Stored(m, c), lo)
  {
  }

  lemma AgreeLater(log: map<string, seq<int>>, m: map<string, seq<int>>, a: int, b: int)
    requires a <= b && Agree(log, m, a)
    ensures Agree(log, m, b)
  {
    forall c
      ensures Keep(Stored(log, c), b) == Keep(Stored(m, c), b)
    {
      AgreeAt(log, m, a, c);
      KeepKeep(Stored(log, c), a, b);
      KeepKeep(Stored(m, c), a, b);
    }
  }

  lemma AgreePrune(log: map<string, seq<int>>, m: map<string, seq<int>>, lo: int)
    requires Agree(log, m, lo)
    ensures Agree(log, PruneAll(m, lo), lo)
  {
    forall c
      ensures Keep(Stored(log, c), lo) == Keep(Stored(PruneAll(m, lo), c), lo)
    {
      AgreeAt(log, m, lo, c);
      PruneAllKeeps(m, lo, c);
      KeepKeep(Stored(m, c), lo, lo);
    }
  }

  lemma AgreeRecord(log: map<string, seq<int>>, m: map<string, seq<int>>, lo: int, c: string, now: int)
    requires Agree(log, m, lo) && now > lo
    ensures Agree(Record(log, c, now), m[c := Keep(Stored(m, c), lo) + [now]], lo)
    ensures Keep(Stored(Record(log, c, now), c), lo) == Keep(Stored(m, c), lo) + [now]
  {
    var log' := Record(log, c, now);
    var m' := m[c := Keep(Stored(m, c), lo) + [now]];
    AgreeAt(log, m, lo, c);
    KeepAppend(Stored(log, c), [now], lo);
    KeepAppend(Keep(Stored(m, c), lo), [now], lo);
    KeepKeep(Stored(m, c), lo, lo);
    assert Keep([now], lo) == [now];
    forall d
      ensures Keep(Stored(log', d), lo) == Keep(Stored(m', d), lo)
    {
      if d != c {
        assert Stored(log', d) == Stored(log, d);
        assert Stored(m', d) == Stored(m, d);
        AgreeAt(log, m, lo, d);
      }
    }
  }

  lemma AgreeTouch(log: map<string, seq<int>>, m: map<string, seq<int>>, lo: int, c: string)
    requires Agree(log, m, lo)
    ensures Agree(log, Touch(m, c), lo)
  {
    forall d
      ensures Keep(Stored(log, d), lo) == Keep(Stored(Touch(m, c), d), lo)
    {
      AgreeAt(log, m, lo, d);
      TouchStored(m, c, d);
    }
  }

  lemma CleanupKeepsAgreement(log: map<string, seq<int>>, w: Windows, clock: int, now: int)
    requires clock <= now
    requires Agree(log, w.minute, clock - MinuteSpan) && Agree(log, w.hour, clock - HourSpan)
    ensures Agree(log, CleanupStep(w, now).minute, now - MinuteSpan)
    ensures Agree(log, CleanupStep(w, now).hour, now - HourSpan)
  {
    AgreeLater(log, w.minute, clock - MinuteSpan, now - MinuteSpan);
    AgreeLater(log, w.hour, clock - HourSpan, now - HourSpan);
    if now - w.lastCleanup >= CleanupInterval {
      AgreePrune(log, w.minute, now - MinuteSpan);
      AgreePrune(log, w.hour, now - HourSpan);
    }
  }

  /**
    The sliding-window guarantee for one check. With a clock that never runs
    backwards, the lists keep agreeing with the log of accepted requests, and
    once a request is accepted at `now` the client has at most `perMinute`
    accepted requests in the minute ending at `now` and at most `perHour` in
    the hour ending at `now`.
   */
  lemma CheckKeepsAgreement(log: map<string, seq<int>>, w: Windows, clock: int,
                            perMinute: int, perHour: int, c: string, now: int)
    requires clock <= now
    requires Agree(log, w.minute, clock - MinuteSpan) && Agree(log, w.hour, clock - HourSpan)
    ensures Agree(Logged(log, CheckStep(w, perMinute, perHour, c, now), c, now), CheckStep(w, perMinute, perHour, c, now).windows.minute, now - MinuteSpan)
    ensures Agree(Logged(log, CheckStep(w, perMinute, perHour, c, now), c, now), CheckStep(w, perMinute, perHour, c, now).windows.hour, now - HourSpan)
    ensures CheckStep(w, perMinute, perHour, c, now).verdict == Forward ==>
      |Keep(Stored(Record(log, c, now), c), now - MinuteSpan)| <= perMinute
      && |Keep(Stored(Record(log, c, now), c), now - HourSpan)| <= perHour
  {
    AgreeLater(log, w.minute, clock - MinuteSpan, now - MinuteSpan);
    AgreeLater(log, w.hour, clock - HourSpan, now - HourSpan);
    var o := CheckStep(w, perMinute, perHour, c, now);
    if o.verdict == Forward {
      AgreeRecord(log, w.minute, now - MinuteSpan, c, now);
      AgreeRecord(log, w.hour, now - HourSpan, c, now);
    } else {
      AgreeTouch(log, w.minute, now - MinuteSpan, c);
      AgreeTouch(log, w.hour, now - HourSpan, c);
    }
  }

  lemma CheckKeepsCaps(w: Windows, perMinute: int, perHour: int, c: string, now: int)
    requires WithinCaps(w, perMinute, perHour)
    ensures WithinCaps(CheckStep(w, perMinute, perHour, c, now).windows, perMinute, perHour)
  {
  }

  // ---------------------------------------------------------------------
  // Runs of requests
  // ---------------------------------------------------------------------

  /** One request reaching the middleware, with the two clock readings it makes. */
  datatype Tick = Tick(req: Request, cleanupTime: int, now: int)

  function Prefix(ticks: seq<Tick>): seq<Tick>
    requires ticks != []
  {
    ticks[..|ticks| - 1]
  }

  function Last(ticks: seq<Tick>): Tick
    requires ticks != []
  {
    ticks[|ticks| - 1]
  }

  /** The table after the requests `ticks`, starting from `w`. */
  function Run(w: Windows, perMinute: int, perHour: int, ticks: seq<Tick>): Windows
    decreases |ticks|
  {
    if ticks == [] then w
    else
      var t := Last(ticks);
      DispatchStep(Run(w, perMinute, perHour, Prefix(ticks)), perMinute, perHour, t.req, t.cleanupTime, t.now).windows
  }

  /** Whether the last of `ticks` was passed on by the limiter rather than bypassing it. */
  predicate AdmittedLast(w: Windows, perMinute: int, perHour: int, ticks: seq<Tick>)
    requires ticks != []
  {
    var t := Last(ticks);
    t.req.path != HealthPath
    && DispatchStep(Run(w, perMinute, perHour, Prefix(ticks)), perMinute, perHour, t.req, t.cleanupTime, t.now).verdict == Forward
  }

  /** The log of admitted requests after the request `t` reaches the table `w`. */
  function Admit(log: map<string, seq<int>>, w: Windows, perMinute: int, perHour: int, t: Tick): map<string, seq<int>> {
    if t.req.path != HealthPath && DispatchStep(w, perMinute, perHour, t.req, t.cleanupTime, t.now).verdict == Forward
    then Record(log, ClientId(t.req), t.now)
    else log
  }

  /** The times of the admitted requests among `ticks`, per client, in order. */
  function Admitted(w: Windows, perMinute: int, perHour: int, ticks: seq<Tick>): map<string, seq<int>>
    decreases |ticks|
  {
    if ticks == [] then map[]
    else Admit(Admitted(w, perMinute, perHour, Prefix(ticks)), Run(w, perMinute, perHour, Prefix(ticks)), perMinute, perHour, Last(ticks))
  }

  function LastTime(start: int, ticks: seq<Tick>): int {
    if ticks == [] then start else Last(ticks).now
  }

  /** The clock never runs backwards: each request reads it for the cleanup and then for the check. */
  predicate Ordered(start: int, ticks: seq<Tick>)
    decreases |ticks|
  {
    ticks == [] ||
    (Ordered(start, Prefix(ticks)) && LastTime(start, Prefix(ticks)) <= Last(ticks).cleanupTime <= Last(ticks).now)
  }

  /** The two tables agree with the log `log` on the windows ending at `clock`. */
  ghost predicate InAgreement(log: map<string, seq<int>>, w: Windows, clock: int) {
    Agree(log, w.minute, clock - MinuteSpan) && Agree(log, w.hour, clock - HourSpan)
  }

  /** Along an ordered run, the stored lists agree with the admitted requests on the current windows. */
  lemma {:induction false} RunAgrees(w: Windows, perMinute: int, perHour: int, start: int, ticks: seq<Tick>)
    requires InAgreement(map[], w, start)
    requires Ordered(start, ticks)
    ensures InAgreement(Admitted(w, perMinute, perHour, ticks), Run(w, perMinute, perHour, ticks), LastTime(start, ticks))
    decreases |ticks|
  {
    if ticks != [] {
      RunAgrees(w, perMinute, perHour, start, Prefix(ticks));
      RunStepAgrees(w, perMinute, perHour, start, ticks);
    }
  }

  lemma RunStepAgrees(w: Windows, perMinute: int, perHour: int, start: int, ticks: seq<Tick>)
    requires ticks != [] && Ordered(start, ticks)
    requires InAgreement(Admitted(w, perMinute, perHour, Prefix(ticks)), Run(w, perMinute, perHour, Prefix(ticks)), LastTime(start, Prefix(ticks)))
    ensures InAgreement(Admitted(w, perMinute, perHour, ticks), Run(w, perMinute, perHour, ticks), LastTime(start, ticks))
  {
    var prev := Prefix(ticks);
    RunLast(w, perMinute, perHour, start, ticks);
    TickKeepsAgreement(Admitted(w, perMinute, perHour, prev), Run(w, perMinute, perHour, prev), LastTime(start, prev),
                       perMinute, perHour, Last(ticks), Admitted(w, perMinute, perHour, ticks), Run(w, perMinute, perHour, ticks));
  }

  /** A run's last request, unfolded. */
  lemma RunLast(w: Windows, perMinute: int, perHour: int, start: int, ticks: seq<Tick>)
    requires ticks != [] && Ordered(start, ticks)
    ensures Run(w, perMinute, perHour, ticks)
         == DispatchStep(Run(w, perMinute, perHour, Prefix(ticks)), perMinute, perHour, Last(ticks).req, Last(ticks).cleanupTime, Last(ticks).now).windows
    ensures Admitted(w, perMinute, perHour, ticks)
         == Admit(Admitted(w, perMinute, perHour, Prefix(ticks)), Run(w, perMinute, perHour, Prefix(ticks)), perMinute, perHour, Last(ticks))
    ensures LastTime(start, Prefix(ticks)) <= Last(ticks).cleanupTime <= Last(ticks).now
    ensures LastTime(start, ticks) == Last(ticks).now
  {
  }

  /** One request, through the limiter or past it, keeps the lists in agreement with the admitted requests. */
  lemma TickKeepsAgreement(log: map<string, seq<int>>, w: Windows, clock: int, perMinute: int, perHour: int, t: Tick,
                            log': map<string, seq<int>>, w': Windows)
    requires clock <= t.cleanupTime <= t.now
    requires InAgreement(log, w, clock)
    requires log' == Admit(log, w, perMinute, perHour, t)
    requires w' == DispatchStep(w, perMinute, perHour, t.req, t.cleanupTime, t.now).windows
    ensures InAgreement(log', w', t.now)
  {
    if t.req.path == HealthPath {
      AgreeLater(log, w.minute, clock - MinuteSpan, t.now - MinuteSpan);
      AgreeLater(log, w.hour, clock - HourSpan, t.now - HourSpan);
    } else {
      DispatchKeepsAgreement(log, w, clock, perMinute, perHour, t);
    }
  }

  lemma CheckAgreement(log: map<string, seq<int>>, cw: Windows, perMinute: int, perHour: int, t: Tick)
    requires t.cleanupTime <= t.now
    requires Agree(log, cw.minute, t.cleanupTime - MinuteSpan) && Agree(log, cw.hour, t.cleanupTime - HourSpan)
    ensures Agree(Logged(log, CheckStep(cw, perMinute, perHour, ClientId(t.req), t.now), ClientId(t.req), t.now),
                  CheckStep(cw, perMinute, perHour, ClientId(t.req), t.now).windows.minute, t.now - MinuteSpan)
    ensures Agree(Logged(log, CheckStep(cw, perMinute, perHour, ClientId(t.req), t.now), ClientId(t.req), t.now),
                  CheckStep(cw, perMinute, perHour, ClientId(t.req), t.now).windows.hour, t.now - HourSpan)
    ensures CheckStep(cw, perMinute, perHour, ClientId(t.req), t.now).verdict == Forward ==>
      |Keep(Stored(Record(log, ClientId(t.req), t.now), ClientId(t.req)), t.now - MinuteSpan)| <= perMinute
      && |Keep(Stored(Record(log, ClientId(t.req), t.now), ClientId(t.req)), t.now - HourSpan)| <= perHour
  {
    CheckKeepsAgreement(log, cw, t.cleanupTime, perMinute, perHour, ClientId(t.req), t.now);
  }

  lemma DispatchIsCheck(w: Windows, perMinute: int, perHour: int, t: Tick)
    requires t.req.path != HealthPath
    ensures DispatchStep(w, perMinute, perHour, t.req, t.cleanupTime, t.now)
         == CheckStep(CleanupStep(w, t.cleanupTime), perMinute, perHour, ClientId(t.req), t.now)
  {
  }

  /** One request through the limiter keeps the lists in agreement with the admitted requests. */
  lemma DispatchKeepsAgreement(log: map<string, seq<int>>, w: Windows, clock: int, perMinute: int, perHour: int, t: Tick)
    requires t.req.path != HealthPath
    requires clock <= t.cleanupTime <= t.now
    requires Agree(log, w.minute, clock - MinuteSpan) && Agree(log, w.hour, clock - HourSpan)
    ensures Agree(Logged(log, DispatchStep(w, perMinute, perHour, t.req, t.cleanupTime, t.now), ClientId(t.req), t.now),
                  DispatchStep(w, perMinute, perHour, t.req, t.cleanupTime, t.now).windows.minute, t.now - MinuteSpan)
    ensures Agree(Logged(log, DispatchStep(w, perMinute, perHour, t.req, t.cleanupTime, t.now), ClientId(t.req), t.now),
                  DispatchStep(w, perMinute, perHour, t.req, t.cleanupTime, t.now).windows.hour, t.now - HourSpan)
    ensures DispatchStep(w, perMinute, perHour, t.req, t.cleanupTime, t.now).verdict == Forward ==>
      |Keep(Stored(Record(log, ClientId(t.req), t.now), ClientId(t.req)), t.now - MinuteSpan)| <= perMinute
      && |Keep(Stored(Record(log, ClientId(t.req), t.now), ClientId(t.req)), t.now - HourSpan)| <= perHour
  {
    var cw := CleanupStep(w, t.cleanupTime);
    CleanupKeepsAgreement(log, w, clock, t.cleanupTime);
    DispatchIsCheck(w, perMinute, perHour, t);
    CheckAgreement(log, cw, perMinute, perHour, t);
  }

  /**
    The sliding-window guarantee. From an empty table and along a clock that
    never runs backwards, whenever a client's request is admitted at time
    `now`, that client has had at most `perMinute` requests admitted in the
    minute ending at `now` and at most `perHour` in the hour ending at `now`.
   */
  lemma SlidingWindow(start: int, perMinute: int, perHour: int, ticks: seq<Tick>)
    requires Ordered(start, ticks) && ticks != []
    requires AdmittedLast(Windows(map[], map[], start), perMinute, perHour, ticks)
    ensures WithinLimits(Admitted(Windows(map[], map[], start), perMinute, perHour, ticks), Last(ticks), perMinute, perHour)
  {
    var w := Windows(map[], map[], start);
    EmptyAgreement(start);
    LastAdmittedBound(w, start, perMinute, perHour, ticks, Last(ticks), Admitted(w, perMinute, perHour, ticks));
  }

  /** The bound for the last request of an ordered run from a table that agrees with an empty log. */
  lemma LastAdmittedBound(w: Windows, start: int, perMinute: int, perHour: int, ticks: seq<Tick>, t: Tick, admitted: map<string, seq<int>>)
    requires Ordered(start, ticks) && ticks != [] && t == Last(ticks)
    requires InAgreement(map[], w, start)
    requires AdmittedLast(w, perMinute, perHour, ticks)
    requires admitted == Admitted(w, perMinute, perHour, ticks)
    ensures WithinLimits(admitted, t, perMinute, perHour)
  {
    var prev := Prefix(ticks);
    RunLast(w, perMinute, perHour, start, ticks);
    RunAgrees(w, perMinute, perHour, start, prev);
    AdmittedBound(Admitted(w, perMinute, perHour, prev), Run(w, perMinute, perHour, prev), LastTime(start, prev),
                  perMinute, perHour, t, admitted);
  }

  /** In the log `admitted`, the client of `t` has at most `perMinute` requests in the minute and at most `perHour` in the hour ending at `t.now`. */
  predicate WithinLimits(admitted: map<string, seq<int>>, t: Tick, perMinute: int, perHour: int) {
    && |Keep(Stored(admitted, ClientId(t.req)), t.now - MinuteSpan)| <= perMinute
    && |Keep(Stored(admitted, ClientId(t.req)), t.now - HourSpan)| <= perHour
  }

  /** The bound for one admitted request, given agreement before it. */
  lemma AdmittedBound(log: map<string, seq<int>>, w: Windows, clock: int, perMinute: int, perHour: int, t: Tick,
                      admitted: map<string, seq<int>>)
    requires t.req.path != HealthPath && clock <= t.cleanupTime <= t.now
    requires InAgreement(log, w, clock)
    requires DispatchStep(w, perMinute, perHour, t.req, t.cleanupTime, t.now).verdict == Forward
    requires admitted == Admit(log, w, perMinute, perHour, t)
    ensures |Keep(Stored(admitted, ClientId(t.req)), t.now - MinuteSpan)| <= perMinute
    ensures |Keep(Stored(admitted, ClientId(t.req)), t.now - HourSpan)| <= perHour
  {
    DispatchKeepsAgreement(log, w, clock, perMinute, perHour, t);
  }

  /** An empty table agrees with an empty log. */
  lemma EmptyAgreement(clock: int)
    ensures InAgreement(map[], Windows(map[], map[], clock), clock)
  {
  }

  // ---------------------------------------------------------------------
  // The middleware object
  // ---------------------------------------------------------------------

  /** `RateLimitMiddleware`: the two tables and the time of the last cleanup. */
  class RateLimiter {
    const requestsPerMinute: int
    const requestsPerHour: int
    var minuteRequests: map<string, seq<int>>
    var hourRequests: map<string, seq<int>>
    var lastCleanup: int

    function State(): Windows
      reads this
    {
      Windows(minuteRequests, hourRequests, lastCleanup)
    }

    ghost predicate Valid()
      reads this
    {
      WithinCaps(State(), requestsPerMinute, requestsPerHour)
    }

    /** A new limiter whose clock read `start` when it was built. */
    constructor(perMinute: int, perHour: int, start: int)
      ensures Valid()
      ensures requestsPerMinute == perMinute && requestsPerHour == perHour
      ensures State() == Windows(map[], map[], start)
    {
      requestsPerMinute := perMinute;
      requestsPerHour := perHour;
      minuteRequests := map[];
      hourRequests := map[];
      lastCleanup := start;
    }

    /** `_cleanup_old_requests`, with the clock reading `now`. */
    method Cleanup(now: int)
      modifies this
      requires Valid()
      ensures Valid()
      ensures State() == CleanupStep(old(State()), now)
    {
      if now - lastCleanup < CleanupInterval {
        return;
      }
      var minuteAgo := now - MinuteSpan;
      var hourAgo := now - HourSpan;
      PruneKeepsCap(minuteRequests, minuteAgo, Cap(requestsPerMinute));
      PruneKeepsCap(hourRequests, hourAgo, Cap(requestsPerHour));
      minuteRequests := Prune(minuteRequests, minuteAgo);
      hourRequests := Prune(hourRequests, hourAgo);
      lastCleanup := now;
    }

    /** `dispatch`, with the cleanup reading the clock at `cleanupTime` and the check at `now`. */
    method Dispatch(req: Request, cleanupTime: int, now: int) returns (v: Verdict)
      modifies this
      requires Valid()
      ensures Valid()
      ensures Outcome(State(), v) == DispatchStep(old(State()), requestsPerMinute, requestsPerHour, req, cleanupTime, now)
    {
      if req.path == HealthPath {
        return Forward;
      }
      Cleanup(cleanupTime);
      var clientId := ClientId(req);
      ghost var w0 := State();
      CheckKeepsCaps(w0, requestsPerMinute, requestsPerHour, clientId, now);

      minuteRequests := Touch(minuteRequests, clientId);
      var minuteList := Keep(minuteRequests[clientId], now - MinuteSpan);
      TouchStored(w0.minute, clientId, clientId);
      if |minuteList| >= requestsPerMinute {
        return Reject(TooManyRequests, MinuteMessage, "60");
      }
      hourRequests := Touch(hourRequests, clientId);
      var hourList := Keep(hourRequests[clientId], now - HourSpan);
      TouchStored(w0.hour, clientId, clientId);
      if |hourList| >= requestsPerHour {
        return Reject(TooManyRequests, HourMessage, "3600");
      }
      minuteList := minuteList + [now];
      hourList := hourList + [now];
      TouchThenSet(w0.minute, clientId, minuteList);
      TouchThenSet(w0.hour, clientId, hourList);
      minuteRequests := minuteRequests[clientId := minuteList];
      hourRequests := hourRequests[clientId := hourList];
      v := Forward;
    }
  }
}
