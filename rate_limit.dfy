/** The demo rate limiter and body-size check of the server
    (app/lib/rateLimit.js): a fixed window of 60 seconds allowing 10
    requests per client address, kept in an in-memory map. The clock is a
    parameter. */
module RateLimit {
  import opened Wrappers
  import opened Text

  const WindowMs: int := 60 * 1000
  const MaxRequests: nat := 10
  const MaxBodySize: int := 100 * 1024

  /** One client's window: requests counted so far and when it ends. */
  datatype Entry = Entry(count: nat, resetAt: int)

  /** What `checkRateLimit` answers; `resetAt` is in milliseconds. */
  datatype Verdict = Verdict(limited: bool, remaining: int, resetAt: int)

  type Counts = map<string, Entry>

  /** The client key: the first comma-separated entry of `x-forwarded-for`,
      trimmed, or "unknown" when the header is absent or empty. */
  function ClientKey(forwarded: Option<string>): string {
    if forwarded.None? || forwarded.value == "" then "unknown"
    else Trim(Split(forwarded.value, ',')[0])
  }

  /** The map and the verdict after one request from `key` at time `now`. */
  function Check(counts: Counts, key: string, now: int): (Counts, Verdict) {
    var live := if key in counts && counts[key].resetAt <= now then counts - {key} else counts;
    if key !in live then
      (live[key := Entry(1, now + WindowMs)], Verdict(false, MaxRequests - 1, now + WindowMs))
    else if live[key].count >= MaxRequests then
      (live, Verdict(true, 0, live[key].resetAt))
    else
      var e := live[key];
      (live[key := e.(count := e.count + 1)], Verdict(false, MaxRequests - (e.count + 1), e.resetAt))
  }

  /** Every stored window has counted between 1 and 10 requests. */
  predicate CountsValid(counts: Counts) {
    forall k :: k in counts ==> 1 <= counts[k].count <= MaxRequests
  }

  /** A request keeps every window within 1..10 requests; it is refused
      exactly when the client's window is still open and already full, and
      then nothing is counted; otherwise the count grows by one, or a new
      window of one request opens, and `remaining` is what is left. */
  lemma CheckBounds(counts: Counts, key: string, now: int)
    requires CountsValid(counts)
    ensures var (next, v) := Check(counts, key, now);
            var open := key in counts && counts[key].resetAt > now;
            && CountsValid(next)
            && key in next
            && (v.limited <==> open && counts[key].count >= MaxRequests)
            && (v.limited ==> next == counts && v.remaining == 0)
            && (!v.limited && open ==> next[key] == counts[key].(count := counts[key].count + 1))
            && (!open ==> next[key] == Entry(1, now + WindowMs))
            && (!v.limited ==> v.remaining == MaxRequests - next[key].count)
            && 0 <= v.remaining < MaxRequests
  {
  }

  /** Only the requesting client's entry is touched. */
  lemma CheckTouchesOnlyKey(counts: Counts, key: string, now: int, other: string)
    requires other != key
    ensures var next := Check(counts, key, now).0;
            (other in next <==> other in counts) && (other in counts ==> next[other] == counts[other])
  {
  }

  /** A window that has ended is forgotten: the next request starts a new
      one. */
  lemma ExpiredWindowRestarts(counts: Counts, key: string, now: int)
    requires key in counts && counts[key].resetAt <= now
    ensures Check(counts, key, now).1 == Verdict(false, MaxRequests - 1, now + WindowMs)
  {
  }

  /** Requests from `key` at `times`, in turn. */
  function Run(counts: Counts, key: string, times: seq<int>): (Counts, seq<Verdict>)
    decreases |times|
  {
    if times == [] then (counts, [])
    else
      var (next, v) := Check(counts, key, times[0]);
      var (last, vs) := Run(next, key, times[1..]);
      (last, [v] + vs)
  }

  function Admitted(vs: seq<Verdict>): nat {
    if vs == [] then 0 else (if vs[0].limited then 0 else 1) + Admitted(vs[1..])
  }

  /** While a window is open, it admits no more requests than it has room
      for. */
  lemma {:induction false} OpenWindowCap(counts: Counts, key: string, times: seq<int>)
    requires key in counts && 1 <= counts[key].count <= MaxRequests
    requires forall i :: 0 <= i < |times| ==> times[i] < counts[key].resetAt
    ensures Admitted(Run(counts, key, times).1) <= MaxRequests - counts[key].count
    decreases |times|
  {
    if times != [] {
      var (next, v) := Check(counts, key, times[0]);
      assert next[key].resetAt == counts[key].resetAt;
      OpenWindowCap(next, key, times[1..]);
    }
  }

  /** At most 10 requests from one client are admitted in the 60 seconds
      after a window opens. */
  lemma AtMostTenPerWindow(counts: Counts, key: string, start: int, later: seq<int>)
    requires key !in counts || counts[key].resetAt <= start
    requires forall i :: 0 <= i < |later| ==> later[i] < start + WindowMs
    ensures Admitted(Run(counts, key, [start] + later).1) <= MaxRequests
  {
    var times := [start] + later;
    assert times[1..] == later;
    var next := Check(counts, key, start).0;
    OpenWindowCap(next, key, later);
  }

  /** The key for `ip, rest` is the trimmed `ip`, and a missing header counts
      as the client "unknown". */
  lemma ClientKeyFirstEntry(ip: string, rest: string)
    requires ',' !in ip
    ensures ClientKey(Some(ip + "," + rest)) == Trim(ip)
    ensures ClientKey(None) == "unknown"
  {
    var h := ip + "," + rest;
    assert h[|ip|] == ',';
    assert h[..|ip|] == ip;
    assert IndexOf(h, ',') == |ip|;
  }

  /** The in-memory store of `checkRateLimit`. */
  class RateLimiter {
    var requestCounts: Counts

    constructor ()
      ensures requestCounts == map[]
    {
      requestCounts := map[];
    }

    /** `checkRateLimit`, for the request's `x-forwarded-for` header at time
        `now`. */
    method CheckRateLimit(forwarded: Option<string>, now: int) returns (v: Verdict)
      modifies this
      ensures (requestCounts, v) == Check(old(requestCounts), ClientKey(forwarded), now)
    {
      var ip := if forwarded.Some? && forwarded.value != "" then Trim(Split(forwarded.value, ',')[0]) else "unknown";
      if ip in requestCounts && requestCounts[ip].resetAt <= now {
        requestCounts := requestCounts - {ip};
      }
      if ip !in requestCounts {
        requestCounts := requestCounts[ip := Entry(1, now + WindowMs)];
        return Verdict(false, MaxRequests - 1, now + WindowMs);
      }
      var current := requestCounts[ip];
      if current.count >= MaxRequests {
        return Verdict(true, 0, current.resetAt);
      }
      requestCounts := requestCounts[ip := current.(count := current.count + 1)];
      return Verdict(false, MaxRequests - (current.count + 1), current.resetAt);
    }
  }

  /** What `checkBodySize` answers. */
  datatype BodyCheck = BodyCheck(oversized: bool, size: int)

  /** `checkBodySize` for the `content-length` header. */
  function CheckBodySize(contentLength: Option<string>): (r: BodyCheck)
  {
    if contentLength.None? || contentLength.value == "" then BodyCheck(false, 0)
    else
      match ParseInt(contentLength.value, true)
      case None => BodyCheck(false, 0)
      case Some(size) => BodyCheck(size > MaxBodySize, size)
  }

  /** A body is refused only for a header that reads as a number above
      100 KiB; a missing, empty or non-numeric header passes with size 0. */
  lemma BodySizeRule(contentLength: Option<string>)
    ensures var r := CheckBodySize(contentLength);
            && (r.oversized <==>
                  contentLength.Some? && contentLength.value != ""
                  && ParseInt(contentLength.value, true).Some?
                  && ParseInt(contentLength.value, true).value > 102400)
            && (contentLength.None? || ParseInt(contentLength.value, true).None? ==> r == BodyCheck(false, 0))
  {
    if contentLength.Some? && contentLength.value == "" {
      assert TrimStart("") == "";
    }
  }
}
