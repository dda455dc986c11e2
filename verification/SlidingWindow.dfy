/** The tool-call limiter of the MCP server: a deque of call times that stands for a
    count over the history of accepted calls. */
module SlidingWindow {
  import opened Prelude

  const WINDOW: real := 60.0

  ghost predicate Ascending(h: seq<real>) {
    forall i, j | 0 <= i < j < |h| :: h[i] <= h[j]
  }

  /** The half-open windows (now - 60, now] and [from, from + 60). */
  datatype Window = Ending(now: real) | Starting(from: real) {
    predicate Has(t: real) {
      match this
      case Ending(now) => now - WINDOW < t <= now
      case Starting(from) => from <= t < from + WINDOW
    }
  }

  ghost function Count(h: seq<real>, w: Window): nat {
    if h == [] then 0 else Count(h[..|h| - 1], w) + if w.Has(h[|h| - 1]) then 1 else 0
  }

  /** The calls of the history in the minute up to now. */
  ghost function Recent(h: seq<real>, now: real): nat {
    Count(h, Ending(now))
  }

  /** When all that lies before a cut has left the window and the rest has not. */
  lemma {:induction false} RecentIsSuffix(h: seq<real>, cut: nat, now: real)
    requires cut <= |h| && forall i | 0 <= i < cut :: now - h[i] >= WINDOW
    requires forall i | cut <= i < |h| :: now - h[i] < WINDOW && h[i] <= now
    ensures Recent(h, now) == |h| - cut
  {
    if h != [] {
      RecentIsSuffix(h[..|h| - 1], if cut == |h| then cut - 1 else cut, now);
    }
  }

  /** Any `limit` + 1 consecutive accepted calls span at least a window. */
  ghost predicate Spaced(h: seq<real>, limit: nat) {
    forall i, j | 0 <= i && j == i + limit && j < |h| :: h[j] - h[i] >= WINDOW
  }

  /** The calls in a window lie between its first and its last. */
  lemma {:induction false} HitsSpan(h: seq<real>, w: Window) returns (i: nat, j: nat)
    requires Count(h, w) > 0
    ensures i <= j < |h| && w.Has(h[i]) && w.Has(h[j]) && Count(h, w) <= j - i + 1
  {
    var init := h[..|h| - 1];
    if Count(init, w) > 0 {
      i, j := HitsSpan(init, w);
      j := if w.Has(h[|h| - 1]) then |h| - 1 else j;
    } else {
      i, j := |h| - 1, |h| - 1;
    }
  }

  lemma SpacedApart(h: seq<real>, limit: nat, i: nat, j: nat)
    requires Ascending(h) && Spaced(h, limit) && i + limit <= j < |h|
    ensures h[j] - h[i] >= WINDOW
  {
    assert h[i + limit] - h[i] >= WINDOW;
  }

  /** In a spaced history no half-open window of a minute exceeds the limit. */
  lemma SpacedWindows(h: seq<real>, limit: nat, w: Window)
    requires Ascending(h) && Spaced(h, limit) && limit > 0
    ensures Count(h, w) <= limit
  {
    if Count(h, w) > limit {
      var i, j := HitsSpan(h, w);
      SpacedApart(h, limit, i, j);
    }
  }

  /** The deque is a suffix of the accepted calls that misses none of the last minute. */
  ghost predicate Tracks(deque: seq<real>, h: seq<real>, now: real) {
    && |deque| <= |h| && deque == h[|h| - |deque|..]
    && forall i | 0 <= i < |h| - |deque| :: now - h[i] >= WINDOW
  }

  /** The history is in order, all in the past, and respects the limit. */
  ghost predicate History(h: seq<real>, now: real, limit: int) {
    Ascending(h) && (forall i | 0 <= i < |h| :: h[i] <= now) && (limit > 0 ==> Spaced(h, limit))
  }

  lemma TimePasses(deque: seq<real>, h: seq<real>, before: real, now: real, limit: int)
    requires Tracks(deque, h, before) && History(h, before, limit) && before <= now
    ensures Tracks(deque, h, now) && History(h, now, limit)
  {
  }

  lemma PopOld(deque: seq<real>, h: seq<real>, now: real)
    requires Tracks(deque, h, now) && deque != [] && now - deque[0] >= WINDOW
    ensures Tracks(deque[1..], h, now)
  {
    assert h[|h| - |deque|] == deque[0];
  }

  /** Once the old calls are popped, the length of the deque is the count. */
  lemma PoppedCounts(deque: seq<real>, h: seq<real>, now: real, limit: int)
    requires Tracks(deque, h, now) && History(h, now, limit) && (deque != [] ==> now - deque[0] < WINDOW)
    ensures |deque| == Recent(h, now)
  {
    var cut := |h| - |deque|;
    forall i | cut <= i < |h| ensures now - h[i] < WINDOW && h[i] <= now {
      assert h[i] == deque[i - cut] && h[cut] == deque[0];
    }
    RecentIsSuffix(h, cut, now);
  }

  lemma AcceptTracks(deque: seq<real>, h: seq<real>, now: real)
    requires Tracks(deque, h, now)
    ensures Tracks(deque + [now], h + [now], now) && Recent(h + [now], now) == Recent(h, now) + 1
  {
    assert (h + [now])[..|h|] == h;
  }

  lemma AcceptKeepsHistory(deque: seq<real>, h: seq<real>, now: real, limit: int)
    requires Tracks(deque, h, now) && History(h, now, limit) && |deque| < limit
    ensures History(h + [now], now, limit)
  {
  }

  const FORBIDDEN_TOOLS: set<string> := {"triage_finding", "validate_finding", "refute_finding"}

  const SUPPORTED_VERSIONS: seq<string> := ["2025-06-18", "2024-11-05"]

  datatype Response = NotInitialized | HumanOnly | UnknownTool | BadArguments | LimitExceeded(perMinute: int) | Handled

  class McpServer {
    const handlers: set<string>
    const limit: int  // tool calls per minute; no limiting unless positive
    var initialized: bool
    var protocolVersion: Option<string>
    var callTimes: seq<real>
    ghost var accepted: seq<real>  // all calls the limiter let through
    ghost var latest: real         // the last time it looked at the clock

    ghost predicate Valid()
      reads this
    {
      Tracks(callTimes, accepted, latest) && History(accepted, latest, limit)
    }

    constructor (handlers: set<string>, limit: int, now: real)
      ensures Valid() && this.handlers == handlers && this.limit == limit
      ensures !initialized && protocolVersion == None && callTimes == [] && accepted == [] && latest == now
    {
      this.handlers := handlers;
      this.limit := limit;
      initialized := false;
      protocolVersion := None;
      callTimes := [];
      accepted := [];
      latest := now;
    }

    method RateLimited(now: real) returns (blocked: bool)
      requires Valid() && now >= latest
      modifies `callTimes, `accepted, `latest
      ensures Valid()
      ensures limit <= 0 ==> !blocked && callTimes == old(callTimes) && accepted == old(accepted) && latest == old(latest)
      ensures limit > 0 ==> latest == now && (blocked <==> Recent(old(accepted), now) >= limit)
      ensures limit > 0 ==> accepted == if blocked then old(accepted) else old(accepted) + [now]
      ensures limit > 0 ==> |callTimes| == Recent(accepted, now)
    {
      if limit <= 0 {
        return false;
      }
      TimePasses(callTimes, accepted, latest, now, limit);
      latest := now;
      PopExpired(now, accepted);
      PoppedCounts(callTimes, accepted, now, limit);
      if |callTimes| >= limit {
        return true;
      }
      Accept(now);
      return false;
    }

    /** The loop over calls that are a minute old or older. */
    method PopExpired(now: real, ghost h: seq<real>)
      requires Tracks(callTimes, h, now)
      modifies `callTimes
      ensures Tracks(callTimes, h, now) && (callTimes != [] ==> now - callTimes[0] < WINDOW)
    {
      while callTimes != [] && now - callTimes[0] >= WINDOW
        modifies `callTimes
        invariant Tracks(callTimes, h, now)
        decreases |callTimes|
      {
        PopOld(callTimes, h, now);
        callTimes := callTimes[1..];
      }
    }

    method Accept(now: real)
      requires Valid() && now == latest && |callTimes| < limit
      modifies `callTimes, `accepted
      ensures Valid() && accepted == old(accepted) + [now] && |callTimes| == |old(callTimes)| + 1
      ensures Recent(accepted, now) == Recent(old(accepted), now) + 1
    {
      AcceptTracks(callTimes, accepted, now);
      AcceptKeepsHistory(callTimes, accepted, now, limit);
      callTimes := callTimes + [now];
      accepted := accepted + [now];
    }

    method OnInitialize(requested: string) returns (version: string)
      modifies `initialized, `protocolVersion
      ensures initialized && protocolVersion == Some(version)
      ensures version == if requested in SUPPORTED_VERSIONS then requested else "2025-06-18"
    {
      version := if requested in SUPPORTED_VERSIONS then requested else SUPPORTED_VERSIONS[0];
      protocolVersion := Some(version);
      initialized := true;
    }

    /** A `tools/call` request. Only a call that reaches its handler, however that
        ends, uses up the budget. */
    method ToolsCall(name: string, argumentsOk: bool, now: real) returns (r: Response)
      requires Valid() && now >= latest
      modifies `callTimes, `accepted, `latest
      ensures Valid()
      ensures r == NotInitialized <==> !initialized
      ensures r == HumanOnly <==> initialized && name in FORBIDDEN_TOOLS
      ensures r == UnknownTool <==> initialized && name !in FORBIDDEN_TOOLS && name !in handlers
      ensures r == BadArguments <==> initialized && name in handlers - FORBIDDEN_TOOLS && !argumentsOk
      ensures r == LimitExceeded(limit) <==>
              initialized && name in handlers - FORBIDDEN_TOOLS && argumentsOk &&
              0 < limit <= Recent(old(accepted), now)
      ensures r != LimitExceeded(limit) ==> !r.LimitExceeded?
      ensures accepted == if r == Handled && limit > 0 then old(accepted) + [now] else old(accepted)
    {
      if !initialized {
        return NotInitialized;
      }
      if name in FORBIDDEN_TOOLS {
        return HumanOnly;
      }
      if name !in handlers {
        return UnknownTool;
      }
      if !argumentsOk {
        return BadArguments;
      }
      var blocked := RateLimited(now);
      if blocked {
        return LimitExceeded(limit);
      }
      return Handled;
    }
  }
}
