/**
 * The stream connection guard of background.js: `connectToStream`, the `onerror` handler, the
 * 5-second reconnect timer and the keep-alive alarm, over the module variable `eventSource`.
 *
 * The state records every EventSource the script has created (in creation order, with its
 * `readyState`), which of them `eventSource` holds, and how many reconnect timers are pending.
 * Keeping the closed ones lets the model state that at most one connection is ever live.
 */
module Stream {
  import opened Wrappers

  /** `EventSource.readyState`: CONNECTING (0), OPEN (1), CLOSED (2). */
  datatype ReadyState = Connecting | Open | Closed

  datatype Conn = Conn(sources: seq<ReadyState>, current: Option<nat>, pendingReconnects: nat)

  predicate Live(st: ReadyState) {
    st != Closed
  }

  predicate CurrentInRange(c: Conn) {
    c.current.Some? ==> c.current.value < |c.sources|
  }

  /** Every live source is the one `eventSource` holds. */
  ghost predicate Valid(c: Conn) {
    && CurrentInRange(c)
    && forall i :: 0 <= i < |c.sources| && Live(c.sources[i]) ==> c.current == Some(i)
  }

  /** `!eventSource || eventSource.readyState === 2` (lines 9 and 106). */
  predicate NoLiveSource(c: Conn)
    requires CurrentInRange(c)
  {
    c.current.None? || c.sources[c.current.value] == Closed
  }

  /** `connectToStream` (lines 105-109): a new source in CONNECTING state, unless one is held and not CLOSED. */
  function Connect(c: Conn): (r: Conn)
    requires CurrentInRange(c)
    ensures CurrentInRange(r)
  {
    if !NoLiveSource(c) then c
    else Conn(c.sources + [Connecting], Some(|c.sources|), c.pendingReconnects)
  }

  /** Script start (line 215). */
  function Start(): Conn {
    Connect(Conn([], None, 0))
  }

  /**
   * `onerror` (lines 128-134): ignored while CONNECTING; otherwise close the source, clear
   * `eventSource` and schedule one reconnect. With `eventSource` already `null` the handler
   * throws before changing anything.
   */
  function OnError(c: Conn): (r: Conn)
    requires CurrentInRange(c)
    ensures CurrentInRange(r)
  {
    if c.current.None? || c.sources[c.current.value] == Connecting then c
    else Conn(c.sources[c.current.value := Closed], None, c.pendingReconnects + 1)
  }

  /** A pending `setTimeout(connectToStream, 5000)` fires. */
  function OnReconnectTimer(c: Conn): (r: Conn)
    requires CurrentInRange(c) && c.pendingReconnects > 0
    ensures CurrentInRange(r)
  {
    Connect(c.(pendingReconnects := c.pendingReconnects - 1))
  }

  /** The alarm listener (lines 6-14). */
  function OnAlarm(c: Conn, name: string): (r: Conn)
    requires CurrentInRange(c)
    ensures CurrentInRange(r)
  {
    if name == "keepAlive" && NoLiveSource(c) then Connect(c) else c
  }

  /** The browser moves the held, not yet closed source to another state (a closed EventSource never changes). */
  function Transport(c: Conn, st: ReadyState): (r: Conn)
    requires CurrentInRange(c) && c.current.Some? && Live(c.sources[c.current.value])
    ensures CurrentInRange(r)
  {
    c.(sources := c.sources[c.current.value := st])
  }

  /** Number of live sources. */
  function LiveCount(sources: seq<ReadyState>): nat {
    if sources == [] then 0
    else LiveCount(sources[..|sources| - 1]) + (if Live(sources[|sources| - 1]) then 1 else 0)
  }

  lemma {:induction false} LiveCountBound(sources: seq<ReadyState>, j: int)
    requires forall i :: 0 <= i < |sources| && Live(sources[i]) ==> i == j
    ensures LiveCount(sources) <= if 0 <= j < |sources| then 1 else 0
  {
    if sources != [] {
      var init := sources[..|sources| - 1];
      assert forall i :: 0 <= i < |init| ==> init[i] == sources[i];
      LiveCountBound(init, j);
    }
  }

  /** No two connections are ever live at once. */
  lemma AtMostOneLive(c: Conn)
    requires Valid(c)
    ensures LiveCount(c.sources) <= 1
  {
    LiveCountBound(c.sources, if c.current.Some? then c.current.value else -1);
  }

  lemma StartValid()
    ensures Valid(Start()) && Start().current == Some(0) && Start().sources == [Connecting]
  {
  }

  /** Every transition keeps at most one live source, the one held in `eventSource`. */
  lemma TransitionsPreserveValid(c: Conn, st: ReadyState, name: string)
    requires Valid(c)
    ensures Valid(Connect(c)) && Valid(OnError(c)) && Valid(OnAlarm(c, name))
    ensures c.pendingReconnects > 0 ==> Valid(OnReconnectTimer(c))
    ensures c.current.Some? && Live(c.sources[c.current.value]) ==> Valid(Transport(c, st))
  {
    if c.pendingReconnects > 0 {
      var d := c.(pendingReconnects := c.pendingReconnects - 1);
      assert Valid(d);
    }
  }

  /** A new source is created exactly when none is held or the held one is CLOSED; it never replaces a live one. */
  lemma ConnectCreatesOnlyWhenNoneLive(c: Conn)
    requires Valid(c)
    ensures |Connect(c).sources| == if NoLiveSource(c) then |c.sources| + 1 else |c.sources|
    ensures NoLiveSource(c) ==> Connect(c).sources[|c.sources|] == Connecting
    ensures !NoLiveSource(c) ==> Connect(c) == c
    ensures !NoLiveSource(Connect(c))
  {
  }

  /** Calling `connectToStream` twice (timer and alarm both firing) opens one connection. */
  lemma ConnectIdempotent(c: Conn)
    requires CurrentInRange(c)
    ensures Connect(Connect(c)) == Connect(c)
  {
  }

  /** The alarm's own test duplicates the guard inside `connectToStream`. */
  lemma AlarmIsConnect(c: Conn)
    requires CurrentInRange(c)
    ensures OnAlarm(c, "keepAlive") == Connect(c)
    ensures forall name :: name != "keepAlive" ==> OnAlarm(c, name) == c
  {
  }

  /**
   * An error on an OPEN or CLOSED source drops it and schedules exactly one reconnect, and that
   * reconnect opens a fresh source; an error while CONNECTING changes nothing.
   */
  lemma ErrorThenReconnect(c: Conn)
    requires Valid(c) && c.current.Some?
    ensures c.sources[c.current.value] == Connecting ==> OnError(c) == c
    ensures c.sources[c.current.value] != Connecting ==>
      var e := OnError(c);
      && e.current.None? && e.pendingReconnects == c.pendingReconnects + 1
      && e.sources == c.sources[c.current.value := Closed]
      && var r := OnReconnectTimer(e);
         r.current == Some(|c.sources|) && r.sources == e.sources + [Connecting]
         && r.pendingReconnects == c.pendingReconnects
  {
  }

  /**
   * The keep-alive alarm can reconnect before the timer scheduled by `onerror` fires. The timer
   * then does nothing while the source the alarm opened is live; once the browser has closed that
   * source, the timer opens yet another one.
   */
  lemma AlarmBeforeReconnectTimer(c: Conn)
    requires Valid(c) && c.current.Some? && c.sources[c.current.value] != Connecting
    ensures var a := OnAlarm(OnError(c), "keepAlive");
      && a.current == Some(|c.sources|) && a.sources[|c.sources|] == Connecting
      && a.pendingReconnects == c.pendingReconnects + 1
      && (forall st :: Live(st) ==>
            OnReconnectTimer(Transport(a, st)) == Transport(a, st).(pendingReconnects := c.pendingReconnects))
      && var z := OnReconnectTimer(Transport(a, Closed));
         z.current == Some(|c.sources| + 1) && |z.sources| == |c.sources| + 2 && LiveCount(z.sources) == 1
  {
    var a := OnAlarm(OnError(c), "keepAlive");
    var z := OnReconnectTimer(Transport(a, Closed));
    TransitionsPreserveValid(c, Closed, "keepAlive");
    TransitionsPreserveValid(OnError(c), Closed, "keepAlive");
    TransitionsPreserveValid(a, Closed, "keepAlive");
    TransitionsPreserveValid(Transport(a, Closed), Closed, "keepAlive");
    assert Valid(z);
    LiveCountBound(z.sources, |c.sources| + 1);
    LiveCountAtLeastOne(z.sources, |c.sources| + 1);
  }

  lemma {:induction false} LiveCountAtLeastOne(sources: seq<ReadyState>, j: nat)
    requires j < |sources| && Live(sources[j])
    ensures LiveCount(sources) >= 1
  {
    var init := sources[..|sources| - 1];
    if j < |init| {
      assert init[j] == sources[j];
      LiveCountAtLeastOne(init, j);
    }
  }
}
