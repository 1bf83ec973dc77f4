/**
 * The Telegram notifier: the messages it sends, in which order, with which
 * pauses, and which send failures it reports or swallows. The bot API is an
 * oracle `rejections` keyed by send-attempt index: attempt `k` (counted from 0
 * over the service's life) fails with `rejections[k]` when that key is present.
 */
module Telegram {
  import opened Wrappers
  import opened ChainTypes
  import Text

  const PauseMs := 1000

  /** What `/ping` reports; the callback's values at the time of the command. */
  datatype BotStats = BotStats(
    uptime: nat,                // whole seconds since the process started
    lastScanTime: Option<Time>,
    nextScanIn: int,            // milliseconds
    pollingInterval: int,       // milliseconds
    totalChains: nat)

  /** The fields of the `/ping` reply that the service computes. */
  datatype Status = Status(
    hours: int, minutes: int, seconds: int,
    lastScan: string, nextScan: string,
    pollingInterval: int, totalChains: nat)

  /** The messages the service sends, by kind; their HTML bodies are not modelled. */
  datatype Message =
    | TestMessage
    | Summary(count: nat)
    | ChainMessage(chain: Chain)
    | ErrorMessage(text: string)
    | StatusMessage(status: Status)

  /** One observable step: a send attempt and whether the bot accepted it, or a sleep. */
  datatype Event = Send(msg: Message, delivered: bool) | Pause(ms: nat)

  /** The messages attempted in `ev`, in order. */
  function Sends(ev: seq<Event>): (ms: seq<Message>)
    ensures |ms| <= |ev|
    decreases |ev|
  {
    if ev == [] then []
    else
      var init := Sends(ev[..|ev| - 1]);
      match ev[|ev| - 1]
      case Send(m, _) => init + [m]
      case Pause(_) => init
  }

  /** The index of the next send attempt after `ev`. */
  function Attempt(ev: seq<Event>): nat
  {
    |Sends(ev)|
  }

  lemma SendsOne(e: Event)
    ensures Sends([e]) == if e.Send? then [e.msg] else []
  {
    assert [e][..0] == [];
  }

  lemma {:induction false} SendsAppend(a: seq<Event>, b: seq<Event>)
    ensures Sends(a + b) == Sends(a) + Sends(b)
    decreases |b|
  {
    if b == [] {
      assert a + b == a;
    } else {
      var last := |b| - 1;
      assert (a + b)[..|a + b| - 1] == a + b[..last];
      SendsAppend(a, b[..last]);
    }
  }

  // ---- pure helpers ------------------------------------------------------

  /**
   * `formatTimeAgo` as a number and a unit letter: whole seconds below a
   * minute, then whole minutes, hours and days, each rounded down.
   */
  function TimeAgo(elapsedMs: int): (r: (int, char))
    ensures var seconds := elapsedMs / 1000;
      && (r.1 == 's' <==> seconds < 60)
      && (r.1 == 's' ==> r.0 == seconds)
      && (r.1 == 'm' <==> 60 <= seconds < 3600)
      && (r.1 == 'm' ==> 1 <= r.0 < 60 && 60 * r.0 <= seconds < 60 * (r.0 + 1))
      && (r.1 == 'h' <==> 3600 <= seconds < 86400)
      && (r.1 == 'h' ==> 1 <= r.0 < 24 && 3600 * r.0 <= seconds < 3600 * (r.0 + 1))
      && (r.1 == 'd' <==> 86400 <= seconds)
      && (r.1 == 'd' ==> 1 <= r.0 && 86400 * r.0 <= seconds < 86400 * (r.0 + 1))
  {
    var seconds := elapsedMs / 1000;
    if seconds < 60 then (seconds, 's')
    else if seconds < 3600 then (seconds / 60, 'm')
    else if seconds < 86400 then (seconds / 3600, 'h')
    else (seconds / 86400, 'd')
  }

  /** The text `formatTimeAgo` shows for a scan `elapsedMs` milliseconds ago. */
  function FormatTimeAgo(elapsedMs: int): (text: string)
    ensures |text| >= 5 && text[|text| - 4..] == " ago"
  {
    var (n, unit) := TimeAgo(elapsedMs);
    Text.IntToString(n) + [unit] + " ago"
  }

  /** A time-ago text never reads "Never". */
  lemma NotNever(elapsedMs: int)
    ensures FormatTimeAgo(elapsedMs) != "Never"
  {
    var (n, unit) := TimeAgo(elapsedMs);
    assert |Text.IntToString(n)| > 0;
    assert |FormatTimeAgo(elapsedMs)| > |"Never"|;
  }

  /** The uptime in whole hours, minutes and seconds. */
  function UptimeParts(uptime: nat): (r: (int, int, int))
    ensures 0 <= r.0 && 0 <= r.1 < 60 && 0 <= r.2 < 60
    ensures 3600 * r.0 + 60 * r.1 + r.2 == uptime
  {
    UptimeSplit(uptime);
    (uptime / 3600, (uptime % 3600) / 60, uptime % 60)
  }

  lemma UptimeSplit(u: nat)
    ensures 3600 * (u / 3600) + 60 * ((u % 3600) / 60) + u % 60 == u
  {
    var h, rest := u / 3600, u % 3600;
    var m, sec := rest / 60, rest % 60;
    assert u == 3600 * h + rest;
    assert rest == 60 * m + sec;
    assert u == 60 * (60 * h + m) + sec;
    ModOfSplit(u, 60 * h + m, sec);
  }

  lemma ModOfSplit(u: int, q: int, r: int)
    requires u == 60 * q + r && 0 <= r < 60
    ensures u % 60 == r
  {
  }

  /** The computed fields of the `/ping` reply, the clock reading `now`. */
  function StatusOf(stats: BotStats, now: Time): (s: Status)
    ensures s.lastScan == "Never" <==> stats.lastScanTime.None?
    ensures stats.lastScanTime.Some? ==> s.lastScan == FormatTimeAgo(now - stats.lastScanTime.value)
    ensures 3600 * s.hours + 60 * s.minutes + s.seconds == stats.uptime
  {
    var (h, m, sec) := UptimeParts(stats.uptime);
    var lastScan := match stats.lastScanTime
      case None => "Never"
      case Some(t) => (NotNever(now - t); FormatTimeAgo(now - t));
    Status(h, m, sec, lastScan, Text.IntToString(stats.nextScanIn / 1000) + "s",
           stats.pollingInterval, stats.totalChains)
  }

  function NotificationFailed(error: string): string
  {
    "Failed to send Telegram notification: " + error
  }

  function TestMessageFailed(error: string): string
  {
    "Failed to send test message: " + error
  }

  // ---- the notifyNewChains schedule ---------------------------------------

  /** One iteration of the per-chain loop: the send, then a pause if it went through and more chains follow. */
  function ChainStep(c: Chain, delivered: bool, last: bool): seq<Event>
  {
    [Send(ChainMessage(c), delivered)] + (if delivered && !last then [Pause(PauseMs)] else [])
  }

  lemma ChainStepSends(c: Chain, delivered: bool, last: bool)
    ensures Sends(ChainStep(c, delivered, last)) == [ChainMessage(c)]
  {
    var send := Send(ChainMessage(c), delivered);
    var pause: seq<Event> := if delivered && !last then [Pause(PauseMs)] else [];
    SendsAppend([send], pause);
    SendsOne(send);
    if pause != [] {
      SendsOne(pause[0]);
    }
  }

  /** The first `|done|` iterations of the per-chain loop over `total` chains, whose first send is attempt `first`. */
  function ChainLoop(done: seq<Chain>, total: nat, first: nat, rejections: map<nat, string>): seq<Event>
    decreases |done|
  {
    if done == [] then []
    else
      var i := |done| - 1;
      ChainLoop(done[..i], total, first, rejections)
        + ChainStep(done[i], first + i !in rejections, i == total - 1)
  }

  lemma ChainLoopSnoc(chains: seq<Chain>, i: nat, first: nat, rejections: map<nat, string>)
    requires i < |chains|
    ensures ChainLoop(chains[..i + 1], |chains|, first, rejections)
      == ChainLoop(chains[..i], |chains|, first, rejections)
         + ChainStep(chains[i], first + i !in rejections, i == |chains| - 1)
  {
    assert chains[..i + 1][..i] == chains[..i];
  }

  /** The log after one more iteration of the loop. */
  lemma LoopExtend(start: seq<Event>, chains: seq<Chain>, i: nat, first: nat, rejections: map<nat, string>)
    requires i < |chains|
    ensures start + ChainLoop(chains[..i + 1], |chains|, first, rejections)
      == (start + ChainLoop(chains[..i], |chains|, first, rejections))
         + ChainStep(chains[i], first + i !in rejections, i == |chains| - 1)
  {
    ChainLoopSnoc(chains, i, first, rejections);
  }

  function SummaryEvents(chains: seq<Chain>, first: nat, rejections: map<nat, string>): seq<Event>
  {
    if |chains| > 1 then [Send(Summary(|chains|), first !in rejections)] else []
  }

  /** Everything `notifyNewChains(chains)` does when its first send is attempt `first`. */
  function NotifyEvents(chains: seq<Chain>, first: nat, rejections: map<nat, string>): seq<Event>
  {
    if |chains| == 0 then []
    else
      var head := SummaryEvents(chains, first, rejections);
      head + ChainLoop(chains, |chains|, first + |head|, rejections)
  }

  /** The per-chain loop starts on the attempt after the summary and completes the run. */
  lemma NotifyAfterSummary(start: seq<Event>, chains: seq<Chain>, rejections: map<nat, string>)
    requires chains != []
    ensures var head := SummaryEvents(chains, Attempt(start), rejections);
      (start + head) + ChainLoop(chains, |chains|, Attempt(start + head), rejections)
        == start + NotifyEvents(chains, Attempt(start), rejections)
  {
    var head := SummaryEvents(chains, Attempt(start), rejections);
    SendsAppend(start, head);
    if head != [] {
      SendsOne(head[0]);
    }
    assert Attempt(start + head) == Attempt(start) + |head|;
  }

  /** The per-chain messages, in list order. */
  function ChainMessages(chains: seq<Chain>): (ms: seq<Message>)
    ensures |ms| == |chains|
    ensures forall i :: 0 <= i < |chains| ==> ms[i] == ChainMessage(chains[i])
  {
    seq(|chains|, i requires 0 <= i < |chains| => ChainMessage(chains[i]))
  }

  lemma {:induction false} ChainLoopSends(done: seq<Chain>, total: nat, first: nat, rejections: map<nat, string>)
    ensures Sends(ChainLoop(done, total, first, rejections)) == ChainMessages(done)
    decreases |done|
  {
    if done != [] {
      var i := |done| - 1;
      var step := ChainStep(done[i], first + i !in rejections, i == total - 1);
      ChainLoopSends(done[..i], total, first, rejections);
      SendsAppend(ChainLoop(done[..i], total, first, rejections), step);
      ChainStepSends(done[i], first + i !in rejections, i == total - 1);
      assert ChainLoop(done, total, first, rejections) == ChainLoop(done[..i], total, first, rejections) + step;
      ChainMessagesSnoc(done);
    }
  }

  lemma ChainMessagesSnoc(chains: seq<Chain>)
    requires chains != []
    ensures ChainMessages(chains) == ChainMessages(chains[..|chains| - 1]) + [ChainMessage(chains[|chains| - 1])]
  {
  }

  /** After `|done|` iterations of the loop, `|done|` more sends have been attempted. */
  lemma LoopAttempt(start: seq<Event>, done: seq<Chain>, total: nat, first: nat, rejections: map<nat, string>)
    ensures Attempt(start + ChainLoop(done, total, first, rejections)) == Attempt(start) + |done|
  {
    SendsAppend(start, ChainLoop(done, total, first, rejections));
    ChainLoopSends(done, total, first, rejections);
  }

  /**
   * `notifyNewChains` attempts a summary iff there is more than one chain,
   * then exactly one message per chain, in list order, whatever fails.
   * An empty list sends nothing.
   */
  lemma NotifySends(chains: seq<Chain>, first: nat, rejections: map<nat, string>)
    ensures Sends(NotifyEvents(chains, first, rejections))
      == (if |chains| > 1 then [Summary(|chains|)] else []) + ChainMessages(chains)
    ensures chains == [] ==> NotifyEvents(chains, first, rejections) == []
  {
    if chains != [] {
      var head := SummaryEvents(chains, first, rejections);
      var loop := ChainLoop(chains, |chains|, first + |head|, rejections);
      assert NotifyEvents(chains, first, rejections) == head + loop;
      SendsAppend(head, loop);
      ChainLoopSends(chains, |chains|, first + |head|, rejections);
      if |chains| > 1 {
        SendsOne(head[0]);
        assert Sends(head) == [Summary(|chains|)];
      } else {
        assert Sends(head) == [];
      }
    }
  }

  /** A pause at `j` lasts 1000 ms and directly follows a delivered chain message. */
  ghost predicate PauseFollowsDelivery(ev: seq<Event>, j: nat)
    requires j < |ev|
  {
    ev[j].Pause? ==>
      j > 0 && ev[j].ms == PauseMs && ev[j - 1].Send? && ev[j - 1].delivered && ev[j - 1].msg.ChainMessage?
  }

  /** A chain message at `j` that is not the last event is followed by a pause iff it was delivered. */
  ghost predicate DeliveryFollowedByPause(ev: seq<Event>, j: nat)
    requires j + 1 < |ev|
  {
    ev[j].Send? && ev[j].msg.ChainMessage? ==> (ev[j + 1].Pause? <==> ev[j].delivered)
  }

  ghost predicate PausesPlaced(ev: seq<Event>)
  {
    && (forall j: nat :: j < |ev| ==> PauseFollowsDelivery(ev, j))
    && (forall j: nat :: j + 1 < |ev| ==> DeliveryFollowedByPause(ev, j))
  }

  /**
   * Where the pauses go: each pause lasts 1000 ms and directly follows a
   * delivered chain message; a chain message that is not the last event is
   * followed by a pause iff it was delivered; the last event is never a pause.
   */
  ghost predicate PausesAfterDeliveries(ev: seq<Event>)
  {
    PausesPlaced(ev) && (|ev| > 0 ==> !ev[|ev| - 1].Pause?)
  }

  /** Joining two well-placed runs keeps the pauses well placed when nothing pause-related straddles the join. */
  lemma ConcatPauses(a: seq<Event>, b: seq<Event>)
    requires PausesPlaced(a) && PausesPlaced(b)
    requires |b| > 0 ==> b[0].Send?
    requires |a| > 0 && |b| > 0 ==> !(a[|a| - 1].Send? && a[|a| - 1].msg.ChainMessage? && a[|a| - 1].delivered)
    ensures PausesPlaced(a + b)
  {
    var ev := a + b;
    forall j: nat | j < |ev|
      ensures PauseFollowsDelivery(ev, j)
    {
      if j < |a| {
        assert PauseFollowsDelivery(a, j);
        assert ev[j] == a[j];
        if j > 0 {
          assert ev[j - 1] == a[j - 1];
        }
      } else if j == |a| {
        assert ev[j] == b[0];
      } else {
        assert PauseFollowsDelivery(b, j - |a|);
        assert ev[j] == b[j - |a|] && ev[j - 1] == b[j - 1 - |a|];
      }
    }
    forall j: nat | j + 1 < |ev|
      ensures DeliveryFollowedByPause(ev, j)
    {
      if j + 1 < |a| {
        assert DeliveryFollowedByPause(a, j);
        assert ev[j] == a[j] && ev[j + 1] == a[j + 1];
      } else if j + 1 == |a| {
        assert ev[j] == a[j] && ev[j + 1] == b[0];
      } else {
        assert DeliveryFollowedByPause(b, j - |a|);
        assert ev[j] == b[j - |a|] && ev[j + 1] == b[j + 1 - |a|];
      }
    }
  }

  lemma StepPauses(c: Chain, delivered: bool, last: bool)
    ensures PausesPlaced(ChainStep(c, delivered, last))
  {
    var step := ChainStep(c, delivered, last);
    assert step[0] == Send(ChainMessage(c), delivered);
    forall j: nat | j < |step|
      ensures PauseFollowsDelivery(step, j)
    {
    }
    forall j: nat | j + 1 < |step|
      ensures DeliveryFollowedByPause(step, j)
    {
    }
  }

  lemma {:induction false} ChainLoopPauses(done: seq<Chain>, total: nat, first: nat, rejections: map<nat, string>)
    requires |done| <= total
    ensures var ev := ChainLoop(done, total, first, rejections);
      && PausesPlaced(ev)
      && (done != [] ==> ev != [] && ev[0].Send?)
      && (ev != [] && |done| < total ==> !(ev[|ev| - 1].Send? && ev[|ev| - 1].delivered))
      && (ev != [] && |done| == total ==> !ev[|ev| - 1].Pause?)
    decreases |done|
  {
    if done != [] {
      var i := |done| - 1;
      var prev := ChainLoop(done[..i], total, first, rejections);
      var step := ChainStep(done[i], first + i !in rejections, i == total - 1);
      ChainLoopPauses(done[..i], total, first, rejections);
      StepPauses(done[i], first + i !in rejections, i == total - 1);
      ConcatPauses(prev, step);
      var ev := prev + step;
      assert ChainLoop(done, total, first, rejections) == ev;
      assert ev[|ev| - 1] == step[|step| - 1];
      assert ev[0] == if prev == [] then step[0] else prev[0];
    }
  }

  /** The pause rule holds for every run of `notifyNewChains`. */
  lemma NotifyPauses(chains: seq<Chain>, first: nat, rejections: map<nat, string>)
    ensures PausesAfterDeliveries(NotifyEvents(chains, first, rejections))
  {
    if chains != [] {
      var head := SummaryEvents(chains, first, rejections);
      var loop := ChainLoop(chains, |chains|, first + |head|, rejections);
      ChainLoopPauses(chains, |chains|, first + |head|, rejections);
      assert PausesPlaced(head) by {
        forall j: nat | j < |head|
          ensures PauseFollowsDelivery(head, j)
        {
        }
      }
      ConcatPauses(head, loop);
      var ev := head + loop;
      assert ev[|ev| - 1] == loop[|loop| - 1];
    }
  }

  // ---- the service ---------------------------------------------------------

  class TelegramService {
    /** Which send attempts the bot API rejects, and with what error text. */
    const rejections: map<nat, string>
    /** Every send attempt and pause so far. */
    var log: seq<Event>
    /** Whether `setStatsCallback` has been called. */
    var hasStatsCallback: bool

    constructor(rejections: map<nat, string>)
      ensures this.rejections == rejections
      ensures log == [] && !hasStatsCallback
    {
      this.rejections := rejections;
      log := [];
      hasStatsCallback := false;
    }

    /** `bot.sendMessage`: one attempt, rejected with `rejections[k]` when `k` is a key. */
    method SendMessage(m: Message) returns (r: Outcome<string>)
      modifies this
      ensures var k := Attempt(old(log));
        && log == old(log) + [Send(m, k !in rejections)]
        && r == (if k in rejections then Fail(rejections[k]) else Pass)
      ensures hasStatsCallback == old(hasStatsCallback)
    {
      var k := Attempt(log);
      SendsAppend(log, [Send(m, k !in rejections)]);
      log := log + [Send(m, k !in rejections)];
      r := if k in rejections then Fail(rejections[k]) else Pass;
    }

    method Sleep(ms: nat)
      modifies this
      ensures log == old(log) + [Pause(ms)]
      ensures hasStatsCallback == old(hasStatsCallback)
    {
      log := log + [Pause(ms)];
    }

    method SetStatsCallback()
      modifies this
      ensures log == old(log) && hasStatsCallback
    {
      hasStatsCallback := true;
    }

    /** `notifyNewChain`: a failed send is reported, wrapped in a new error. */
    method NotifyNewChain(c: Chain) returns (r: Outcome<string>)
      modifies this
      ensures var k := Attempt(old(log));
        && log == old(log) + [Send(ChainMessage(c), k !in rejections)]
        && r == (if k in rejections then Fail(NotificationFailed(rejections[k])) else Pass)
      ensures hasStatsCallback == old(hasStatsCallback)
    {
      var sent := SendMessage(ChainMessage(c));
      r := if sent.Fail? then Fail(NotificationFailed(sent.error)) else Pass;
    }

    /** `sendTestMessage`: a failed send is reported, wrapped in a new error. */
    method SendTestMessage() returns (r: Outcome<string>)
      modifies this
      ensures var k := Attempt(old(log));
        && log == old(log) + [Send(TestMessage, k !in rejections)]
        && r == (if k in rejections then Fail(TestMessageFailed(rejections[k])) else Pass)
      ensures hasStatsCallback == old(hasStatsCallback)
    {
      var sent := SendMessage(TestMessage);
      r := if sent.Fail? then Fail(TestMessageFailed(sent.error)) else Pass;
    }

    /** `notifyError`: one attempt; its own failure is swallowed. */
    method NotifyError(message: string)
      modifies this
      ensures log == old(log) + [Send(ErrorMessage(message), Attempt(old(log)) !in rejections)]
      ensures hasStatsCallback == old(hasStatsCallback)
    {
      var _ := SendMessage(ErrorMessage(message));
    }

    /**
     * `notifyNewChains`: a summary when there is more than one chain, then one
     * message per chain with a pause after each delivered one but the last.
     * No failure escapes.
     */
    method NotifyNewChains(chains: seq<Chain>)
      modifies this
      ensures log == old(log) + NotifyEvents(chains, Attempt(old(log)), rejections)
      ensures hasStatsCallback == old(hasStatsCallback)
    {
      if |chains| == 0 {
        return;
      }
      ghost var start := log;
      ghost var head := SummaryEvents(chains, Attempt(log), rejections);
      if |chains| > 1 {
        var _ := SendMessage(Summary(|chains|));
      }
      assert log == start + head;
      NotifyAfterSummary(start, chains, rejections);
      SendEach(chains);
    }

    /** The per-chain loop of `notifyNewChains`. */
    method SendEach(chains: seq<Chain>)
      modifies this
      ensures log == old(log) + ChainLoop(chains, |chains|, Attempt(old(log)), rejections)
      ensures hasStatsCallback == old(hasStatsCallback)
    {
      ghost var start := log;
      ghost var first := Attempt(log);
      var i := 0;
      while i < |chains|
        invariant 0 <= i <= |chains|
        invariant log == start + ChainLoop(chains[..i], |chains|, first, rejections)
        invariant hasStatsCallback == old(hasStatsCallback)
      {
        ghost var before := log;
        ghost var delivered := first + i !in rejections;
        LoopAttempt(start, chains[..i], |chains|, first, rejections);
        var sent := NotifyNewChain(chains[i]);
        if sent.Pass? && i < |chains| - 1 {
          Sleep(PauseMs);
        }
        assert log == before + ChainStep(chains[i], delivered, i == |chains| - 1);
        LoopExtend(start, chains, i, first, rejections);
        i := i + 1;
      }
      assert chains[..i] == chains;
    }

    /**
     * The `/ping` handler: answered only when a stats callback is set, with
     * the status computed from `stats` (what the callback returns) at `now`.
     */
    method HandlePing(stats: BotStats, now: Time)
      modifies this
      ensures !hasStatsCallback ==> log == old(log)
      ensures hasStatsCallback ==>
        log == old(log) + [Send(StatusMessage(StatusOf(stats, now)), Attempt(old(log)) !in rejections)]
      ensures hasStatsCallback == old(hasStatsCallback)
    {
      if !hasStatsCallback {
        return;
      }
      var _ := SendMessage(StatusMessage(StatusOf(stats, now)));
    }
  }
}
