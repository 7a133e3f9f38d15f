/**
 * The breaker automation page (automation.js): the page state (`AutoState`),
 * the default breaker selection, the dry-run gate in front of a command,
 * the breaker state badge and the bounded trend buffer.
 *
 * Breaker states and trend samples are random in the page; here they are
 * inputs.
 */
module Automation {

  import opened Common

  datatype Breaker = Breaker(id: string, name: string, bus: string, state: string, last: string)

  /** The badge classes a breaker card shows for its state. */
  function BreakerBadge(state: string): (badge: string)
    ensures state == "closed" <==> badge == "bg-green-100 text-green-700"
    ensures state == "open" <==> badge == "bg-gray-100 text-gray-700"
    ensures state != "closed" && state != "open" <==> badge == "bg-red-100 text-red-700"
  {
    if state == "closed" then "bg-green-100 text-green-700"
    else if state == "open" then "bg-gray-100 text-gray-700"
    else "bg-red-100 text-red-700"
  }

  /** The selection after `renderBreakers`: the first breaker only when nothing is selected yet. */
  function DefaultSelection(selected: Option<Breaker>, list: seq<Breaker>): (r: Option<Breaker>)
    ensures selected.Some? ==> r == selected
    ensures selected.None? && |list| > 0 ==> r == Some(list[0])
    ensures r.None? <==> selected.None? && |list| == 0
  {
    if selected.None? && |list| > 0 then Some(list[0]) else selected
  }

  /** What pressing Open or Close on a breaker card leads to. */
  datatype SendOutcome =
    | DryRunNotice(message: string)
    | ConfirmModal(action: string, breaker: string)

  class AutoState {
    var role: string
    var dryRun: bool
    var selected: Option<Breaker>

    constructor ()
      ensures role == "Operator" && dryRun && selected.None?
    {
      role := "Operator";
      dryRun := true;
      selected := None;
    }

    /** The dry-run checkbox handler. */
    method SetDryRun(checked: bool)
      modifies this
      ensures dryRun == checked
      ensures role == old(role) && selected == old(selected)
    {
      dryRun := checked;
    }

    /**
     * `selectBreaker`: the selection changes, and `renderMeasures` ends in
     * `renderTrend`, which pushes one sample when the chart is on the page.
     */
    method SelectBreaker(b: Breaker, trend: Trend, chartPresent: bool, sample: real)
      modifies this, trend
      ensures selected == Some(b)
      ensures role == old(role) && dryRun == old(dryRun)
      ensures trend.samples == if chartPresent then TrendPush(old(trend.samples), sample) else old(trend.samples)
    {
      selected := Some(b);
      trend.RenderTrend(chartPresent, sample);
    }

    /** `renderBreakers`: the default selection goes through `selectBreaker`, so it also pushes a trend sample. */
    method RenderBreakers(list: seq<Breaker>, trend: Trend, chartPresent: bool, sample: real)
      modifies this, trend
      ensures selected == DefaultSelection(old(selected), list)
      ensures role == old(role) && dryRun == old(dryRun)
      ensures trend.samples ==
        if old(selected).None? && |list| > 0 && chartPresent then TrendPush(old(trend.samples), sample) else old(trend.samples)
    {
      if selected.None? && |list| > 0 {
        SelectBreaker(list[0], trend, chartPresent, sample);
      }
    }

    /** The two-second timer: with a breaker selected, `renderMeasures` pushes one trend sample when the chart is on the page. */
    method Tick(trend: Trend, chartPresent: bool, sample: real)
      modifies trend
      ensures trend.samples ==
        if selected.Some? && chartPresent then TrendPush(old(trend.samples), sample) else old(trend.samples)
    {
      if selected.Some? {
        trend.RenderTrend(chartPresent, sample);
      }
    }

    /**
     * `confirmAndSend`: in dry-run mode only a notice is shown and the
     * confirmation modal is never opened; otherwise the modal opens.
     */
    method ConfirmAndSend(b: Breaker, action: string) returns (outcome: SendOutcome)
      ensures outcome.DryRunNotice? <==> dryRun
      ensures dryRun ==> outcome.message == "[Dry-run] " + action + " request sent for " + b.name
      ensures !dryRun ==> outcome == ConfirmModal(action, b.name)
    {
      if dryRun {
        return DryRunNotice("[Dry-run] " + action + " request sent for " + b.name);
      }
      outcome := ConfirmModal(action, b.name);
    }
  }

  /** How many samples the trend keeps before it starts dropping the oldest one. */
  const TrendLimit := 40

  /** One `renderTrend` update: drop the oldest sample when more than 40 are held, then append. */
  function TrendPush(trend: seq<real>, sample: real): (r: seq<real>)
    ensures |r| >= 1 && r[|r| - 1] == sample
    ensures |trend| <= TrendLimit ==> r == trend + [sample]
    ensures |trend| > TrendLimit ==> r == trend[1..] + [sample]
  {
    (if |trend| > TrendLimit then trend[1..] else trend) + [sample]
  }

  /** The trend after pushing `samples` one by one into an empty buffer: it never holds more than 41. */
  function PushAll(samples: seq<real>): (r: seq<real>)
    ensures |r| <= TrendLimit + 1
  {
    if |samples| == 0 then []
    else TrendPush(PushAll(samples[..|samples| - 1]), samples[|samples| - 1])
  }

  /** The latest (at most) 41 samples of `s`, oldest first. */
  function Window(s: seq<real>): seq<real>
  {
    if |s| <= TrendLimit + 1 then s else s[|s| - (TrendLimit + 1)..]
  }

  /** First in, first out: the buffer holds exactly the latest 41 samples, oldest first. */
  lemma {:induction false} TrendIsLatestWindow(samples: seq<real>)
    ensures PushAll(samples) == Window(samples)
  {
    if |samples| > 0 {
      var n := |samples| - 1;
      var init, x := samples[..n], samples[n];
      TrendIsLatestWindow(init);
      PushAllStep(samples);
      WindowStep(init, x);
      assert init + [x] == samples;
    }
  }

  /** Pushing the samples one by one ends with one `TrendPush` of the last sample. */
  lemma PushAllStep(samples: seq<real>)
    requires |samples| > 0
    ensures PushAll(samples) == TrendPush(PushAll(samples[..|samples| - 1]), samples[|samples| - 1])
  {
  }

  /** One push moves the window of the latest samples one sample on. */
  lemma WindowStep(init: seq<real>, x: real)
    ensures TrendPush(Window(init), x) == Window(init + [x])
  {
    var all := init + [x];
    if |init| > TrendLimit + 1 {
      var k := |init| - (TrendLimit + 1);
      assert Window(init) == init[k..] && Window(all) == all[k + 1..];
      assert init[k..][1..] + [x] == all[k + 1..];
    } else if |init| == TrendLimit + 1 {
      assert Window(init) == init && Window(all) == all[1..];
      assert init[1..] + [x] == all[1..];
    } else {
      assert Window(init) == init && Window(all) == all;
    }
  }

  class Trend {
    var samples: seq<real>

    constructor ()
      ensures samples == []
    {
      samples := [];
    }

    /** `renderTrend`: nothing happens without the chart element; otherwise one sample is pushed. */
    method RenderTrend(chartPresent: bool, sample: real)
      modifies this
      ensures samples == if chartPresent then TrendPush(old(samples), sample) else old(samples)
    {
      if !chartPresent {
        return;
      }
      if |samples| > TrendLimit {
        samples := samples[1..];
      }
      samples := samples + [sample];
    }
  }
}
