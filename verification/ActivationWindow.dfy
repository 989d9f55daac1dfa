/**
 The four-activate window of one rank: the command queue keeps a decrementing counter for
 each recent activate, drops the head when it reaches zero, and refuses an activate while
 four counters are running (CommandQueue.cpp).
 */
module ActivationWindow {
  import opened Countdowns

  /** The book-keeping at the start of every cycle. */
  function Advance(counters: seq<nat>): seq<nat> {
    var next := seq(|counters|, k requires 0 <= k < |counters| => Dec(counters[k]));
    if next != [] && next[0] == 0 then next[1..] else next
  }

  /** The counters and, as history, the cycles at which activates were issued. */
  datatype Window = Window(counters: seq<nat>, times: seq<nat>)

  predicate Open(counters: seq<nat>) {
    |counters| < 4
  }

  /** The rank after |wants| cycles, where wants[t] says whether an activate is ready to go
      at cycle t; it goes exactly when fewer than four counters are running. */
  function Run(tFAW: nat, wants: seq<bool>): Window {
    if wants == [] then Window([], [])
    else
      var t := |wants| - 1;
      var before := Run(tFAW, wants[..t]);
      var counters := Advance(before.counters);
      if wants[t] && Open(counters) then Window(counters + [tFAW], before.times + [t])
      else Window(counters, before.times)
  }

  ghost predicate Increasing(times: seq<nat>, bound: int) {
    && (forall i, j :: 0 <= i < j < |times| ==> times[i] < times[j])
    && (forall i :: 0 <= i < |times| ==> times[i] < bound)
  }

  /** Reference: the remaining time, at cycle now, of every activate younger than tFAW. */
  function Remaining(times: seq<nat>, now: int, tFAW: nat): (rs: seq<nat>)
    requires forall i :: 0 <= i < |times| ==> times[i] <= now
    ensures |rs| <= |times|
    ensures forall i :: 0 <= i < |rs| ==> 1 <= rs[i] <= tFAW
  {
    if times == [] then []
    else
      var init, last := times[..|times| - 1], times[|times| - 1];
      Remaining(init, now, tFAW) + (if now - last < tFAW then [tFAW - (now - last)] else [])
  }

  lemma IncreasingInit(times: seq<nat>, bound: int)
    requires Increasing(times, bound) && times != []
    ensures Increasing(times[..|times| - 1], times[|times| - 1])
  {
  }

  lemma IncreasingSnoc(times: seq<nat>, t: nat)
    requires Increasing(times, t)
    ensures Increasing(times + [t], t + 1)
  {
  }

  lemma RemainingSnoc(times: seq<nat>, t: nat, now: int, tFAW: nat)
    requires Increasing(times, t) && t <= now
    ensures Remaining(times + [t], now, tFAW)
         == Remaining(times, now, tFAW) + (if now - t < tFAW then [tFAW - (now - t)] else [])
  {
  }

  /** The remaining times before a bound are below that of an activate at the bound. */
  lemma {:induction false} RemainingBelow(times: seq<nat>, now: int, tFAW: nat, bound: int)
    requires Increasing(times, bound) && bound <= now + 1
    ensures forall i :: 0 <= i < |Remaining(times, now, tFAW)| ==>
              Remaining(times, now, tFAW)[i] < tFAW - (now - bound)
  {
    if times == [] {
    } else {
      IncreasingInit(times, bound);
      RemainingBelow(times[..|times| - 1], now, tFAW, times[|times| - 1]);
    }
  }

  /** If an activate has left the window, so have all before it. */
  lemma {:induction false} NoneBefore(times: seq<nat>, now: int, tFAW: nat, last: nat)
    requires Increasing(times, last) && last <= now && now - last >= tFAW
    ensures Remaining(times, now, tFAW) == []
  {
    if times == [] {
    } else {
      IncreasingInit(times, last);
      NoneBefore(times[..|times| - 1], now, tFAW, times[|times| - 1]);
    }
  }

  lemma AdvanceSnoc(init: seq<nat>, last: nat, now: int, tFAW: nat)
    requires Increasing(init, last) && last <= now
    requires Advance(Remaining(init, now, tFAW)) == Remaining(init, now + 1, tFAW)
    ensures Advance(Remaining(init + [last], now, tFAW)) == Remaining(init + [last], now + 1, tFAW)
  {
    var older, c := Remaining(init, now, tFAW), tFAW - (now - last);
    RemainingSnoc(init, last, now, tFAW);
    RemainingSnoc(init, last, now + 1, tFAW);
    if c >= 1 {
      RemainingBelow(init, now, tFAW, last);
      AdvanceAppend(older, c);
    } else {
      NoneBefore(init, now, tFAW, last);
    }
  }

  /** Decrementing and dropping the head keeps exactly the activates still inside the window. */
  lemma {:induction false} AdvanceRemaining(times: seq<nat>, now: int, tFAW: nat)
    requires Increasing(times, now + 1)
    ensures Advance(Remaining(times, now, tFAW)) == Remaining(times, now + 1, tFAW)
  {
    if times == [] {
    } else {
      var init, last := times[..|times| - 1], times[|times| - 1];
      IncreasingInit(times, now + 1);
      AdvanceRemaining(init, now, tFAW);
      AdvanceSnoc(init, last, now, tFAW);
      assert times == init + [last];
    }
  }

  lemma AdvanceAppend(older: seq<nat>, c: nat)
    requires c >= 1 && (older != [] ==> c > older[0] >= 1)
    ensures Advance(older + [c]) == Advance(older) + (if older == [] && c == 1 then [] else [c - 1])
  {
  }

  /** Fewer than k counters are running exactly when the k-th last activate has left the window. */
  lemma {:induction false} RemainingCount(times: seq<nat>, now: int, tFAW: nat, k: nat)
    requires Increasing(times, now + 1) && k >= 1
    ensures |Remaining(times, now, tFAW)| < k <==> |times| < k || now - times[|times| - k] >= tFAW
  {
    if times == [] {
    } else {
      var init, last := times[..|times| - 1], times[|times| - 1];
      IncreasingInit(times, now + 1);
      if now - last >= tFAW {
        NoneBefore(init, now, tFAW, last);
      } else if k >= 2 {
        RemainingCount(init, now, tFAW, k - 1);
      }
    }
  }

  /** The counters are always the remaining times of the recent activates. */
  lemma {:induction false} CountersAreRemaining(tFAW: nat, wants: seq<bool>)
    requires tFAW >= 1
    ensures var w := Run(tFAW, wants);
            Increasing(w.times, |wants|) && w.counters == Remaining(w.times, |wants| - 1, tFAW)
  {
    if wants == [] {
    } else {
      var t := |wants| - 1;
      CountersAreRemaining(tFAW, wants[..t]);
      var before := Run(tFAW, wants[..t]);
      AdvanceRemaining(before.times, t - 1, tFAW);
      IncreasingSnoc(before.times, t);
      RemainingSnoc(before.times, t, t, tFAW);
    }
  }

  /** An activate that is ready goes out exactly when no four activates lie within the last
      tFAW cycles. */
  lemma GrantedIff(tFAW: nat, wants: seq<bool>)
    requires tFAW >= 1 && wants != [] && wants[|wants| - 1]
    ensures var t := |wants| - 1;
            var times := Run(tFAW, wants[..t]).times;
            Run(tFAW, wants).times == (if |times| < 4 || t - times[|times| - 4] >= tFAW then times + [t] else times)
  {
    var t := |wants| - 1;
    CountersAreRemaining(tFAW, wants[..t]);
    var before := Run(tFAW, wants[..t]);
    AdvanceRemaining(before.times, t - 1, tFAW);
    RemainingCount(before.times, t, tFAW, 4);
  }

  /** Any five consecutive activates that were granted span at least tFAW cycles. */
  lemma {:induction false} FourActivateWindow(tFAW: nat, wants: seq<bool>, k: nat)
    requires tFAW >= 1 && k + 4 < |Run(tFAW, wants).times|
    ensures Run(tFAW, wants).times[k + 4] - Run(tFAW, wants).times[k] >= tFAW
  {
    var t := |wants| - 1;
    var before, after := Run(tFAW, wants[..t]), Run(tFAW, wants);
    if k + 4 < |before.times| {
      FourActivateWindow(tFAW, wants[..t], k);
    } else {
      GrantedIff(tFAW, wants);
    }
  }
}
