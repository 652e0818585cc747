/** The throttle tracker behind `log_throttled`: a map from call-site key to
    the tick of that site's last emission, and the check-and-update rule
    that decides whether a call is emitted or suppressed. */
module Throttle {
  import opened Decimal
  import opened LogTypes

  /** The key of a call site: its file name, a colon, and its line as
      `std::to_string` writes it. The function name is not part of it. */
  function ThrottleKey(loc: SourceLoc): (key: string)
    ensures |key| > |loc.filename| + 1
    ensures key[..|loc.filename|] == loc.filename && key[|loc.filename|] == ':'
    ensures key[|loc.filename| + 1..] == IntToString(loc.line)
    ensures IsIntText(key[|loc.filename| + 1..]) && ParseInt(key[|loc.filename| + 1..]) == loc.line
  {
    var key := loc.filename + ":" + IntToString(loc.line);
    assert key[|loc.filename| + 1..] == IntToString(loc.line);
    key
  }

  /** A string splits in at most one way as `a ":" x` with `x` free of colons. */
  lemma ColonSplitUnique(a: string, x: string, b: string, y: string)
    requires forall i :: 0 <= i < |x| ==> x[i] != ':'
    requires forall i :: 0 <= i < |y| ==> y[i] != ':'
    requires a + ":" + x == b + ":" + y
    ensures a == b && x == y
  {
    var s := a + ":" + x;
    // The colon after `a` (and after `b`) is the last colon of `s`.
    forall j | |a| < j < |s| ensures s[j] != ':' {
      assert s[j] == x[j - |a| - 1];
    }
    forall j | |b| < j < |s| ensures s[j] != ':' {
      assert s[j] == y[j - |b| - 1];
    }
    assert s[|a|] == ':' && s[|b|] == ':';
    assert |a| == |b|;
    assert a == s[..|a|] && b == s[..|b|];
    assert x == s[|a| + 1..] && y == s[|b| + 1..];
  }

  /** Two call sites share a throttle key exactly when they have the same
      file name and line, whatever their function names. */
  lemma ThrottleKeyInjective(p: SourceLoc, q: SourceLoc)
    ensures ThrottleKey(p) == ThrottleKey(q) <==> p.filename == q.filename && p.line == q.line
  {
    if ThrottleKey(p) == ThrottleKey(q) {
      ColonSplitUnique(p.filename, IntToString(p.line), q.filename, IntToString(q.line));
    }
  }

  /** The emission rule: a site that never emitted, or whose last emission
      is at least `interval` ticks before `now`, may emit. */
  predicate Admits(last: map<string, int>, key: string, now: int, interval: int) {
    key !in last || now - last[key] >= interval
  }

  /** The tracker after one check-and-update for `key` at tick `now`. */
  function ThrottleUpdate(last: map<string, int>, key: string, now: int, interval: int): (next: map<string, int>)
    ensures Admits(last, key, now, interval) ==> next == last[key := now]
    ensures !Admits(last, key, now, interval) ==> next == last
    ensures next.Keys == last.Keys + {key}
    ensures forall k :: k in last && k != key ==> next[k] == last[k]
    ensures interval >= 0 && key in last ==> next[key] >= last[key]
  {
    if Admits(last, key, now, interval) then last[key := now] else last
  }

  /** One `log_throttled` call, reduced to what the tracker sees. */
  datatype ThrottleCall = ThrottleCall(loc: SourceLoc, interval: int, now: int)

  /** The tracker after a sequence of calls, oldest first. */
  function Replay(last: map<string, int>, calls: seq<ThrottleCall>): map<string, int>
    decreases |calls|
  {
    if calls == [] then last
    else
      var c := calls[|calls| - 1];
      ThrottleUpdate(Replay(last, calls[..|calls| - 1]), ThrottleKey(c.loc), c.now, c.interval)
  }

  /** Whether call `c` is emitted when it follows the calls `history`. */
  predicate EmitsAfter(last: map<string, int>, history: seq<ThrottleCall>, c: ThrottleCall) {
    Admits(Replay(last, history), ThrottleKey(c.loc), c.now, c.interval)
  }

  /** The calls among `calls` made from the site whose key is `key`, in order. */
  function OnlySite(calls: seq<ThrottleCall>, key: string): seq<ThrottleCall>
    decreases |calls|
  {
    if calls == [] then []
    else
      var c := calls[|calls| - 1];
      OnlySite(calls[..|calls| - 1], key) + (if ThrottleKey(c.loc) == key then [c] else [])
  }

  /** A key, once recorded, is never removed. */
  lemma {:induction false} ReplayNeverForgets(last: map<string, int>, calls: seq<ThrottleCall>)
    ensures last.Keys <= Replay(last, calls).Keys
  {
    if calls != [] {
      ReplayNeverForgets(last, calls[..|calls| - 1]);
    }
  }

  /** With non-negative intervals a key's recorded tick never moves back. */
  lemma {:induction false} ReplayNeverRewinds(last: map<string, int>, calls: seq<ThrottleCall>)
    requires forall i :: 0 <= i < |calls| ==> calls[i].interval >= 0
    ensures forall k :: k in last ==> k in Replay(last, calls) && Replay(last, calls)[k] >= last[k]
  {
    if calls != [] {
      ReplayNeverRewinds(last, calls[..|calls| - 1]);
    }
  }

  /** Every key the tracker gains is the key of a site that called. */
  lemma {:induction false} ReplayOnlyAddsCallers(last: map<string, int>, calls: seq<ThrottleCall>)
    ensures forall k :: k in Replay(last, calls) ==>
      k in last || exists i :: 0 <= i < |calls| && ThrottleKey(calls[i].loc) == k
  {
    if calls != [] {
      var init := calls[..|calls| - 1];
      ReplayOnlyAddsCallers(last, init);
      forall k | k in Replay(last, calls) && k !in last
        ensures exists i :: 0 <= i < |calls| && ThrottleKey(calls[i].loc) == k
      {
        if k in Replay(last, init) {
          var i :| 0 <= i < |init| && ThrottleKey(init[i].loc) == k;
          assert calls[i] == init[i];
        } else {
          assert ThrottleKey(calls[|calls| - 1].loc) == k;
        }
      }
    }
  }

  /** A site's entry depends only on that site's own calls: other sites do
      not influence its suppression state. */
  lemma {:induction false} SiteIndependence(last: map<string, int>, calls: seq<ThrottleCall>, key: string)
    ensures key in Replay(last, calls) <==> key in Replay(last, OnlySite(calls, key))
    ensures key in Replay(last, calls) ==> Replay(last, calls)[key] == Replay(last, OnlySite(calls, key))[key]
  {
    if calls != [] {
      var init := calls[..|calls| - 1];
      var c := calls[|calls| - 1];
      SiteIndependence(last, init, key);
      var own := OnlySite(init, key);
      if ThrottleKey(c.loc) == key {
        assert (own + [c])[..|own + [c]| - 1] == own;
      } else {
        assert OnlySite(calls, key) == own;
      }
    }
  }

  /** Whether a call is emitted does not depend on the calls of other sites. */
  lemma EmitsIndependentOfOtherSites(last: map<string, int>, history: seq<ThrottleCall>, c: ThrottleCall)
    ensures EmitsAfter(last, history, c) == EmitsAfter(last, OnlySite(history, ThrottleKey(c.loc)), c)
  {
    SiteIndependence(last, history, ThrottleKey(c.loc));
  }

  /** Three calls from a fresh site: the first is emitted, one less than
      `interval` after it is suppressed, one at least `interval` after it is
      emitted again. */
  lemma ThrottleWindow(last: map<string, int>, loc: SourceLoc, interval: int, t0: int, t1: int, t2: int)
    requires ThrottleKey(loc) !in last
    requires t1 - t0 < interval <= t2 - t0
    ensures var c0, c1, c2 := ThrottleCall(loc, interval, t0), ThrottleCall(loc, interval, t1), ThrottleCall(loc, interval, t2);
      && EmitsAfter(last, [], c0)
      && !EmitsAfter(last, [c0], c1)
      && EmitsAfter(last, [c0, c1], c2)
  {
    var c0, c1, c2 := ThrottleCall(loc, interval, t0), ThrottleCall(loc, interval, t1), ThrottleCall(loc, interval, t2);
    assert [c0][..0] == [];
    assert [c0, c1][..1] == [c0];
  }
}
