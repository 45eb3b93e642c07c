/**
 * Monitor alerts: each of a monitor's groups evaluates a status change against its policy, and a map
 * of last alert times, keyed by group and monitor, throttles what would be sent too soon.
 */
module Alerts {
  import opened Options

  datatype Policy = Policy(
    enabled: bool, onDown: bool, onCritical: bool, onWarning: bool, onRecover: bool,
    minIntervalSeconds: nat, notifyGroupIds: seq<string>)

  /** What became of an evaluation that the policy lets fire. */
  datatype Entry =
    | Alert(group: string, monitor: string, at: Time, interval: Time)
    | Suppressed(group: string, monitor: string, at: Time, interval: Time)
    | Recovery(group: string, monitor: string, at: Time)

  datatype State = State(last: map<string, Time>, log: seq<Entry>)

  /** One group's evaluation of one status change; calls on different goroutines interleave at these. */
  datatype Evaluation = Evaluation(
    groups: map<string, Policy>, group: string, monitor: string, prev: string, curr: string, at: Time)

  const Init := State(map[], [])

  function Normalize(s: string): string {
    if s in ["Healthy", "healthy", "HEALTHY", "HEALTH_STATUS_HEALTHY"] then "Healthy"
    else if s in ["Warning", "warning", "WARNING", "HEALTH_STATUS_WARNING"] then "Warning"
    else if s in ["Critical", "critical", "CRITICAL", "HEALTH_STATUS_CRITICAL"] then "Critical"
    else if s in ["Down", "down", "DOWN", "HEALTH_STATUS_DOWN"] then "Down"
    else if s == "" then ""
    else "Unknown"
  }

  /** Leaving a definite bad state for a healthy one. */
  predicate IsRecovery(prev: string, curr: string) {
    Normalize(prev) !in ["Healthy", "", "Unknown"] && Normalize(curr) == "Healthy"
  }

  predicate ShouldFire(policy: Policy, prev: string, curr: string) {
    var c := Normalize(curr);
    || (policy.onRecover && IsRecovery(prev, curr))
    || (c == "Down" && policy.onDown)
    || (c == "Critical" && policy.onCritical)
    || (c == "Warning" && policy.onWarning)
  }

  predicate Fires(e: Evaluation) {
    && Normalize(e.prev) != Normalize(e.curr) && e.group in e.groups
    && var policy := e.groups[e.group];
       policy.enabled && policy.notifyGroupIds != [] && ShouldFire(policy, e.prev, e.curr)
  }

  /** Each status has four spellings; everything else is unknown, but for nothing at all. */
  lemma StatusSpellings(s: string)
    ensures s in ["Healthy", "healthy", "HEALTHY", "HEALTH_STATUS_HEALTHY"] <==> Normalize(s) == "Healthy"
    ensures s in ["Warning", "warning", "WARNING", "HEALTH_STATUS_WARNING"] <==> Normalize(s) == "Warning"
    ensures s in ["Critical", "critical", "CRITICAL", "HEALTH_STATUS_CRITICAL"] <==> Normalize(s) == "Critical"
    ensures s in ["Down", "down", "DOWN", "HEALTH_STATUS_DOWN"] <==> Normalize(s) == "Down"
    ensures Normalize(s) in ["Healthy", "Warning", "Critical", "Down", "Unknown"] || (s == "" && Normalize(s) == "")
  {
  }

  /**
   * Exactly which changes a policy announces: a fall to one of the three bad states under that state's own flag,
   * and a rise from one of them to healthy under the recovery flag.
   */
  lemma FiresExactly(e: Evaluation)
    ensures Fires(e) <==>
            && e.group in e.groups && e.groups[e.group].enabled && e.groups[e.group].notifyGroupIds != []
            && Normalize(e.prev) != Normalize(e.curr)
            && (|| (Normalize(e.curr) == "Down" && e.groups[e.group].onDown)
                || (Normalize(e.curr) == "Critical" && e.groups[e.group].onCritical)
                || (Normalize(e.curr) == "Warning" && e.groups[e.group].onWarning)
                || (Normalize(e.curr) == "Healthy" && Normalize(e.prev) in {"Down", "Critical", "Warning"}
                    && e.groups[e.group].onRecover))
  {
    StatusSpellings(e.prev);
  }

  /** What becomes of a change: suppressed exactly within the interval of the key's last alert; a recovery never. */
  lemma EvaluationDoes(s: State, e: Evaluation)
    ensures var s' := Evaluate(s, e);
            var key := e.group + "|" + e.monitor;
            if !Fires(e) then s' == s
            else
              var interval := e.groups[e.group].minIntervalSeconds * 1_000_000_000;
              if Normalize(e.curr) == "Healthy" then
                s' == State(s.last - {key}, s.log + [Recovery(e.group, e.monitor, e.at)])
              else if interval > 0 && key in s.last && e.at < s.last[key] + interval then
                s' == State(s.last, s.log + [Suppressed(e.group, e.monitor, e.at, interval)])
              else
                && s'.log == s.log + [Alert(e.group, e.monitor, e.at, interval)]
                && s'.last == if interval > 0 then s.last[key := e.at] else s.last
  {
    hide ShouldFire, Normalize;
    if Fires(e) {
      var seconds := e.groups[e.group].minIntervalSeconds;
      assert seconds * SECOND == seconds * 1_000_000_000;
      assert seconds * SECOND > 0 || seconds * SECOND == 0;
    }
  }

  function ThrottleKey(group: string, monitor: string): string {
    group + "|" + monitor
  }

  function Key(e: Entry): string {
    ThrottleKey(e.group, e.monitor)
  }

  predicate Allowed(last: map<string, Time>, key: string, interval: Time, at: Time) {
    interval == 0 || key !in last || at - last[key] >= interval
  }

  function Evaluate(s: State, e: Evaluation): State {
    if !Fires(e) then s
    else
      var key := ThrottleKey(e.group, e.monitor);
      var interval := e.groups[e.group].minIntervalSeconds * SECOND;
      if Normalize(e.curr) == "Healthy" then
        State(s.last - {key}, s.log + [Recovery(e.group, e.monitor, e.at)])
      else if !Allowed(s.last, key, interval, e.at) then
        s.(log := s.log + [Suppressed(e.group, e.monitor, e.at, interval)])
      else
        State(if interval == 0 then s.last else s.last[key := e.at],
              s.log + [Alert(e.group, e.monitor, e.at, interval)])
  }

  function Exec(s: State, es: seq<Evaluation>): State
    decreases |es|
  {
    if es == [] then s else Exec(Evaluate(s, es[0]), es[1..])
  }

  // ---------- What the log of any run looks like ----------

  /** Entry i is a throttled-by-interval alert whose key has not been reset before position j. */
  ghost predicate Standing(log: seq<Entry>, i: nat, j: nat) {
    && i < j <= |log| && log[i].Alert? && log[i].interval > 0
    && forall r | i < r < j && log[r].Recovery? :: Key(log[r]) != Key(log[i])
  }

  ghost predicate Spaced(log: seq<Entry>) {
    forall i: nat, j: nat | j < |log| && log[j].Alert? && log[j].interval > 0 && Standing(log, i, j)
        && Key(log[i]) == Key(log[j]) ::
      log[i].at + log[j].interval <= log[j].at
  }

  ghost predicate TooSoon(log: seq<Entry>, i: nat, j: nat) {
    && j < |log| && log[j].Suppressed? && Standing(log, i, j) && Key(log[i]) == Key(log[j])
    && log[j].at < log[i].at + log[j].interval
  }

  ghost predicate Justified(log: seq<Entry>) {
    forall j: nat | j < |log| && log[j].Suppressed? :: exists i: nat :: TooSoon(log, i, j)
  }

  ghost predicate LastIsNewest(s: State) {
    && (forall i: nat | Standing(s.log, i, |s.log|) :: Key(s.log[i]) in s.last && s.log[i].at <= s.last[Key(s.log[i])])
    && (forall k | k in s.last ::
          exists i: nat :: Standing(s.log, i, |s.log|) && Key(s.log[i]) == k && s.log[i].at == s.last[k])
  }

  ghost predicate Inv(s: State) {
    Spaced(s.log) && Justified(s.log) && LastIsNewest(s)
  }

  lemma StandingBefore(log: seq<Entry>, e: Entry, i: nat, j: nat)
    requires j <= |log|
    ensures Standing(log + [e], i, j) <==> Standing(log, i, j)
  {
    var log' := log + [e];
    assert forall r | 0 <= r < |log| :: log'[r] == log[r];
    if i < j && Standing(log, i, j) {
      assert Standing(log', i, j);
    }
  }

  lemma StandingAfter(log: seq<Entry>, e: Entry, i: nat)
    requires i < |log|
    ensures Standing(log + [e], i, |log + [e]|) <==> Standing(log, i, |log|) && !(e.Recovery? && Key(e) == Key(log[i]))
  {
    var log' := log + [e];
    assert log'[i] == log[i] && log'[|log|] == e;
    StandingBefore(log, e, i, |log|);
    if Standing(log', i, |log'|) {
      assert Standing(log', i, |log|);
    }
  }

  lemma LogStays(s: State, e: Entry)
    requires Inv(s)
    requires e.Alert? && e.interval > 0 ==> Key(e) !in s.last || s.last[Key(e)] + e.interval <= e.at
    requires e.Suppressed? ==> Key(e) in s.last && e.at < s.last[Key(e)] + e.interval
    ensures Spaced(s.log + [e]) && Justified(s.log + [e])
  {
    var log' := s.log + [e];
    forall i: nat, j: nat | j < |log'| && Standing(log', i, j) && Key(log'[i]) == Key(log'[j]) && log'[j].Alert?
        && log'[j].interval > 0
      ensures log'[i].at + log'[j].interval <= log'[j].at
    {
      StandingBefore(s.log, e, i, j);
    }
    forall j: nat | j < |log'| && log'[j].Suppressed?
      ensures exists i: nat :: TooSoon(log', i, j)
    {
      var i: nat;
      if j < |s.log| {
        i :| TooSoon(s.log, i, j);
      } else {
        i :| Standing(s.log, i, |s.log|) && Key(s.log[i]) == Key(e) && s.log[i].at == s.last[Key(e)];
      }
      StandingBefore(s.log, e, i, j);
      assert TooSoon(log', i, j);
    }
  }

  lemma EvaluateKeeps(s: State, e: Evaluation)
    requires Inv(s)
    ensures Inv(Evaluate(s, e))
  {
    var s' := Evaluate(s, e);
    if s' != s {
      var entry := s'.log[|s.log|];
      assert s'.log == s.log + [entry];
      LogStays(s, entry);
      LastKept(s, s', entry);
    }
  }

  /** How an entry moves the map of last alert times. */
  ghost predicate LastFollows(s: State, s': State, entry: Entry) {
    s'.last == if entry.Recovery? then s.last - {Key(entry)}
               else if entry.Alert? && entry.interval > 0 then s.last[Key(entry) := entry.at]
               else s.last
  }

  lemma LastKept(s: State, s': State, entry: Entry)
    requires LastIsNewest(s) && s'.log == s.log + [entry] && LastFollows(s, s', entry)
    requires entry.Alert? && entry.interval > 0 ==> Key(entry) !in s.last || s.last[Key(entry)] <= entry.at
    ensures LastIsNewest(s')
  {
    forall i: nat | Standing(s'.log, i, |s'.log|)
      ensures Key(s'.log[i]) in s'.last && s'.log[i].at <= s'.last[Key(s'.log[i])]
    {
      if i < |s.log| {
        StandingAfter(s.log, entry, i);
      }
    }
    forall k | k in s'.last
      ensures exists i: nat :: Standing(s'.log, i, |s'.log|) && Key(s'.log[i]) == k && s'.log[i].at == s'.last[k]
    {
      var j := NewestOf(s, s', entry, k);
    }
  }

  lemma NewestOf(s: State, s': State, entry: Entry, k: string) returns (i: nat)
    requires LastIsNewest(s) && s'.log == s.log + [entry] && LastFollows(s, s', entry) && k in s'.last
    ensures Standing(s'.log, i, |s'.log|) && Key(s'.log[i]) == k && s'.log[i].at == s'.last[k]
  {
    if entry.Alert? && entry.interval > 0 && k == Key(entry) {
      i := |s.log|;
    } else {
      i :| Standing(s.log, i, |s.log|) && Key(s.log[i]) == k && s.log[i].at == s.last[k];
      StandingAfter(s.log, entry, i);
    }
  }

  lemma {:induction false} RunKeeps(s: State, es: seq<Evaluation>)
    requires Inv(s)
    ensures Inv(Exec(s, es))
    decreases |es|
  {
    if es != [] {
      EvaluateKeeps(s, es[0]);
      RunKeeps(Evaluate(s, es[0]), es[1..]);
    }
  }

  /**
   * In any run, with policies changing at will and events out of order: an alert under an interval is
   * at least that interval after every earlier one of its key since the key's last recovery, and an
   * alert is suppressed only if it is sooner than that.
   */
  lemma AlertsAreThrottled(es: seq<Evaluation>)
    ensures Spaced(Exec(Init, es).log) && Justified(Exec(Init, es).log)
  {
    RunKeeps(Init, es);
  }

  predicate OfKey(e: Evaluation, key: string) {
    ThrottleKey(e.group, e.monitor) == key
  }

  /** Evaluations of other keys leave a key alone. */
  lemma {:induction false} OtherKeysAside(s: State, es: seq<Evaluation>, key: string)
    requires forall i | 0 <= i < |es| :: !OfKey(es[i], key)
    ensures var last := Exec(s, es).last;
            (key in last <==> key in s.last) && (key in last ==> last[key] == s.last[key])
    decreases |es|
  {
    if es != [] {
      assert forall i | 0 <= i < |es[1..]| :: es[1..][i] == es[i + 1];
      OtherKeysAside(Evaluate(s, es[0]), es[1..], key);
    }
  }

  /**
   * Exactly when the first incident after a recovery is suppressed, after any run: the policy did not announce
   * the recovery, and the key's last alert from before it is less than the incident's interval ago.
   */
  lemma NextIncidentExactly(before: seq<Evaluation>, recovery: Evaluation, between: seq<Evaluation>,
                            incident: Evaluation)
    requires IsRecovery(recovery.prev, recovery.curr)
    requires Fires(incident) && Normalize(incident.curr) != "Healthy"
    requires var key := ThrottleKey(incident.group, incident.monitor);
             OfKey(recovery, key) && forall i | 0 <= i < |between| :: !OfKey(between[i], key)
    ensures var s := Exec(Init, before);
            var s' := Exec(Evaluate(s, recovery), between);
            var key := ThrottleKey(incident.group, incident.monitor);
            var interval := incident.groups[incident.group].minIntervalSeconds * SECOND;
            var suppressed := !Fires(recovery) && key in s.last && incident.at < s.last[key] + interval && interval > 0;
            Evaluate(s', incident).log == s'.log +
              [if suppressed then Suppressed(incident.group, incident.monitor, incident.at, interval)
               else Alert(incident.group, incident.monitor, incident.at, interval)]
  {
    var key := ThrottleKey(incident.group, incident.monitor);
    OtherKeysAside(Evaluate(Exec(Init, before), recovery), between, key);
    hide Exec, ShouldFire;
  }

  lemma DownAndHealthy()
    ensures Normalize("Down") == "Down" && Normalize("Healthy") == "Healthy"
  {
  }

  /** Without the on-recover flag a recovery does not make the next incident alert immediately. */
  lemma UnannouncedRecovery() returns (es: seq<Evaluation>)
    ensures |es| == 3 && IsRecovery(es[1].prev, es[1].curr) && Fires(es[2])
    ensures Exec(Init, es).log == [Alert("g", "m", 0, 60 * SECOND), Suppressed("g", "m", 2 * SECOND, 60 * SECOND)]
  {
    DownAndHealthy();
    var groups := map["g" := Policy(true, true, true, true, false, 60, ["n"])];
    var e1 := Evaluation(groups, "g", "m", "Healthy", "Down", 0);
    var e2 := Evaluation(groups, "g", "m", "Down", "Healthy", SECOND);
    var e3 := Evaluation(groups, "g", "m", "Healthy", "Down", 2 * SECOND);
    var s1 := Evaluate(Init, e1);
    assert s1 == State(map[ThrottleKey("g", "m") := 0], [Alert("g", "m", 0, 60 * SECOND)]);
    assert Evaluate(s1, e2) == s1;
    es := [e1] + [e2] + [e3];
    ExecAppend(Init, [], e1);
    ExecAppend(Init, [e1], e2);
    ExecAppend(Init, [e1] + [e2], e3);
    assert [] + [e1] == [e1];
  }

  // ---------- Throttle keys ----------

  /** Keys of two groups can be the same exactly when one id, with the separator, is a prefix of the other. */
  lemma KeysCollideExactly(g: string, h: string)
    requires g != h
    ensures (exists m, n | m != "" && n != "" :: ThrottleKey(g, m) == ThrottleKey(h, n))
            <==> g + "|" <= h + "|" || h + "|" <= g + "|"
  {
    if m, n :| m != "" && n != "" && ThrottleKey(g, m) == ThrottleKey(h, n) {
      var k := ThrottleKey(g, m);
      assert g + "|" == k[..|g| + 1] && h + "|" == k[..|h| + 1];
    }
    if g + "|" <= h + "|" {
      var m := MonitorThatCollides(g, h);
    }
    if h + "|" <= g + "|" {
      var n := MonitorThatCollides(h, g);
    }
  }

  lemma MonitorThatCollides(g: string, h: string) returns (m: string)
    requires g != h && g + "|" <= h + "|"
    ensures m != "" && ThrottleKey(g, m) == ThrottleKey(h, "m")
  {
    var k := ThrottleKey(h, "m");
    assert k == (h + "|") + "m" && g + "|" == k[..|g| + 1];
    m := k[|g| + 1..];
    assert m[|m| - 1] == 'm';
  }

  const Hourly := Policy(true, true, true, true, true, 3600, ["n"])

  /** Group "a" with monitor "b|c", and group "a|b" with monitor "c". */
  function Collided(other: bool, prev: string, curr: string, at: Time): Evaluation {
    Evaluation(map["a" := Hourly, "a|b" := Hourly], if other then "a|b" else "a", if other then "c" else "b|c", prev,
      curr, at)
  }

  lemma SameKey()
    ensures ThrottleKey("a", "b|c") == ThrottleKey("a|b", "c") == "a|b|c"
  {
  }

  /**
   * What a shared key does: the first alert of one group and monitor is suppressed because the other alerted,
   * and a recovery of the one lets the other alert again within its hour.
   */
  lemma CollisionHappens() returns (es: seq<Evaluation>)
    ensures Exec(Init, es).log ==
            [Alert("a", "b|c", 0, 3600 * SECOND), Suppressed("a|b", "c", SECOND, 3600 * SECOND),
             Recovery("a|b", "c", 2 * SECOND), Alert("a", "b|c", 3 * SECOND, 3600 * SECOND)]
  {
    DownAndHealthy();
    SameKey();
    var e1, e2 := Collided(false, "Healthy", "Down", 0), Collided(true, "Healthy", "Down", SECOND);
    var e3, e4 := Collided(true, "Down", "Healthy", 2 * SECOND), Collided(false, "Healthy", "Down", 3 * SECOND);
    var s1 := Evaluate(Init, e1);
    assert s1 == State(map["a|b|c" := 0], [Alert("a", "b|c", 0, 3600 * SECOND)]);
    var s2 := Evaluate(s1, e2);
    assert s2 == s1.(log := s1.log + [Suppressed("a|b", "c", SECOND, 3600 * SECOND)]);
    var s3 := Evaluate(s2, e3);
    assert s3 == State(map[], s2.log + [Recovery("a|b", "c", 2 * SECOND)]);
    es := [e1] + [e2] + [e3] + [e4];
    ExecAppend(Init, [], e1);
    ExecAppend(Init, [e1], e2);
    ExecAppend(Init, [e1] + [e2], e3);
    ExecAppend(Init, [e1] + [e2] + [e3], e4);
    assert [] + [e1] == [e1];
  }

  /** Ids without the separator never share a key. */
  lemma KeysAreDistinct(g: string, m: string, h: string, n: string)
    requires '|' !in g && '|' !in h && ThrottleKey(g, m) == ThrottleKey(h, n)
    ensures g == h && m == n
  {
    var k := ThrottleKey(g, m);
    assert k[|g|] == '|' && k[|h|] == '|';
    assert forall i | 0 <= i < |g| :: k[i] == g[i];
    assert forall i | 0 <= i < |h| :: k[i] == h[i];
    assert |g| == |h|;
    assert g == k[..|g|] == h && m == k[|g| + 1..] == n;
  }

  // ---------- The dispatcher object ----------

  /** The evaluations of one status change, in the order of the monitor's groups. */
  function Change(groups: map<string, Policy>, monitor: string, groupIds: seq<string>, prev: string, curr: string,
                  at: Time): seq<Evaluation> {
    seq(|groupIds|, i requires 0 <= i < |groupIds| => Evaluation(groups, groupIds[i], monitor, prev, curr, at))
  }

  lemma {:induction false} ExecAppend(s: State, es: seq<Evaluation>, e: Evaluation)
    ensures Exec(s, es + [e]) == Evaluate(Exec(s, es), e)
    decreases |es|
  {
    if es == [] {
      assert [e][1..] == [];
    } else {
      assert (es + [e])[1..] == es[1..] + [e];
      ExecAppend(Evaluate(s, es[0]), es[1..], e);
    }
  }

  class Dispatcher {
    var last: map<string, Time>
    ghost var log: seq<Entry>

    ghost function Now(): State
      reads this
    {
      State(last, log)
    }

    constructor ()
      ensures Now() == Init
    {
      last, log := map[], [];
    }

    method ResetThrottle(group: string, monitor: string)
      modifies this`last
      ensures last == old(last) - {group + "|" + monitor}
    {
      last := last - {ThrottleKey(group, monitor)};
    }

    method AllowThrottle(group: string, monitor: string, minIntervalSeconds: nat, now: Time) returns (ok: bool)
      modifies this`last
      ensures ok == Allowed(old(last), ThrottleKey(group, monitor), minIntervalSeconds * SECOND, now)
      ensures var key := group + "|" + monitor;
              && (ok <==> minIntervalSeconds == 0 || key !in old(last)
                          || now >= old(last)[key] + minIntervalSeconds * 1_000_000_000)
              && last == if ok && minIntervalSeconds > 0 then old(last)[key := now] else old(last)
    {
      if minIntervalSeconds == 0 {
        return true;
      }
      var key := ThrottleKey(group, monitor);
      var window := minIntervalSeconds * SECOND;
      if key in last && now - last[key] < window {
        return false;
      }
      last := last[key := now];
      ok := true;
    }

    method OnMonitorStatusChange(groups: map<string, Policy>, monitor: string, groupIds: seq<string>, prev: string,
                                 curr: string, at: Time)
      modifies this
      ensures Now() == Exec(old(Now()), Change(groups, monitor, groupIds, prev, curr, at))
    {
      ghost var es := Change(groups, monitor, groupIds, prev, curr, at);
      ghost var start := Now();
      if Normalize(prev) == Normalize(curr) {
        NothingFires(start, es);
        return;
      }
      for i := 0 to |groupIds|
        invariant Now() == Exec(start, es[..i])
      {
        ExecAppend(start, es[..i], es[i]);
        assert es[..i] + [es[i]] == es[..i + 1];
        var group := groupIds[i];
        if group in groups {
          var policy := groups[group];
          if policy.enabled && |policy.notifyGroupIds| > 0 && ShouldFire(policy, prev, curr) {
            if Normalize(curr) == "Healthy" {
              ResetThrottle(group, monitor);
              log := log + [Recovery(group, monitor, at)];
            } else {
              var allowed := AllowThrottle(group, monitor, policy.minIntervalSeconds, at);
              var interval := policy.minIntervalSeconds * SECOND;
              log := log + [if allowed then Alert(group, monitor, at, interval)
                            else Suppressed(group, monitor, at, interval)];
            }
          }
        }
      }
      assert es[..|groupIds|] == es;
    }
  }

  lemma {:induction false} NothingFires(s: State, es: seq<Evaluation>)
    requires forall i | 0 <= i < |es| :: !Fires(es[i])
    ensures Exec(s, es) == s
    decreases |es|
  {
    if es != [] {
      NothingFires(s, es[1..]);
    }
  }
}
