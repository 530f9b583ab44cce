/** Choosing a ClickHouse server, and trying one after the other while they are down. */
module Failover {
  import opened Arithmetic

  // LastRequest and Bad of a ClickhouseServer; times are clock readings.
  datatype Server = Server(last: int, bad: bool)

  // A bad server is tried again when it has been left alone for longer than the cool-down.
  predicate Eligible(s: Server, now: int, cooldown: int) {
    !s.bad || now - s.last > cooldown
  }

  // The server the loop of GetNextServer ends with: the least recently used eligible one, the first of equals; -1 if
  // there is none.
  function Choice(ss: seq<Server>, now: int, cooldown: int): (k: int)
    ensures -1 <= k < |ss|
    ensures k == -1 <==> forall i | 0 <= i < |ss| :: !Eligible(ss[i], now, cooldown)
    ensures k >= 0 ==> Eligible(ss[k], now, cooldown)
    ensures k >= 0 ==> forall i | 0 <= i < |ss| && Eligible(ss[i], now, cooldown) ::
              ss[k].last <= ss[i].last && (i < k ==> ss[k].last < ss[i].last)
  {
    if ss == [] then -1
    else
      var pre, s := ss[..|ss| - 1], ss[|ss| - 1];
      var k := Choice(pre, now, cooldown);
      if !Eligible(s, now, cooldown) then k
      else if k >= 0 && pre[k].last - s.last <= 0 then k
      else |ss| - 1
  }

  lemma ChoiceSnoc(pre: seq<Server>, s: Server, now: int, cooldown: int)
    ensures var k := Choice(pre, now, cooldown);
            Choice(pre + [s], now, cooldown)
            == if !Eligible(s, now, cooldown) || (k >= 0 && pre[k].last - s.last <= 0) then k else |pre|
    ensures Choice([], now, cooldown) == -1
  {
    assert (pre + [s])[..|pre|] == pre;
  }

  // The servers whose cool-down is over are forgiven.
  function Revived(ss: seq<Server>, now: int, cooldown: int): (r: seq<Server>)
    ensures |r| == |ss|
  {
    seq(|ss|, i requires 0 <= i < |ss| => ss[i].(bad := !Eligible(ss[i], now, cooldown)))
  }

  // The servers after one call that reads the clock first at now and then, if it found one, at stamp.
  function Picked(ss: seq<Server>, now: int, stamp: int, cooldown: int): (r: seq<Server>)
    ensures |r| == |ss|
  {
    var k := Choice(ss, now, cooldown);
    var r := Revived(ss, now, cooldown);
    if k < 0 then r else r[k := Server(stamp, false)]
  }

  // What the network and the clock do to one attempt.
  datatype Attempt = Attempt(now: int, stamp: int, down: bool)

  datatype Outcome = Answered(server: nat) | NoServers | Unfinished

  // The loop of SendQuery over what the environment does: the outcome and the servers tried.
  function Tries(ss: seq<Server>, cooldown: int, script: seq<Attempt>): (Outcome, seq<nat>)
    decreases |script|
  {
    if script == [] then (Unfinished, [])
    else
      var a := script[0];
      var k := Choice(ss, a.now, cooldown);
      if k < 0 then (NoServers, [])
      else if !a.down then (Answered(k), [k])
      else
        var (outcome, rest) := Tries(Failed(ss, a, cooldown), cooldown, script[1..]);
        (outcome, [k as nat] + rest)
  }

  // The servers after an attempt that found its server down.
  function Failed(ss: seq<Server>, a: Attempt, cooldown: int): (r: seq<Server>)
    requires Choice(ss, a.now, cooldown) >= 0
    ensures |r| == |ss|
  {
    Picked(ss, a.now, a.stamp, cooldown)[Choice(ss, a.now, cooldown) := Server(a.stamp, true)]
  }

  // The servers it leaves.
  function Left(ss: seq<Server>, cooldown: int, script: seq<Attempt>): (r: seq<Server>)
    ensures |r| == |ss|
    decreases |script|
  {
    if script == [] then ss
    else
      var a := script[0];
      if Choice(ss, a.now, cooldown) < 0 then ss
      else if !a.down then Picked(ss, a.now, a.stamp, cooldown)
      else Left(Failed(ss, a, cooldown), cooldown, script[1..])
  }

  class Clickhouse {
    const cooldown: int
    var servers: seq<Server>

    constructor (servers: seq<Server>, cooldown: int)
      ensures this.servers == servers && this.cooldown == cooldown
    {
      this.servers, this.cooldown := servers, cooldown;
    }

    method GetNextServer(now: int, stamp: int) returns (k: int)
      modifies this
      ensures k == Choice(old(servers), now, cooldown)
      ensures servers == Picked(old(servers), now, stamp, cooldown)
      ensures k >= 0 ==> servers[k] == Server(stamp, false)
      ensures forall i | 0 <= i < |servers| && i != k ::
                var s := old(servers[i]); servers[i] == s.(bad := s.bad && now - s.last <= cooldown)
    {
      hide Choice;
      k := -1;
      var i := 0;
      ghost var was := servers;
      ChoiceSnoc([], Server(0, false), now, cooldown);
      assert was[..0] == [];
      while i < |servers|
        invariant 0 <= i <= |servers| == |was|
        invariant forall j | 0 <= j < i :: servers[j] == was[j].(bad := !Eligible(was[j], now, cooldown))
        invariant forall j | i <= j < |was| :: servers[j] == was[j]
        invariant k == Choice(was[..i], now, cooldown)
      {
        ChoiceSnoc(was[..i], was[i], now, cooldown);
        assert was[..i + 1] == was[..i] + [was[i]];
        var s := servers[i];
        if s.bad && now - s.last > cooldown {
          s := s.(bad := false);
          servers := servers[i := s];
        }
        if !s.bad {
          if k < 0 || servers[k].last - s.last > 0 {
            k := i;
          }
        }
        i := i + 1;
      }
      assert was[..i] == was;
      assert servers == Revived(was, now, cooldown);
      if k >= 0 {
        servers := servers[k := servers[k].(last := stamp)];
      }
    }

    method SendQuery(script: seq<Attempt>) returns (outcome: Outcome, tried: seq<nat>)
      modifies this
      ensures (outcome, tried) == Tries(old(servers), cooldown, script)
      ensures outcome.NoServers? ==>
                |tried| < |script|
                && forall i | 0 <= i < |servers| :: !Eligible(servers[i], script[|tried|].now, cooldown)
      ensures servers == Left(old(servers), cooldown, script)
      ensures outcome.Answered? ==>
                && 0 < |tried| <= |script| && !script[|tried| - 1].down
                && outcome.server == tried[|tried| - 1] < |servers|
                && servers[outcome.server] == Server(script[|tried| - 1].stamp, false)
      ensures outcome.Unfinished? ==> |tried| == |script|
    {
      hide Tries, Choice, Picked, Failed, Revived, Left;
      tried := [];
      var n := 0;
      ghost var whole := Tries(servers, cooldown, script);
      assert script[0..] == script && tried + whole.1 == whole.1;
      while n < |script|
        invariant 0 <= n <= |script| && |tried| == n
        invariant var rest := Tries(servers, cooldown, script[n..]);
                  whole == (rest.0, tried + rest.1)
        invariant Left(servers, cooldown, script[n..]) == Left(old(servers), cooldown, script)
      {
        ghost var before, left := servers, script[n..];
        assert left[1..] == script[n + 1..];
        OneTry(servers, cooldown, left);
        var a := script[n];
        var k := GetNextServer(a.now, a.stamp);
        if k < 0 {
          NoneRevived(before, a.now, a.stamp, cooldown);
          assert tried + [] == tried;
          return NoServers, tried;
        }
        tried := tried + [k as nat];
        if !a.down {
          return Answered(k), tried;
        }
        servers := servers[k := servers[k].(bad := true)];
        n := n + 1;
        ghost var rest := Tries(servers, cooldown, script[n..]);
        assert tried[..n - 1] + ([k as nat] + rest.1) == tried + rest.1;
      }
      assert script[n..] == [];
      NoTry(servers, cooldown);
      assert tried + [] == tried;
      outcome := Unfinished;
    }
  }

  lemma OneTry(ss: seq<Server>, cooldown: int, script: seq<Attempt>)
    requires script != []
    ensures var a := script[0];
            var k := Choice(ss, a.now, cooldown);
            Tries(ss, cooldown, script)
            == if k < 0 then (NoServers, [])
               else if !a.down then (Answered(k), [k])
               else
                 var next := Picked(ss, a.now, a.stamp, cooldown);
                 var rest := Tries(next[k := next[k].(bad := true)], cooldown, script[1..]);
                 (rest.0, [k as nat] + rest.1)
    ensures var a := script[0];
            var k := Choice(ss, a.now, cooldown);
            var next := Picked(ss, a.now, a.stamp, cooldown);
            Left(ss, cooldown, script)
            == if k < 0 then ss
               else if !a.down then next
               else Left(next[k := next[k].(bad := true)], cooldown, script[1..])
  {
  }

  lemma NoTry(ss: seq<Server>, cooldown: int)
    ensures Tries(ss, cooldown, []) == (Unfinished, []) && Left(ss, cooldown, []) == ss
  {
  }

  lemma NoneRevived(ss: seq<Server>, now: int, stamp: int, cooldown: int)
    requires Choice(ss, now, cooldown) < 0
    ensures Picked(ss, now, stamp, cooldown) == ss
    ensures forall i | 0 <= i < |ss| :: !Eligible(ss[i], now, cooldown)
  {
  }

  // ---------------------------------------------------------------- how long the loop runs

  function Healthy(ss: seq<Server>): nat {
    if ss == [] then 0 else Healthy(ss[..|ss| - 1]) + (if ss[|ss| - 1].bad then 0 else 1)
  }

  // Up to this moment no cool-down ends.
  predicate StillCooling(ss: seq<Server>, cooldown: int, until: int) {
    forall i | 0 <= i < |ss| && ss[i].bad :: until - ss[i].last <= cooldown
  }

  lemma {:induction false} HealthyUpdate(ss: seq<Server>, k: nat, s: Server)
    requires k < |ss|
    ensures Healthy(ss[k := s]) == Healthy(ss) - (if ss[k].bad then 0 else 1) + (if s.bad then 0 else 1)
  {
    var n := |ss| - 1;
    if k < n {
      HealthyUpdate(ss[..n], k, s);
      assert ss[k := s][..n] == ss[..n][k := s];
    } else {
      assert ss[k := s][..n] == ss[..n];
    }
  }

  // Clock readings that do not pass this moment.
  predicate Within(script: seq<Attempt>, until: int) {
    forall i | 0 <= i < |script| :: script[i].now <= until
  }

  // A server tried stays cool until then.
  predicate Recent(script: seq<Attempt>, cooldown: int, until: int) {
    forall i | 0 <= i < |script| :: until - script[i].stamp <= cooldown
  }

  /** If no cool-down ends meanwhile, the loop tries each server that was not bad at most once, and no other. */
  lemma {:induction false} TriesHealthyOnce(ss: seq<Server>, cooldown: int, script: seq<Attempt>, until: int)
    requires StillCooling(ss, cooldown, until) && Within(script, until) && Recent(script, cooldown, until)
    ensures |Tries(ss, cooldown, script).1| <= Healthy(ss)
    ensures |script| > Healthy(ss) ==> !Tries(ss, cooldown, script).0.Unfinished?
    decreases |script|
  {
    if script != [] {
      var a := script[0];
      var k := Choice(ss, a.now, cooldown);
      if k >= 0 {
        assert !ss[k].bad;
        assert Revived(ss, a.now, cooldown) == ss;
        HealthyUpdate(ss, k, Server(a.stamp, true));
        if a.down {
          assert Failed(ss, a, cooldown) == ss[k := Server(a.stamp, true)];
          TriesHealthyOnce(ss[k := Server(a.stamp, true)], cooldown, script[1..], until);
        } else {
          HealthyPositive(ss, k);
        }
      }
    }
  }

  lemma HealthyPositive(ss: seq<Server>, k: nat)
    requires k < |ss| && !ss[k].bad
    ensures Healthy(ss) >= 1
  {
    HealthyUpdate(ss, k, Server(0, true));
  }

  function Sum(counts: seq<nat>): nat {
    if counts == [] then 0 else Sum(counts[..|counts| - 1]) + counts[|counts| - 1]
  }

  lemma {:induction false} SumUpdate(counts: seq<nat>, k: nat, c: nat)
    requires k < |counts|
    ensures Sum(counts[k := c]) == Sum(counts) - counts[k] + c
  {
    var n := |counts| - 1;
    if k < n {
      SumUpdate(counts[..n], k, c);
      assert counts[k := c][..n] == counts[..n][k := c];
    } else {
      assert counts[k := c][..n] == counts[..n];
    }
  }

  lemma {:induction false} SumBound(counts: seq<nat>, most: nat)
    requires forall i | 0 <= i < |counts| :: counts[i] <= most
    ensures Sum(counts) <= |counts| * most
  {
    if counts != [] {
      SumBound(counts[..|counts| - 1], most);
    }
  }

  // c cool-downs.
  function Lag(c: nat, cooldown: int): int {
    if c == 0 then 0 else Lag(c - 1, cooldown) + cooldown
  }

  // Each server tried c times had its last attempt c - 1 cool-downs after the start; if it has been forgiven since, the
  // clock is c cool-downs after the start.
  predicate Spaced(ss: seq<Server>, counts: seq<nat>, cooldown: int, start: int, clock: int) {
    && |counts| == |ss|
    && forall i | 0 <= i < |ss| && counts[i] > 0 ::
         && start + Lag(counts[i] - 1, cooldown) <= ss[i].last <= clock
         && (!ss[i].bad ==> start + Lag(counts[i], cooldown) <= clock)
  }

  // A clock that does not run backwards.
  predicate Forward(script: seq<Attempt>, clock: int, end: int) {
    script != [] ==>
      clock <= script[0].now <= script[0].stamp <= end && Forward(script[1..], script[0].stamp, end)
  }

  lemma {:induction false} LagIsProduct(c: nat, cooldown: int)
    ensures Lag(c, cooldown) == c * cooldown
  {
    if c > 0 {
      LagIsProduct(c - 1, cooldown);
      assert (c - 1) * cooldown + cooldown == c * cooldown;
    }
  }

  lemma CountFits(c: nat, cooldown: int, span: int)
    requires c > 0 && cooldown > 0 && 0 <= span && Lag(c - 1, cooldown) <= span
    ensures c <= span / cooldown + 1
  {
    LagIsProduct(c - 1, cooldown);
    DivideBoth(c - 1, cooldown, span);
  }

  // One more failed attempt keeps the spacing.
  lemma SpacedStep(ss: seq<Server>, counts: seq<nat>, cooldown: int, a: Attempt, start: int, clock: int)
    requires cooldown > 0 && start <= clock <= a.now <= a.stamp && Spaced(ss, counts, cooldown, start, clock)
    requires Choice(ss, a.now, cooldown) >= 0
    ensures var k := Choice(ss, a.now, cooldown);
            Spaced(Failed(ss, a, cooldown), counts[k := counts[k] + 1], cooldown, start, a.stamp)
  {
    hide Choice;
    var k := Choice(ss, a.now, cooldown);
    ChosenEligible(ss, a.now, cooldown);
  }

  lemma ChosenEligible(ss: seq<Server>, now: int, cooldown: int)
    requires Choice(ss, now, cooldown) >= 0
    ensures Eligible(ss[Choice(ss, now, cooldown)], now, cooldown)
  {
  }

  lemma SpacedSum(ss: seq<Server>, counts: seq<nat>, cooldown: int, start: int, end: int)
    requires cooldown > 0 && start <= end && Spaced(ss, counts, cooldown, start, end)
    ensures Sum(counts) <= |ss| * ((end - start) / cooldown + 1)
  {
    forall i | 0 <= i < |counts| ensures counts[i] <= (end - start) / cooldown + 1 {
      if counts[i] > 0 {
        CountFits(counts[i], cooldown, end - start);
      } else {
        DivideBoth(0, cooldown, end - start);
      }
    }
    DivideBoth(0, cooldown, end - start);
    SumBound(counts, (end - start) / cooldown + 1);
  }

  lemma SpacedLater(ss: seq<Server>, counts: seq<nat>, cooldown: int, start: int, clock: int, end: int)
    requires Spaced(ss, counts, cooldown, start, clock) && clock <= end
    ensures Spaced(ss, counts, cooldown, start, end)
  {
  }

  // Counting the attempts already made.
  lemma {:induction false} MoreTriesBounded(
      ss: seq<Server>, counts: seq<nat>, cooldown: int, script: seq<Attempt>, start: int, clock: int, end: int)
    requires cooldown > 0 && start <= clock <= end && Forward(script, clock, end)
    requires Spaced(ss, counts, cooldown, start, clock)
    ensures Sum(counts) + |Tries(ss, cooldown, script).1| <= |ss| * ((end - start) / cooldown + 1)
    decreases |script|
  {
    hide Choice, Spaced, Failed, Picked, Revived;
    SpacedLater(ss, counts, cooldown, start, clock, end);
    SpacedSum(ss, counts, cooldown, start, end);
    if script != [] {
      var a := script[0];
      var k := Choice(ss, a.now, cooldown);
      if k >= 0 {
        SameLength(ss, counts, cooldown, start, clock);
        var more, after := counts[k := counts[k] + 1], Failed(ss, a, cooldown);
        SumUpdate(counts, k, counts[k] + 1);
        SpacedStep(ss, counts, cooldown, a, start, clock);
        SpacedLater(after, more, cooldown, start, a.stamp, end);
        SpacedSum(after, more, cooldown, start, end);
        if a.down {
          MoreTriesBounded(after, more, cooldown, script[1..], start, a.stamp, end);
        }
      }
    }
  }

  /**
   In general, with a positive cool-down, a call that lasts for a time T makes at most n * (T / cooldown + 1) attempts
   on n servers, whatever their state.
   */
  lemma TriesBounded(ss: seq<Server>, cooldown: int, script: seq<Attempt>, start: int, end: int)
    requires cooldown > 0 && start <= end && Forward(script, start, end)
    ensures |Tries(ss, cooldown, script).1| <= |ss| * ((end - start) / cooldown + 1)
  {
    hide Tries, Forward;
    var none: seq<nat> := seq(|ss|, _ => 0);
    SumBound(none, 0);
    MoreTriesBounded(ss, none, cooldown, script, start, start, end);
  }

  lemma SameLength(ss: seq<Server>, counts: seq<nat>, cooldown: int, start: int, clock: int)
    requires Spaced(ss, counts, cooldown, start, clock)
    ensures |counts| == |ss|
  {
  }

  // Every attempt takes longer than the cool-down, as when connection timeouts are longer than down_timeout.
  predicate Slow(ss: seq<Server>, cooldown: int, script: seq<Attempt>) {
    && (script != [] ==> forall i | 0 <= i < |ss| :: Eligible(ss[i], script[0].now, cooldown))
    && (forall i | 0 <= i < |script| :: script[i].down && script[i].now <= script[i].stamp)
    && (forall i, j | 0 <= i < j < |script| :: script[j].now - script[i].stamp > cooldown)
  }

  /** Then the loop never ends: however many attempts the environment grants, all are made and none is the last. */
  lemma {:induction false} SlowAttemptsNeverEnd(ss: seq<Server>, cooldown: int, script: seq<Attempt>)
    requires ss != [] && Slow(ss, cooldown, script)
    ensures Tries(ss, cooldown, script).0.Unfinished? && |Tries(ss, cooldown, script).1| == |script|
    decreases |script|
  {
    if script != [] {
      var a := script[0];
      var k := Choice(ss, a.now, cooldown);
      var after := Failed(ss, a, cooldown);
      assert forall i | 0 <= i < |ss| && i != k :: after[i] == ss[i].(bad := false);
      SlowAttemptsNeverEnd(after, cooldown, script[1..]);
    }
  }

  // ---------------------------------------------------------------- round robin

  // The servers after k calls with these clock stamps, all of them healthy.
  function AfterCalls(ss: seq<Server>, stamps: seq<int>, cooldown: int, k: nat): (r: seq<Server>)
    requires k <= |stamps|
    ensures |r| == |ss|
  {
    if k == 0 then ss
    else Picked(AfterCalls(ss, stamps, cooldown, k - 1), stamps[k - 1], stamps[k - 1], cooldown)
  }

  function NthChoice(ss: seq<Server>, stamps: seq<int>, cooldown: int, k: nat): int
    requires k < |stamps|
  {
    Choice(AfterCalls(ss, stamps, cooldown, k), stamps[k], cooldown)
  }

  // Whose turn it is at the k-th call of n servers.
  function Turn(k: nat, n: nat): (m: nat)
    requires n > 0
    ensures m < n && m <= k
  {
    if k == 0 then 0 else if Turn(k - 1, n) + 1 == n then 0 else Turn(k - 1, n) + 1
  }

  // The stamp of server i after k calls, when it is server m's turn.
  function StampOf(stamps: seq<int>, t0: int, n: nat, k: nat, m: nat, i: nat): int
    requires m <= k <= |stamps| && i < n && m < n
  {
    if i < m then stamps[k - m + i] else if k - m + i - n >= 0 then stamps[k - m + i - n] else t0
  }

  // After k calls: all are healthy, each with the stamp of its last turn.
  predicate Turned(ss: seq<Server>, stamps: seq<int>, t0: int, k: nat, m: nat) {
    && m <= k <= |stamps| && m < |ss|
    && forall i | 0 <= i < |ss| :: ss[i] == Server(StampOf(stamps, t0, |ss|, k, m, i), false)
  }

  predicate Ticking(stamps: seq<int>, t0: int) {
    && (forall i | 0 <= i < |stamps| :: t0 < stamps[i])
    && (forall i, j | 0 <= i < j < |stamps| :: stamps[i] < stamps[j])
  }

  // The least recently used of healthy servers is the one whose turn it is.
  lemma TurnChoice(ss: seq<Server>, stamps: seq<int>, t0: int, cooldown: int, k: nat, m: nat)
    requires Turned(ss, stamps, t0, k, m) && Ticking(stamps, t0) && k < |stamps|
    ensures Choice(ss, stamps[k], cooldown) == m
  {
    var c := Choice(ss, stamps[k], cooldown);
    assert Eligible(ss[m], stamps[k], cooldown);
    assert c >= 0;
    assert ss[c].last <= ss[m].last;
    assert ss[m].last == StampOf(stamps, t0, |ss|, k, m, m);
    assert ss[c].last == StampOf(stamps, t0, |ss|, k, m, c);
    hide Choice;
  }

  lemma TurnStep(ss: seq<Server>, stamps: seq<int>, t0: int, cooldown: int, k: nat, m: nat)
    requires Turned(ss, stamps, t0, k, m) && Ticking(stamps, t0) && k < |stamps|
    ensures Turned(Picked(ss, stamps[k], stamps[k], cooldown), stamps, t0, k + 1, if m + 1 == |ss| then 0 else m + 1)
  {
    hide Choice, StampOf;
    TurnChoice(ss, stamps, t0, cooldown, k, m);
    assert Revived(ss, stamps[k], cooldown) == ss;
    forall i | 0 <= i < |ss| {
      StampShifts(stamps, t0, |ss|, k, m, i);
    }
  }

  lemma StampShifts(stamps: seq<int>, t0: int, n: nat, k: nat, m: nat, i: nat)
    requires m <= k < |stamps| && i < n && m < n
    ensures StampOf(stamps, t0, n, k + 1, if m + 1 == n then 0 else m + 1, i)
         == if i == m then stamps[k] else StampOf(stamps, t0, n, k, m, i)
  {
  }

  lemma {:induction false} Turns(ss: seq<Server>, stamps: seq<int>, t0: int, cooldown: int, k: nat)
    requires ss != [] && Ticking(stamps, t0) && k <= |stamps|
    requires forall i | 0 <= i < |ss| :: ss[i] == Server(t0, false)
    ensures Turned(AfterCalls(ss, stamps, cooldown, k), stamps, t0, k, Turn(k, |ss|))
  {
    hide Picked;
    if k > 0 {
      Turns(ss, stamps, t0, cooldown, k - 1);
      TurnStep(AfterCalls(ss, stamps, cooldown, k - 1), stamps, t0, cooldown, k - 1, Turn(k - 1, |ss|));
    }
  }

  lemma {:induction false} TurnAfter(k: nat, d: nat, n: nat)
    requires n > 0 && d <= n
    ensures Turn(k + d, n) == if Turn(k, n) + d < n then Turn(k, n) + d else Turn(k, n) + d - n
  {
    if d > 0 {
      TurnAfter(k, d - 1, n);
      assert k + d - 1 == k + (d - 1);
    }
  }

  // The k-th call goes to the server whose turn it is.
  lemma NthTurn(ss: seq<Server>, stamps: seq<int>, t0: int, cooldown: int, k: nat)
    requires ss != [] && Ticking(stamps, t0) && k < |stamps|
    requires forall i | 0 <= i < |ss| :: ss[i] == Server(t0, false)
    ensures NthChoice(ss, stamps, cooldown, k) == Turn(k, |ss|)
  {
    Turns(ss, stamps, t0, cooldown, k);
    TurnChoice(AfterCalls(ss, stamps, cooldown, k), stamps, t0, cooldown, k, Turn(k, |ss|));
  }

  /**
   Round robin: healthy servers that start level are chosen in turn, so any n calls in a row reach n different servers
   and the choice repeats every n calls.
   */
  lemma RoundRobin(ss: seq<Server>, stamps: seq<int>, t0: int, cooldown: int, k: nat, d: nat)
    requires ss != [] && Ticking(stamps, t0) && 0 < d <= |ss| && k + d < |stamps|
    requires forall i | 0 <= i < |ss| :: ss[i] == Server(t0, false)
    ensures NthChoice(ss, stamps, cooldown, k + d) == NthChoice(ss, stamps, cooldown, k) <==> d == |ss|
    ensures 0 <= NthChoice(ss, stamps, cooldown, k) < |ss|
  {
    hide NthChoice, Turn;
    NthTurn(ss, stamps, t0, cooldown, k);
    NthTurn(ss, stamps, t0, cooldown, k + d);
    TurnAfter(k, d, |ss|);
  }

  // ---------------------------------------------------------------- retries that all fail

  function Stamps(script: seq<Attempt>): (stamps: seq<int>)
    ensures |stamps| == |script|
  {
    seq(|script|, i requires 0 <= i < |script| => script[i].stamp)
  }

  // A call whose attempts are all in vain, on a clock that moves on.
  predicate AllDown(script: seq<Attempt>, t0: int) {
    && (forall i | 0 <= i < |script| :: script[i].down && t0 < script[i].stamp && script[i].now <= script[i].stamp)
    && (forall i, j | 0 <= i < j < |script| :: script[i].stamp <= script[j].now && script[i].stamp < script[j].stamp)
    && (forall i, j | 0 <= i < j < |script| :: script[i].now <= script[j].now)
  }

  // After k of them, when it is server m's turn: each server has the stamp of its last attempt, and is bad unless it
  // has not been tried or was forgiven since.
  predicate Marked(ss: seq<Server>, script: seq<Attempt>, t0: int, cooldown: int, k: nat, m: nat) {
    && m <= k <= |script| && m < |ss| && (k < |ss| ==> m == k)
    && forall i | 0 <= i < |ss| ::
         && ss[i].last == StampOf(Stamps(script), t0, |ss|, k, m, i)
         && (i >= k ==> !ss[i].bad)
         && (i < k && !ss[i].bad ==> script[k - 1].now - ss[i].last > cooldown)
  }

  // Attempt j finds the server it comes back to out of its cool-down.
  predicate Cooled(script: seq<Attempt>, n: nat, cooldown: int, j: nat)
    requires n <= j < |script|
  {
    script[j].now - script[j - n].stamp > cooldown
  }

  // The server whose turn it is is chosen, or none is.
  lemma MarkedChoice(ss: seq<Server>, script: seq<Attempt>, t0: int, cooldown: int, k: nat, m: nat)
    requires Marked(ss, script, t0, cooldown, k, m) && AllDown(script, t0) && k < |script|
    ensures Choice(ss, script[k].now, cooldown)
         == if k < |ss| || Cooled(script, |ss|, cooldown, k) then m else -1
  {
    hide Choice;
    var n, now := |ss|, script[k].now;
    var c := Choice(ss, now, cooldown);
    assert ss[m].last == if k < n then t0 else script[k - n].stamp;
    forall i | 0 <= i < n && i != m ensures ss[i].last > ss[m].last || (i > m && k < n && ss[i].last == t0) {
      MarkedOrder(ss, script, t0, cooldown, k, m, i);
    }
    if k < n || Cooled(script, n, cooldown, k) {
      assert Eligible(ss[m], now, cooldown);
    } else {
      forall i | 0 <= i < n ensures !Eligible(ss[i], now, cooldown) {
        assert ss[i].last >= ss[m].last;
      }
    }
  }

  lemma MarkedOrder(ss: seq<Server>, script: seq<Attempt>, t0: int, cooldown: int, k: nat, m: nat, i: nat)
    requires Marked(ss, script, t0, cooldown, k, m) && AllDown(script, t0) && k < |script| && i < |ss| && i != m
    ensures ss[i].last > ss[m].last || (i > m && k < |ss| && ss[i].last == t0)
  {
  }

  lemma MarkedStep(ss: seq<Server>, script: seq<Attempt>, t0: int, cooldown: int, k: nat, m: nat)
    requires Marked(ss, script, t0, cooldown, k, m) && AllDown(script, t0) && k < |script|
    requires Choice(ss, script[k].now, cooldown) == m
    ensures Marked(Failed(ss, script[k], cooldown), script, t0, cooldown, k + 1, if m + 1 == |ss| then 0 else m + 1)
  {
    hide Choice, StampOf;
    var after := Failed(ss, script[k], cooldown);
    forall i | 0 <= i < |ss|
      ensures after[i].last == StampOf(Stamps(script), t0, |ss|, k + 1, if m + 1 == |ss| then 0 else m + 1, i)
    {
      StampShifts(Stamps(script), t0, |ss|, k, m, i);
    }
  }

  lemma {:induction false} RetriesFrom(ss: seq<Server>, script: seq<Attempt>, t0: int, cooldown: int, k: nat, m: nat)
    requires Marked(ss, script, t0, cooldown, k, m) && AllDown(script, t0)
    ensures Tries(ss, cooldown, script[k..]).0.Unfinished?
       <==> forall j | k <= j < |script| && |ss| <= j :: Cooled(script, |ss|, cooldown, j)
    ensures !Tries(ss, cooldown, script[k..]).0.Answered?
    decreases |script| - k
  {
    hide Choice, Failed, Marked, AllDown, Cooled;
    assert m <= k <= |script| && m < |ss| by {
      MarkedBounds(ss, script, t0, cooldown, k, m);
    }
    if k < |script| {
      var rest := script[k..];
      assert rest[0] == script[k] && rest[1..] == script[k + 1..];
      assert script[k].down by {
        DownAt(script, t0, k);
      }
      MarkedChoice(ss, script, t0, cooldown, k, m);
      if k < |ss| || Cooled(script, |ss|, cooldown, k) {
        MarkedStep(ss, script, t0, cooldown, k, m);
        RetriesFrom(Failed(ss, script[k], cooldown), script, t0, cooldown, k + 1, if m + 1 == |ss| then 0 else m + 1);
      }
    }
  }

  lemma MarkedBounds(ss: seq<Server>, script: seq<Attempt>, t0: int, cooldown: int, k: nat, m: nat)
    requires Marked(ss, script, t0, cooldown, k, m)
    ensures m <= k <= |script| && m < |ss|
  {
  }

  lemma DownAt(script: seq<Attempt>, t0: int, k: nat)
    requires AllDown(script, t0) && k < |script|
    ensures script[k].down
  {
  }

  /**
   When the loop of SendQuery does not end: with n healthy servers that start level, and every attempt in vain, it
   goes on if and only if each attempt from the n-th on comes later than a cool-down after the attempt n before it. It
   then never gives up, however long the script; otherwise it gives up at the first attempt that comes too early.
   */
  lemma RetriesExactly(ss: seq<Server>, script: seq<Attempt>, t0: int, cooldown: int)
    requires ss != [] && AllDown(script, t0) && forall i | 0 <= i < |ss| :: ss[i] == Server(t0, false)
    ensures Tries(ss, cooldown, script).0.Unfinished?
       <==> forall j | |ss| <= j < |script| :: Cooled(script, |ss|, cooldown, j)
    ensures !Tries(ss, cooldown, script).0.Unfinished? ==> Tries(ss, cooldown, script).0.NoServers?
  {
    hide Tries, AllDown;
    assert script[0..] == script;
    RetriesFrom(ss, script, t0, cooldown, 0, 0);
  }

  // From the choice of a server to the next choice it takes d or more; d or less.
  predicate AtLeast(script: seq<Attempt>, d: int) {
    forall i | 0 < i < |script| :: script[i].now - script[i - 1].stamp >= d
  }

  predicate AtMost(script: seq<Attempt>, d: int) {
    forall i | 0 < i < |script| :: script[i].stamp - script[i - 1].stamp <= d
  }

  lemma {:induction false} LongGap(script: seq<Attempt>, t0: int, d: int, j: nat, c: nat)
    requires AllDown(script, t0) && AtLeast(script, d) && 0 < c <= j < |script|
    ensures script[j].now - script[j - c].stamp >= c * d
  {
    if c > 1 {
      LongGap(script, t0, d, j - 1, c - 1);
      assert (c - 1) * d + d == c * d;
    }
  }

  lemma {:induction false} ShortGap(script: seq<Attempt>, d: int, j: nat, c: nat)
    requires AtMost(script, d) && 0 < c <= j < |script|
    ensures script[j].stamp - script[j - c].stamp <= c * d
  {
    if c > 1 {
      ShortGap(script, d, j - 1, c - 1);
      assert (c - 1) * d + d == c * d;
    }
  }

  /**
   So what counts is n attempts against the cool-down: if every attempt takes at least d and n * d is longer than the
   cool-down the loop never ends; if every attempt takes at most d and n * d is not longer, it ends with the n-th.
   */
  lemma RetriesByDuration(ss: seq<Server>, script: seq<Attempt>, t0: int, cooldown: int, d: int)
    requires ss != [] && AllDown(script, t0) && forall i | 0 <= i < |ss| :: ss[i] == Server(t0, false)
    ensures AtLeast(script, d) && |ss| * d > cooldown ==> Tries(ss, cooldown, script).0.Unfinished?
    ensures AtMost(script, d) && |ss| * d <= cooldown && |script| > |ss| ==> Tries(ss, cooldown, script).0.NoServers?
  {
    hide Tries;
    var n := |ss|;
    RetriesExactly(ss, script, t0, cooldown);
    if AtLeast(script, d) && n * d > cooldown {
      forall j | n <= j < |script| ensures Cooled(script, n, cooldown, j) {
        LongGap(script, t0, d, j, n);
      }
    }
    if AtMost(script, d) && n * d <= cooldown && |script| > n {
      ShortGap(script, d, n, n);
      assert !Cooled(script, n, cooldown, n);
    }
  }
}
