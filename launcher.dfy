/**
 * The system launcher: which services it starts, in which order, when it
 * gives up, and how it watches the started processes. Process creation,
 * port probes, credential lookups and the liveness polls are inputs; the
 * table of running processes keeps the service names in insertion order,
 * and `sys.exit` after cleanup is an outcome of the operation that calls it.
 */
module Launcher {
  import opened Wrappers
  import opened PyText

  /** The four entries of `SERVICES`. */
  datatype Service = LlmServer | Middleware | Telegram | Sms

  /** The start order of `start_all_services`. */
  const StartOrder: seq<Service> := [LlmServer, Middleware, Telegram, Sms]

  /** The script each service runs; `is_llm_trainer_process` looks for these names. */
  const Scripts: seq<string> := ["llm_server.py", "middleware.py", "telegram_server.py", "sms_server.py"]

  /** The position of a service in the start order. */
  function Rank(s: Service): nat
  {
    match s
    case LlmServer => 0
    case Middleware => 1
    case Telegram => 2
    case Sms => 3
  }

  /**
   * `order` lists services by `rank`: the service at position `k` has rank
   * `k`, and a service whose rank is a position stands there.
   */
  predicate Ranked(order: seq<Service>, rank: Service -> nat) {
    && (forall k :: 0 <= k < |order| ==> rank(order[k]) == k)
    && (forall s :: rank(s) < |order| ==> order[rank(s)] == s)
  }

  /** The start order lists every service at its rank. */
  lemma StartOrderRanked()
    ensures Ranked(StartOrder, Rank)
    ensures forall s :: Rank(s) < |StartOrder|
  {
  }

  /* ---------- the `required` flags and the configuration check ---------- */

  /** The `required` flag of every service. */
  type Flags = map<Service, bool>

  /** Every service has a flag. */
  predicate Total(f: Flags) {
    f.Keys == {LlmServer, Middleware, Telegram, Sms}
  }

  /** The flags as `SERVICES` declares them: the two bots are optional. */
  const InitialRequired: Flags := map[LlmServer := true, Middleware := true, Telegram := false, Sms := false]

  predicate IsRequired(f: Flags, s: Service) {
    s in f && f[s]
  }

  /**
   * The credentials as the environment or `config.json` supply them (the
   * first truthy one of the two lookups).
   */
  datatype Credentials = Credentials(telegramToken: Option<string>, twilioSid: Option<string>, twilioToken: Option<string>)

  /** A service has its credentials: the bot token for Telegram, both Twilio values for SMS. */
  predicate Configured(c: Credentials, s: Service) {
    match s
    case Telegram => Truthy(c.telegramToken)
    case Sms => Truthy(c.twilioSid) && Truthy(c.twilioToken)
    case _ => true
  }

  /** The flag updates of `check_configuration`. */
  function Configure(f: Flags, c: Credentials): (g: Flags)
    requires Total(f)
    ensures Total(g)
    ensures forall s :: IsRequired(g, s) ==> IsRequired(f, s)
    ensures forall s :: IsRequired(g, s) <==> IsRequired(f, s) && Configured(c, s)
  {
    var f1 := if Configured(c, Telegram) then f else f[Telegram := false];
    if Configured(c, Sms) then f1 else f1[Sms := false]
  }

  /** With the declared flags the configuration check changes nothing: the bots are optional already. */
  lemma ConfigureInitial(c: Credentials)
    ensures Configure(InitialRequired, c) == InitialRequired
  {
    var g := Configure(InitialRequired, c);
    forall s | s in g ensures g[s] == InitialRequired[s] {
      assert IsRequired(g, s) <==> IsRequired(InitialRequired, s) && Configured(c, s);
    }
  }

  /* ---------- starting the services ---------- */

  /** What `start_service` yields: None (the process exited or raised), or the process. */
  datatype StartResult = Died | Alive(healthy: bool)

  /** The world the launcher meets: credentials, free ports, and how each start goes. */
  datatype Environment = Environment(credentials: Credentials, portFree: Service -> bool, start: Service -> StartResult)

  /** The fate of one service in `start_all_services`. */
  datatype Decision = Skip | Record | Abort

  function Decide(f: Flags, env: Environment, s: Service): Decision {
    if !IsRequired(f, s) && !Configured(env.credentials, s) then Skip
    else if !env.portFree(s) then (if IsRequired(f, s) then Abort else Skip)
    else if env.start(s).Alive? then Record
    else if IsRequired(f, s) then Abort
    else Skip
  }

  /**
   * A service is recorded exactly when its start was reached and its process
   * survived the startup delay (healthy or not); the launcher aborts exactly
   * on a required service whose port is taken or whose start failed.
   */
  lemma DecideRules(f: Flags, env: Environment, s: Service)
    ensures Decide(f, env, s) == Record <==>
      (IsRequired(f, s) || Configured(env.credentials, s)) && env.portFree(s) && env.start(s).Alive?
    ensures Decide(f, env, s) == Abort <==>
      IsRequired(f, s) && (!env.portFree(s) || env.start(s).Died?)
    ensures !IsRequired(f, s) && !Configured(env.credentials, s) ==> Decide(f, env, s) == Skip
  {
  }

  /** `running_processes[name] = process`: a new key goes last, an existing one keeps its place. */
  function Put(running: seq<Service>, s: Service): seq<Service> {
    if s in running then running else running + [s]
  }

  /** How `start_all_services` ends. */
  datatype StartOutcome =
    | AllStarted(running: seq<Service>)
    | StartAborted(failed: Service, running: seq<Service>)  // cleanup, then `sys.exit(1)`

  /** The decisions for every service in one environment. */
  function Plan(f: Flags, env: Environment): Service -> Decision {
    s => Decide(f, env, s)
  }

  /** The start loop over `order` from position `i` on, for given decisions. */
  function StartFrom(plan: Service -> Decision, order: seq<Service>, i: nat, running: seq<Service>): StartOutcome
    decreases |order| - i
  {
    if i >= |order| then AllStarted(running)
    else match plan(order[i])
      case Skip => StartFrom(plan, order, i + 1, running)
      case Record => StartFrom(plan, order, i + 1, Put(running, order[i]))
      case Abort => StartAborted(order[i], running)
  }

  /** The recorded services at positions `i` to `j - 1` of `order`, in order. */
  function RecordedBetween(plan: Service -> Decision, order: seq<Service>, i: nat, j: nat): seq<Service>
    requires j <= |order|
    decreases j - i
  {
    if i >= j then []
    else (if plan(order[i]) == Record then [order[i]] else []) + RecordedBetween(plan, order, i + 1, j)
  }

  /** Services in strictly increasing rank. */
  predicate Ascending(rank: Service -> nat, r: seq<Service>) {
    forall k :: 0 < k < |r| ==> rank(r[k - 1]) < rank(r[k])
  }

  /**
   * The recorded services of positions `i` to `j - 1` are exactly the
   * services of those positions whose decision is `Record`, in order.
   */
  lemma {:induction false} RecordedBetweenMeaning(plan: Service -> Decision, order: seq<Service>, rank: Service -> nat, i: nat, j: nat)
    requires Ranked(order, rank) && j <= |order|
    ensures var x := RecordedBetween(plan, order, i, j);
      && Ascending(rank, x)
      && forall s :: s in x <==> i <= rank(s) < j && plan(s) == Record
    decreases j - i
  {
    if i < j {
      RecordedBetweenMeaning(plan, order, rank, i + 1, j);
      var rest := RecordedBetween(plan, order, i + 1, j);
      if plan(order[i]) == Record && rest != [] {
        assert rest[0] in rest;
        assert ([order[i]] + rest)[1] == rest[0];
      }
    }
  }

  /** One service that does not abort: the loop goes on, having recorded it or not. */
  lemma StartStep(plan: Service -> Decision, order: seq<Service>, rank: Service -> nat, i: nat, running: seq<Service>)
    returns (head: seq<Service>)
    requires Ranked(order, rank) && i < |order| && plan(order[i]) != Abort
    requires forall s :: s in running ==> rank(s) < i
    ensures head == if plan(order[i]) == Record then [order[i]] else []
    ensures StartFrom(plan, order, i, running) == StartFrom(plan, order, i + 1, running + head)
    ensures forall s :: s in running + head ==> rank(s) < i + 1
  {
    var s := order[i];
    head := if plan(s) == Record then [s] else [];
    assert plan(s) == Record ==> Put(running, s) == running + [s];
    assert running + [] == running;
  }

  /**
   * The start loop completes exactly when no service from position `i` on
   * aborts, and then it has added the services recorded from there on.
   */
  lemma {:induction false} StartFromCompletes(plan: Service -> Decision, order: seq<Service>, rank: Service -> nat, i: nat, running: seq<Service>)
    requires Ranked(order, rank) && i <= |order|
    requires forall s :: s in running ==> rank(s) < i
    ensures var o := StartFrom(plan, order, i, running);
      && (o.AllStarted? <==> forall k :: i <= k < |order| ==> plan(order[k]) != Abort)
      && (o.AllStarted? ==> o.running == running + RecordedBetween(plan, order, i, |order|))
    decreases |order| - i
  {
    if i < |order| && plan(order[i]) != Abort {
      var head := StartStep(plan, order, rank, i, running);
      StartFromCompletes(plan, order, rank, i + 1, running + head);
      var j := |order|;
      assert RecordedBetween(plan, order, i, j) == head + RecordedBetween(plan, order, i + 1, j);
      assert running + head + RecordedBetween(plan, order, i + 1, j) == running + RecordedBetween(plan, order, i, j);
    }
  }

  /**
   * Otherwise the loop stops at the first aborting service from position
   * `i` on, having added the services recorded before it.
   */
  lemma {:induction false} StartFromAborts(plan: Service -> Decision, order: seq<Service>, rank: Service -> nat, i: nat, running: seq<Service>)
    requires Ranked(order, rank) && i <= |order|
    requires forall s :: s in running ==> rank(s) < i
    ensures var o := StartFrom(plan, order, i, running);
      o.StartAborted? ==>
        && i <= rank(o.failed) < |order| && plan(o.failed) == Abort
        && (forall k :: i <= k < rank(o.failed) ==> plan(order[k]) != Abort)
        && o.running == running + RecordedBetween(plan, order, i, rank(o.failed))
    decreases |order| - i
  {
    if i < |order| && plan(order[i]) != Abort {
      var head := StartStep(plan, order, rank, i, running);
      StartFromAborts(plan, order, rank, i + 1, running + head);
      var o := StartFrom(plan, order, i + 1, running + head);
      if o.StartAborted? {
        var j := rank(o.failed);
        assert RecordedBetween(plan, order, i, j) == head + RecordedBetween(plan, order, i + 1, j);
        assert running + head + RecordedBetween(plan, order, i + 1, j) == running + RecordedBetween(plan, order, i, j);
      }
    }
  }

  /**
   * `start_all_services` on the empty process table: the table ends up
   * holding, in start order, the services recorded before the loop stopped;
   * the run aborts exactly when some required service has a taken port or
   * fails to start, and then at the first such service in start order.
   */
  lemma StartPlan(f: Flags, env: Environment)
    ensures var o := StartFrom(Plan(f, env), StartOrder, 0, []);
      && (o.AllStarted? <==> forall s :: !(IsRequired(f, s) && (!env.portFree(s) || env.start(s).Died?)))
      && Ascending(Rank, o.running)
      && (forall s :: s in o.running <==>
           Decide(f, env, s) == Record && (o.StartAborted? ==> Rank(s) < Rank(o.failed)))
      && (o.StartAborted? ==>
           && IsRequired(f, o.failed) && (!env.portFree(o.failed) || env.start(o.failed).Died?)
           && forall s :: Rank(s) < Rank(o.failed) ==> Decide(f, env, s) != Abort)
  {
    var plan := Plan(f, env);
    var o := StartFrom(plan, StartOrder, 0, []);
    StartOrderRanked();
    StartFromCompletes(plan, StartOrder, Rank, 0, []);
    StartFromAborts(plan, StartOrder, Rank, 0, []);
    var r := if o.StartAborted? then Rank(o.failed) else |StartOrder|;
    assert o.running == RecordedBetween(plan, StartOrder, 0, r);
    RecordedBetweenMeaning(plan, StartOrder, Rank, 0, r);
    forall s ensures plan(s) == Decide(f, env, s) {
    }
    if o.StartAborted? {
      DecideRules(f, env, o.failed);
    }
    forall s | Rank(s) < r ensures Decide(f, env, s) != Abort {
      assert StartOrder[Rank(s)] == s;
    }
    if o.AllStarted? {
      forall s ensures !(IsRequired(f, s) && (!env.portFree(s) || env.start(s).Died?)) {
        DecideRules(f, env, s);
      }
    }
  }

  /* ---------- monitoring ---------- */

  /** What one sweep over the process table does, given the services found dead. */
  datatype Sweep =
    | Swept(remaining: seq<Service>)
    | Crash(service: Service, remaining: seq<Service>)  // a required service died: cleanup, then `sys.exit(1)`

  /** The sweep over the snapshot `live` from position `i`, with `kept` the table so far. */
  function SweepFrom(f: Flags, live: seq<Service>, dead: set<Service>, i: nat, kept: seq<Service>): Sweep
    decreases |live| - i
  {
    if i >= |live| then Swept(kept)
    else if live[i] in dead then
      (if IsRequired(f, live[i]) then Crash(live[i], kept + live[i..]) else SweepFrom(f, live, dead, i + 1, kept))
    else SweepFrom(f, live, dead, i + 1, kept + [live[i]])
  }

  /** The services of `s` that are not dead, in order. */
  function Survivors(s: seq<Service>, dead: set<Service>): seq<Service> {
    if s == [] then [] else (if s[0] in dead then [] else [s[0]]) + Survivors(s[1..], dead)
  }

  /** Exactly the services that are not dead survive. */
  lemma {:induction false} SurvivorsMembers(s: seq<Service>, dead: set<Service>)
    ensures forall x :: x in Survivors(s, dead) <==> x in s && x !in dead
  {
    if s != [] {
      SurvivorsMembers(s[1..], dead);
      assert s == [s[0]] + s[1..];
    }
  }

  /**
   * A sweep completes exactly when no required service of the table is dead,
   * and then the table keeps the services that are alive, in order; a crash
   * names a dead required service of the table.
   */
  lemma {:induction false} SweepMeaning(f: Flags, live: seq<Service>, dead: set<Service>, i: nat, kept: seq<Service>)
    requires i <= |live|
    ensures var w := SweepFrom(f, live, dead, i, kept);
      && (w.Swept? <==> forall k :: i <= k < |live| ==> !(live[k] in dead && IsRequired(f, live[k])))
      && (w.Swept? ==> w.remaining == kept + Survivors(live[i..], dead))
      && (w.Crash? ==> w.service in dead && IsRequired(f, w.service) && w.service in live[i..]
                       && forall x :: x in w.remaining ==> x in kept || x in live[i..])
    decreases |live| - i
  {
    if i == |live| {
      assert live[i..] == [];
    } else {
      assert live[i..][0] == live[i] && live[i..][1..] == live[i + 1..];
      if !(live[i] in dead && IsRequired(f, live[i])) {
        var kept' := if live[i] in dead then kept else kept + [live[i]];
        SweepMeaning(f, live, dead, i + 1, kept');
      }
    }
  }

  /** How `monitor_services` ends. */
  datatype MonitorOutcome =
    | Crashed(service: Service, running: seq<Service>)    // cleanup, then `sys.exit(1)`
    | AllStopped(running: seq<Service>)                   // the loop breaks: nothing is left
    | Interrupted(running: seq<Service>)                  // Ctrl+C; the rounds ran out first

  /** The monitor loop from round `i` on; `rounds[i]` is the set of services found dead in round `i`. */
  function MonitorFrom(f: Flags, running: seq<Service>, rounds: seq<set<Service>>, i: nat): MonitorOutcome
    decreases |rounds| - i
  {
    if i >= |rounds| then Interrupted(running)
    else match SweepFrom(f, running, rounds[i], 0, [])
      case Crash(s, r) => Crashed(s, r)
      case Swept(r) => if r == [] then AllStopped(r) else MonitorFrom(f, r, rounds, i + 1)
  }

  /**
   * Monitoring only removes services; a required service is never removed,
   * so it is still in the table unless the launcher exits on its death; a
   * crash names a required service found dead in some round; stopping for
   * lack of processes leaves the table empty, and an empty table stops at
   * the next round.
   */
  lemma {:induction false} MonitorMeaning(f: Flags, running: seq<Service>, rounds: seq<set<Service>>, i: nat)
    ensures var o := MonitorFrom(f, running, rounds, i);
      && (forall x :: x in o.running ==> x in running)
      && (!o.Crashed? ==> forall x :: x in running && IsRequired(f, x) ==> x in o.running)
      && (o.Crashed? ==> IsRequired(f, o.service) && o.service in running
                         && exists k :: i <= k < |rounds| && o.service in rounds[k])
      && (o.AllStopped? ==> o.running == [])
      && (running == [] && i < |rounds| ==> o == AllStopped([]))
    decreases |rounds| - i
  {
    if i < |rounds| {
      var w := SweepFrom(f, running, rounds[i], 0, []);
      SweepMeaning(f, running, rounds[i], 0, []);
      assert running[0..] == running;
      SurvivorsMembers(running, rounds[i]);
      assert w.Swept? ==> w.remaining == Survivors(running, rounds[i]);
      if running == [] {
        assert w == Swept([]);
      }
      if w.Swept? {
        forall x | x in running && IsRequired(f, x) ensures x !in rounds[i] {
          var k :| 0 <= k < |running| && running[k] == x;
        }
        if w.remaining != [] {
          MonitorMeaning(f, w.remaining, rounds, i + 1);
          var o := MonitorFrom(f, running, rounds, i);
          if o.Crashed? {
            var k :| i + 1 <= k < |rounds| && o.service in rounds[k];
          }
        }
      }
    }
  }

  /* ---------- the launcher's other rules ---------- */

  /** `check_http_service`: the status of the GET, None when it raised. */
  function CheckHttpService(status: Option<int>): (healthy: bool)
    ensures healthy <==> status == Some(200) || status == Some(404)
  {
    match status
    case None => false
    case Some(code) => code in {200, 404}
  }

  /**
   * `is_llm_trainer_process`: the command line, None when reading it
   * raised; it belongs to the system when its lower-cased, space-joined form
   * contains one of the four script names.
   */
  function IsLlmTrainerProcess(cmdline: Option<seq<string>>): bool {
    cmdline.Some? && exists k :: 0 <= k < |Scripts| && Contains(Lower(Join(cmdline.value, " ")), Scripts[k])
  }

  /** The characters of an occurrence are those of the text. */
  lemma OccurrenceChar(s: string, w: string, k: nat, j: nat)
    requires k + |w| <= |s| && s[k..k + |w|] == w && j < |w|
    ensures w[j] == s[k + j]
  {
    assert s[k..k + |w|][j] == s[k + j];
  }

  /** An occurrence of a text without spaces in `a + " " + b` lies within `a` or within `b`. */
  lemma SplitAtSpace(a: string, b: string, w: string)
    requires forall i :: 0 <= i < |w| ==> w[i] != ' '
    requires Contains(a + " " + b, w)
    ensures Contains(a, w) || Contains(b, w)
  {
    var s := a + " " + b;
    var k := ContainsWitness(s, w);
    if k + |w| <= |a| {
      forall j | 0 <= j < |w| ensures a[k..k + |w|][j] == w[j] {
        OccurrenceChar(s, w, k, j);
      }
      assert a[k..k + |w|] == w;
      ContainsAt(a, w, k);
    } else if k > |a| {
      var m := k - |a| - 1;
      forall j | 0 <= j < |w| ensures b[m..m + |w|][j] == w[j] {
        OccurrenceChar(s, w, k, j);
      }
      assert b[m..m + |w|] == w;
      ContainsAt(b, w, m);
    } else {
      OccurrenceChar(s, w, k, |a| - k);
      assert false;
    }
  }

  /** An occurrence of a text without spaces in `a + " " + b` lies within `a` or within `b`, and any such one is one of the whole. */
  lemma ContainsAcrossSpace(a: string, b: string, w: string)
    requires forall i :: 0 <= i < |w| ==> w[i] != ' '
    ensures Contains(a + " " + b, w) <==> Contains(a, w) || Contains(b, w)
  {
    var s := a + " " + b;
    if Contains(s, w) {
      SplitAtSpace(a, b, w);
    }
    if Contains(a, w) {
      ContainsInfix("", a, " " + b, w);
      assert "" + a + (" " + b) == s;
    }
    if Contains(b, w) {
      ContainsInfix(a + " ", b, "", w);
      assert a + " " + b + "" == s;
    }
  }

  /** Lower-casing a space-joined command line lower-cases each argument. */
  lemma LowerJoinStep(a: string, rest: seq<string>)
    requires rest != []
    ensures Lower(Join([a] + rest, " ")) == Lower(a) + " " + Lower(Join(rest, " "))
  {
    assert ([a] + rest)[1..] == rest;
    LowerAppend(a + " ", Join(rest, " "));
    LowerAppend(a, " ");
  }

  /** A script name occurs in the joined command line exactly when it occurs within one argument. */
  lemma {:induction false} ScriptInJoin(args: seq<string>, w: string)
    requires w != [] && forall i :: 0 <= i < |w| ==> w[i] != ' '
    ensures Contains(Lower(Join(args, " ")), w) <==> exists i :: 0 <= i < |args| && Contains(Lower(args[i]), w)
  {
    if args == [] {
      assert !StartsWith("", w);
    } else if |args| == 1 {
    } else {
      var rest := args[1..];
      assert args == [args[0]] + rest;
      LowerJoinStep(args[0], rest);
      ContainsAcrossSpace(Lower(args[0]), Lower(Join(rest, " ")), w);
      ScriptInJoin(rest, w);
      if exists i :: 0 <= i < |rest| && Contains(Lower(rest[i]), w) {
        var i :| 0 <= i < |rest| && Contains(Lower(rest[i]), w);
        assert args[i + 1] == rest[i];
      }
      if exists i :: 0 <= i < |args| && Contains(Lower(args[i]), w) {
        var i :| 0 <= i < |args| && Contains(Lower(args[i]), w);
        if i > 0 {
          assert rest[i - 1] == args[i];
        }
      }
    }
  }

  /**
   * A process belongs to the system exactly when one argument of its command
   * line, lower-cased, mentions one of the four scripts; an unreadable
   * command line never does.
   */
  lemma LlmTrainerProcessRule(cmdline: Option<seq<string>>)
    ensures IsLlmTrainerProcess(cmdline) <==>
      cmdline.Some? && exists i, k :: 0 <= i < |cmdline.value| && 0 <= k < |Scripts|
                                       && Contains(Lower(cmdline.value[i]), Scripts[k])
  {
    if cmdline.Some? {
      var args := cmdline.value;
      forall k | 0 <= k < |Scripts|
        ensures Contains(Lower(Join(args, " ")), Scripts[k]) <==>
          exists i :: 0 <= i < |args| && Contains(Lower(args[i]), Scripts[k])
      {
        ScriptInJoin(args, Scripts[k]);
      }
    }
  }

  /* ---------- the launcher's state ---------- */

  /** No service twice: the process table is a dictionary. */
  predicate Distinct(s: seq<Service>) {
    forall j, k :: 0 <= j < k < |s| ==> s[j] != s[k]
  }

  /** Deleting a key from the table. */
  function Without(s: seq<Service>, x: Service): seq<Service> {
    if s == [] then [] else (if s[0] == x then [] else [s[0]]) + Without(s[1..], x)
  }

  /** Deleting a key that stands once, between `a` and `b`, leaves `a` and `b`. */
  lemma {:induction false} WithoutOnce(a: seq<Service>, x: Service, b: seq<Service>)
    requires x !in a && x !in b
    ensures Without(a + [x] + b, x) == a + b
    decreases |a| + |b|
  {
    if a == [] {
      assert ([x] + b)[1..] == b;
      WithoutAbsent(b, x);
    } else {
      assert (a + [x] + b)[1..] == a[1..] + [x] + b;
      WithoutOnce(a[1..], x, b);
      assert a + b == [a[0]] + (a[1..] + b);
    }
  }

  /** Deleting an absent key changes nothing. */
  lemma {:induction false} WithoutAbsent(s: seq<Service>, x: Service)
    requires x !in s
    ensures Without(s, x) == s
  {
    if s != [] {
      WithoutAbsent(s[1..], x);
      assert s == [s[0]] + s[1..];
    }
  }

  /** The launcher's module state: the `required` flags and the table of running processes. */
  class LauncherState {
    var required: Flags
    var running: seq<Service>

    predicate Valid()
      reads this
    {
      Total(required) && Distinct(running)
    }

    /** The state at import time. */
    constructor ()
      ensures Valid() && required == InitialRequired && running == []
    {
      required := InitialRequired;
      running := [];
    }

    /** `check_configuration`: the bots without credentials are made optional. */
    method CheckConfiguration(c: Credentials)
      requires Valid()
      modifies this
      ensures Valid()
      ensures required == Configure(old(required), c) && running == old(running)
    {
      if !Truthy(c.telegramToken) {
        required := required[Telegram := false];
      }
      if !(Truthy(c.twilioSid) && Truthy(c.twilioToken)) {
        required := required[Sms := false];
      }
    }

    /** `start_all_services`. */
    method StartAllServices(env: Environment) returns (outcome: StartOutcome)
      requires Valid()
      modifies this
      ensures Valid() && required == old(required)
      ensures outcome == StartFrom(Plan(required, env), StartOrder, 0, old(running)) && running == outcome.running
    {
      var i := 0;
      while i < |StartOrder|
        invariant i <= |StartOrder| && Valid() && required == old(required)
        invariant StartFrom(Plan(required, env), StartOrder, i, running) == StartFrom(Plan(required, env), StartOrder, 0, old(running))
        decreases |StartOrder| - i
      {
        var s := StartOrder[i];
        var req := s in required && required[s];
        if !req && !Configured(env.credentials, s) {
          i := i + 1;
          continue;
        }
        if !env.portFree(s) {
          if req {
            return StartAborted(s, running);
          }
          i := i + 1;
          continue;
        }
        var started := env.start(s);
        if started.Alive? {
          if s !in running {
            running := running + [s];
          }
        } else if req {
          return StartAborted(s, running);
        }
        i := i + 1;
      }
      outcome := AllStarted(running);
    }

    /** One pass of `monitor_services` over a snapshot of the table. */
    method SweepTable(dead: set<Service>) returns (sweep: Sweep)
      requires Valid()
      modifies this
      ensures Valid() && required == old(required)
      ensures sweep == SweepFrom(required, old(running), dead, 0, []) && running == sweep.remaining
    {
      var live := running;
      ghost var kept: seq<Service> := [];
      var i := 0;
      assert live[0..] == live;
      while i < |live|
        invariant i <= |live| && Valid() && required == old(required)
        invariant running == kept + live[i..]
        invariant SweepFrom(required, live, dead, i, kept) == SweepFrom(required, live, dead, 0, [])
      {
        var s := live[i];
        assert live[i..] == [s] + live[i + 1..];
        if s in dead {
          if s in required && required[s] {
            return Crash(s, running);
          }
          assert running == kept + [s] + live[i + 1..];
          RemoveOnce(kept, s, live[i + 1..]);
          running := Without(running, s);
        } else {
          kept := kept + [s];
        }
        i := i + 1;
      }
      sweep := Swept(running);
    }

    /**
     * `monitor_services`: a sweep per round until a required service dies,
     * the table empties, or the rounds run out (the Ctrl+C that ends the
     * `while True`).
     */
    method MonitorServices(rounds: seq<set<Service>>) returns (outcome: MonitorOutcome)
      requires Valid()
      modifies this
      ensures Valid() && required == old(required)
      ensures outcome == MonitorFrom(required, old(running), rounds, 0) && running == outcome.running
    {
      var i := 0;
      while i < |rounds|
        invariant i <= |rounds| && Valid() && required == old(required)
        invariant MonitorFrom(required, running, rounds, i) == MonitorFrom(required, old(running), rounds, 0)
      {
        var sweep := SweepTable(rounds[i]);
        if sweep.Crash? {
          return Crashed(sweep.service, running);
        }
        if running == [] {
          return AllStopped(running);
        }
        i := i + 1;
      }
      outcome := Interrupted(running);
    }
  }

  /** Deleting a key from a distinct table drops its one entry and keeps the table distinct. */
  lemma RemoveOnce(a: seq<Service>, x: Service, b: seq<Service>)
    requires Distinct(a + [x] + b)
    ensures Without(a + [x] + b, x) == a + b && Distinct(a + b)
  {
    DistinctSplit(a, x, b);
    WithoutOnce(a, x, b);
    DistinctDrop(a, x, b);
  }

  /** A service standing once in a distinct table is not elsewhere in it. */
  lemma DistinctSplit(a: seq<Service>, x: Service, b: seq<Service>)
    requires Distinct(a + [x] + b)
    ensures x !in a && x !in b
  {
    var s := a + [x] + b;
    assert s[|a|] == x;
    assert forall j :: 0 <= j < |a| ==> s[j] == a[j];
    assert forall j :: 0 <= j < |b| ==> s[|a| + 1 + j] == b[j];
  }

  /** Dropping one service from a distinct table leaves it distinct. */
  lemma DistinctDrop(a: seq<Service>, x: Service, b: seq<Service>)
    requires Distinct(a + [x] + b)
    ensures Distinct(a + b)
  {
    var s, t := a + [x] + b, a + b;
    forall j, k | 0 <= j < k < |t| ensures t[j] != t[k] {
      var j' := if j < |a| then j else j + 1;
      var k' := if k < |a| then k else k + 1;
      assert t[j] == s[j'] && t[k] == s[k'];
    }
  }
}
