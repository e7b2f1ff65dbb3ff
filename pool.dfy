/** What the three near-identical worker families share (optinum/worker/base.py,
    optinum/common/worker.py and optinum/daemon.py): the hooks `start` calls,
    the items a task queue holds, and the bookkeeping of the `workers` list
    done by one `manage_workers` cycle. Liveness of a worker handle is an
    oracle (the set of handles alive when the cycle looks), and the handle a
    cycle starts is an input. */
module Pool {
  import opened Common

  /** One hook call made by `start`: `prologue`, `task_done(task, result)`,
      `task_fail(task, exc)`, `interrupted` and `epilogue`. */
  datatype Event = Prologue | TaskDone(task: nat) | TaskFail(task: nat, exc: Exc) | Interrupted | Epilogue

  /** What a task queue holds: a truthy task, or a falsy value such as None. */
  datatype Item = Falsy | Task(id: nat)

  // ---------------------------------------------------------------------
  // `_process` and `start`

  /** `_process(task)`: `task_fail` when `process` raises, `task_done`
      otherwise, and always exactly one of the two, for this task. */
  function Processed(task: nat, outcome: Outcome): (e: Event)
    ensures e.TaskDone? || e.TaskFail?
    ensures e.task == task
    ensures e.TaskDone? <==> outcome == Returned
    ensures e.TaskFail? ==> outcome == Raised(e.exc)
  {
    match outcome
    case Returned => TaskDone(task)
    case Raised(x) => TaskFail(task, x)
  }

  /** The hooks called for one run of the task generator, the generated
      tasks being sent to `put_task`, that is `_process`. */
  function Round(tasks: seq<nat>, outcome: nat -> Outcome): seq<Event>
  {
    seq(|tasks|, k requires 0 <= k < |tasks| => Processed(tasks[k], outcome(tasks[k])))
  }

  /** The `while` loop of `start`, the stop event being clear: round r
      generates `rounds[r]`; after a round the loop ends when `finished()`
      (that is `loop`) is false; a KeyboardInterrupt arrives where a further
      round would start, calls `interrupted` and leaves the loop. */
  function Rounds(loop: bool, rounds: seq<seq<nat>>, outcome: nat -> Outcome): seq<Event>
    decreases |rounds|
  {
    if rounds == [] then [Interrupted]
    else Round(rounds[0], outcome) + (if loop then Rounds(loop, rounds[1..], outcome) else [])
  }

  /** The hooks `start` calls: `prologue`, the loop unless the stop event is
      already set, then `epilogue`. */
  function StartTrace(loop: bool, stopped: bool, rounds: seq<seq<nat>>, outcome: nat -> Outcome): seq<Event>
  {
    [Prologue] + (if stopped then [] else Rounds(loop, rounds, outcome)) + [Epilogue]
  }

  lemma RoundAppend(a: seq<nat>, b: seq<nat>, outcome: nat -> Outcome)
    ensures Round(a + b, outcome) == Round(a, outcome) + Round(b, outcome)
  {
  }

  /** Taking the next item of a queue: a truthy one adds its task to the
      processed ones, a falsy one adds nothing. */
  lemma TruthyStep(items: seq<Item>)
    requires items != []
    ensures Truthy(items) == (if items[0].Task? then [items[0].id] else []) + Truthy(items[1..])
  {
  }

  /** The tasks that reached `task_done` or `task_fail`, in order. */
  function Tasks(events: seq<Event>): seq<nat>
  {
    if events == [] then []
    else (if events[0].TaskDone? || events[0].TaskFail? then [events[0].task] else []) + Tasks(events[1..])
  }

  function Flatten(rounds: seq<seq<nat>>): seq<nat>
  {
    if rounds == [] then [] else rounds[0] + Flatten(rounds[1..])
  }

  lemma {:induction false} TasksAppend(a: seq<Event>, b: seq<Event>)
    ensures Tasks(a + b) == Tasks(a) + Tasks(b)
    decreases |a|
  {
    if a == [] {
      assert a + b == b;
    } else {
      var t := a + b;
      assert t[0] == a[0] && t[1..] == a[1..] + b;
      TasksAppend(a[1..], b);
      var head := if a[0].TaskDone? || a[0].TaskFail? then [a[0].task] else [];
      assert Tasks(t) == head + Tasks(a[1..] + b);
      assert Tasks(a) == head + Tasks(a[1..]);
    }
  }

  /** A round hands every generated task, in order, to exactly one of
      `task_done` and `task_fail`, and calls no other hook. */
  lemma {:induction false} RoundTasks(tasks: seq<nat>, outcome: nat -> Outcome)
    ensures Tasks(Round(tasks, outcome)) == tasks
    ensures forall e :: e in Round(tasks, outcome) ==> e.TaskDone? || e.TaskFail?
  {
    if tasks != [] {
      var r := Round(tasks, outcome);
      assert r == [Processed(tasks[0], outcome(tasks[0]))] + Round(tasks[1..], outcome);
      TasksAppend([Processed(tasks[0], outcome(tasks[0]))], Round(tasks[1..], outcome));
      assert Tasks([Processed(tasks[0], outcome(tasks[0]))]) == [tasks[0]];
      RoundTasks(tasks[1..], outcome);
    }
  }

  /** With `loop` set, the loop processes every round's tasks in order and
      ends with the interrupt; with `loop` clear, it processes the first
      round only and is never interrupted. `prologue` and `epilogue` are
      never called inside the loop. */
  lemma {:induction false} RoundsTasks(loop: bool, rounds: seq<seq<nat>>, outcome: nat -> Outcome)
    ensures loop ==> Tasks(Rounds(loop, rounds, outcome)) == Flatten(rounds)
    ensures loop ==> (|Rounds(loop, rounds, outcome)| >= 1
      && Rounds(loop, rounds, outcome)[|Rounds(loop, rounds, outcome)| - 1] == Interrupted)
    ensures !loop && rounds != [] ==> (Tasks(Rounds(loop, rounds, outcome)) == rounds[0]
      && Interrupted !in Rounds(loop, rounds, outcome))
    ensures Prologue !in Rounds(loop, rounds, outcome) && Epilogue !in Rounds(loop, rounds, outcome)
    decreases |rounds|
  {
    if rounds != [] {
      RoundTasks(rounds[0], outcome);
      if loop {
        var rest := Rounds(loop, rounds[1..], outcome);
        RoundsTasks(loop, rounds[1..], outcome);
        TasksAppend(Round(rounds[0], outcome), rest);
        var whole := Round(rounds[0], outcome) + rest;
        assert whole[|whole| - 1] == rest[|rest| - 1];
      } else {
        assert Rounds(loop, rounds, outcome) == Round(rounds[0], outcome);
      }
    }
  }

  /** `start` calls `prologue` first and `epilogue` last, each exactly once;
      with `loop` clear and the event clear it runs the generator once,
      processes its tasks and goes straight to `epilogue`. */
  lemma StartBrackets(loop: bool, stopped: bool, rounds: seq<seq<nat>>, outcome: nat -> Outcome)
    ensures var t := StartTrace(loop, stopped, rounds, outcome);
      && t[0] == Prologue && t[|t| - 1] == Epilogue
      && multiset(t)[Prologue] == 1 && multiset(t)[Epilogue] == 1
    ensures stopped ==> StartTrace(loop, stopped, rounds, outcome) == [Prologue, Epilogue]
    ensures !loop && !stopped && rounds != [] ==>
      StartTrace(loop, stopped, rounds, outcome) == [Prologue] + Round(rounds[0], outcome) + [Epilogue]
  {
    var middle := if stopped then [] else Rounds(loop, rounds, outcome);
    RoundsTasks(loop, rounds, outcome);
    var t := [Prologue] + middle + [Epilogue];
    assert t == StartTrace(loop, stopped, rounds, outcome);
    assert multiset(t) == multiset([Prologue]) + multiset(middle) + multiset([Epilogue]);
    assert multiset(middle)[Prologue] == 0 && multiset(middle)[Epilogue] == 0;
    if !loop && !stopped && rounds != [] {
      assert Rounds(loop, rounds, outcome) == Round(rounds[0], outcome);
    }
  }

  /** The start loop itself, as the three `start` methods run it. */
  method RunStart(loop: bool, stopped: bool, rounds: seq<seq<nat>>, outcome: nat -> Outcome) returns (trace: seq<Event>)
    ensures trace == StartTrace(loop, stopped, rounds, outcome)
  {
    trace := [Prologue];
    var stop := stopped;
    var r := 0;
    while !stop
      invariant 0 <= r <= |rounds|
      invariant !stop ==> trace + Rounds(loop, rounds[r..], outcome) == StartTrace(loop, stopped, rounds, outcome)[..|StartTrace(loop, stopped, rounds, outcome)| - 1]
      invariant stop ==> trace == StartTrace(loop, stopped, rounds, outcome)[..|StartTrace(loop, stopped, rounds, outcome)| - 1]
      decreases |rounds| - r, if stop then 0 else 1
    {
      if r == |rounds| {
        trace := trace + [Interrupted];
        break;
      }
      var tasks := rounds[r];
      assert rounds[r..][0] == tasks && rounds[r..][1..] == rounds[r + 1..];
      for k := 0 to |tasks|
        invariant trace + Round(tasks[k..], outcome) + (if loop then Rounds(loop, rounds[r + 1..], outcome) else [])
               == StartTrace(loop, stopped, rounds, outcome)[..|StartTrace(loop, stopped, rounds, outcome)| - 1]
      {
        assert Round(tasks[k..], outcome) == [Processed(tasks[k], outcome(tasks[k]))] + Round(tasks[k + 1..], outcome);
        trace := trace + [Processed(tasks[k], outcome(tasks[k]))];
      }
      r := r + 1;
      if !loop {
        break;
      }
    }
    trace := trace + [Epilogue];
  }

  // ---------------------------------------------------------------------
  // `manage_workers`

  /** `list.remove(w)`: the first occurrence of `w` taken out. */
  function Remove(ws: seq<nat>, w: nat): (r: seq<nat>)
    requires w in ws
    ensures |r| == |ws| - 1
  {
    if ws[0] == w then ws[1..] else [ws[0]] + Remove(ws[1..], w)
  }

  /** The handles of `ws` alive according to `live`, in their order. */
  function Filter(ws: seq<nat>, live: set<nat>): seq<nat>
  {
    if ws == [] then []
    else Filter(ws[..|ws| - 1], live) + (if ws[|ws| - 1] in live then [ws[|ws| - 1]] else [])
  }

  /** `a` is `b` with some elements dropped, the rest kept in their order. */
  predicate Subsequence(a: seq<nat>, b: seq<nat>)
    decreases |b|
  {
    if a == [] then true
    else if b == [] then false
    else if a[|a| - 1] == b[|b| - 1] then Subsequence(a[..|a| - 1], b[..|b| - 1])
    else Subsequence(a, b[..|b| - 1])
  }

  lemma {:induction false} SubsequenceExtend(a: seq<nat>, b: seq<nat>, x: nat)
    requires Subsequence(a, b)
    ensures Subsequence(a, b + [x])
    decreases |b|, 1
  {
    var bx := b + [x];
    assert bx[..|bx| - 1] == b;
    if a != [] && a[|a| - 1] == x {
      SubsequenceDrop(a, b);
    }
  }

  lemma {:induction false} SubsequenceDrop(a: seq<nat>, b: seq<nat>)
    requires a != [] && Subsequence(a, b)
    ensures Subsequence(a[..|a| - 1], b)
    decreases |b|, 0
  {
    var b' := b[..|b| - 1];
    assert b == b' + [b[|b| - 1]];
    if a[|a| - 1] == b[|b| - 1] {
      SubsequenceExtend(a[..|a| - 1], b', b[|b| - 1]);
    } else {
      SubsequenceDrop(a, b');
      SubsequenceExtend(a[..|a| - 1], b', b[|b| - 1]);
    }
  }

  /** After the prune step every handle left is alive and comes from the
      list; every live handle of the list is kept; survivors keep their
      relative order. */
  lemma {:induction false} FilterProperties(ws: seq<nat>, live: set<nat>)
    ensures forall w :: w in Filter(ws, live) <==> w in ws && w in live
    ensures |Filter(ws, live)| <= |ws|
    ensures Subsequence(Filter(ws, live), ws)
    decreases |ws|
  {
    if ws != [] {
      var init := ws[..|ws| - 1];
      var last := ws[|ws| - 1];
      FilterProperties(init, live);
      assert ws == init + [last];
      if last in live {
        var f := Filter(init, live) + [last];
        assert f[..|f| - 1] == Filter(init, live);
      } else {
        assert Filter(ws, live) == Filter(init, live);
        SubsequenceExtend(Filter(init, live), init, last);
      }
    }
  }

  lemma {:induction false} RemoveAfter(p: seq<nat>, w: nat, rest: seq<nat>)
    requires w !in p
    ensures w in p + [w] + rest && Remove(p + [w] + rest, w) == p + rest
    decreases |p|
  {
    if p == [] {
      assert p + [w] + rest == [w] + rest;
    } else {
      assert (p + [w] + rest)[1..] == p[1..] + [w] + rest;
      RemoveAfter(p[1..], w, rest);
      assert [p[0]] + (p[1..] + rest) == p + rest;
    }
  }

  /** The prune step of `manage_workers`: a loop over a copy of the list
      that removes each dead handle from the list itself. */
  method Prune(workers: seq<nat>, live: set<nat>) returns (survivors: seq<nat>)
    ensures survivors == Filter(workers, live)
  {
    survivors := workers;
    var copy := workers;
    for k := 0 to |copy|
      invariant survivors == Filter(copy[..k], live) + copy[k..]
    {
      var worker := copy[k];
      PruneStep(copy, k, live);
      if worker !in live {
        survivors := Remove(survivors, worker);
      }
    }
    assert copy[..|copy|] == copy;
  }

  /** One iteration of the prune loop: removing the dead handle `ws[k]` (its
      first occurrence lies past the live prefix) or keeping a live one moves
      the boundary one place on. */
  lemma {:induction false} PruneStep(ws: seq<nat>, k: nat, live: set<nat>)
    requires k < |ws|
    ensures ws[k] !in live ==> (ws[k] in Filter(ws[..k], live) + ws[k..]
      && Remove(Filter(ws[..k], live) + ws[k..], ws[k]) == Filter(ws[..k + 1], live) + ws[k + 1..])
    ensures ws[k] in live ==> Filter(ws[..k], live) + ws[k..] == Filter(ws[..k + 1], live) + ws[k + 1..]
  {
    var w := ws[k];
    var p := Filter(ws[..k], live);
    var rest := ws[k + 1..];
    assert ws[k..] == [w] + rest;
    FilterLast(ws, k, live);
    if w !in live {
      assert w !in p by {
        FilterProperties(ws[..k], live);
      }
      RemoveAfter(p, w, rest);
      assert p + ws[k..] == p + [w] + rest;
    } else {
      assert p + ws[k..] == (p + [w]) + rest;
    }
  }

  /** Extending the filtered prefix by one handle. */
  lemma FilterLast(ws: seq<nat>, k: nat, live: set<nat>)
    requires k < |ws|
    ensures Filter(ws[..k + 1], live) == Filter(ws[..k], live) + (if ws[k] in live then [ws[k]] else [])
  {
    assert ws[..k + 1][..k] == ws[..k];
  }

  /** One cycle of `manage_workers`: prune, then start `started` unless the
      list already holds `wcount` handles. */
  function Cycle(ws: seq<nat>, live: set<nat>, wcount: int, started: nat): seq<nat>
  {
    var survivors := Filter(ws, live);
    if |survivors| == wcount then survivors else survivors + [started]
  }

  /** A cycle adds at most one handle, none when `wcount` survive, and keeps
      `len(workers) <= wcount`. */
  lemma CycleBound(ws: seq<nat>, live: set<nat>, wcount: int, started: nat)
    ensures |Cycle(ws, live, wcount, started)| <= |Filter(ws, live)| + 1
    ensures |Filter(ws, live)| == wcount ==> Cycle(ws, live, wcount, started) == Filter(ws, live)
    ensures |ws| <= wcount ==> |Cycle(ws, live, wcount, started)| <= wcount
    ensures forall w :: w in Cycle(ws, live, wcount, started) ==> w == started || (w in ws && w in live)
  {
    FilterProperties(ws, live);
  }

  /** Successive cycles, `lives[i]` and `handles[i]` being the oracle and
      the new handle of cycle i. */
  function Cycles(ws: seq<nat>, lives: seq<set<nat>>, handles: seq<nat>, wcount: int): seq<nat>
    requires |lives| == |handles|
    decreases |lives|
  {
    if lives == [] then ws
    else Cycles(Cycle(ws, lives[0], wcount, handles[0]), lives[1..], handles[1..], wcount)
  }

  /** From a list of at most `wcount` handles (the empty list the
      constructors build, for `wcount >= 0`), any number of cycles keeps
      `len(workers) <= wcount`. */
  lemma {:induction false} CyclesBound(ws: seq<nat>, lives: seq<set<nat>>, handles: seq<nat>, wcount: int)
    requires |lives| == |handles|
    requires |ws| <= wcount
    ensures |Cycles(ws, lives, handles, wcount)| <= wcount
    decreases |lives|
  {
    if lives != [] {
      CycleBound(ws, lives[0], wcount, handles[0]);
      CyclesBound(Cycle(ws, lives[0], wcount, handles[0]), lives[1..], handles[1..], wcount);
    }
  }

  // ---------------------------------------------------------------------
  // the task queue

  /** The truthy tasks of a queue, in order: what `work` processes. */
  function Truthy(items: seq<Item>): (r: seq<nat>)
    ensures |r| <= |items|
    ensures forall t :: t in r <==> Task(t) in items
  {
    if items == [] then []
    else (if items[0].Task? then [items[0].id] else []) + Truthy(items[1..])
  }

  /** Python's `queue.Queue(maxsize)`: a maximum size of 0 or less means no
      bound. */
  function Capacity(qsize: int): (r: Option<nat>)
    ensures r.None? <==> qsize <= 0
    ensures r.Some? ==> r.value == qsize
  {
    if qsize <= 0 then None else Some(qsize)
  }
}
