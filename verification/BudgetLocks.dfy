/** The lazily created per-budget mutexes, over all interleavings of requests. The read-locked lookup and the
    write-locked creation are each one atomic step. */
module BudgetLocks {

  datatype Pc =
    | Started(name: string)
    | Missed(name: string)                 // the first lookup found no mutex
    | Holding(name: string, mutex: nat)    // findLock returned this mutex
    | Inside(name: string, mutex: nat)     // the mutex is locked, the request is being handled
    | Finished

  datatype State = State(locks: map<string, nat>, nextMutex: nat, owner: map<nat, nat>, threads: map<nat, Pc>)

  datatype Step =
    | Spawn(thread: nat, budget: string) | Lookup(thread: nat) | Create(thread: nat)
    | Enter(thread: nat) | Leave(thread: nat)

  predicate At(s: State, t: nat, pc: Pc) {
    t in s.threads && s.threads[t] == pc
  }

  predicate Next(s: State, step: Step, s': State) {
    match step
    case Spawn(t, name) =>
      t !in s.threads && s' == s.(threads := s.threads[t := Started(name)])
    case Lookup(t) =>
      && t in s.threads && s.threads[t].Started?
      && var name := s.threads[t].name;
         s' == s.(threads := s.threads[t := if name in s.locks then Holding(name, s.locks[name]) else Missed(name)])
    case Create(t) =>
      && t in s.threads && s.threads[t].Missed?
      && var name := s.threads[t].name;
         if name in s.locks
         then s' == s.(threads := s.threads[t := Holding(name, s.locks[name])])
         else s' == s.(locks := s.locks[name := s.nextMutex], nextMutex := s.nextMutex + 1,
                       threads := s.threads[t := Holding(name, s.nextMutex)])
    case Enter(t) =>
      && t in s.threads && s.threads[t].Holding? && s.threads[t].mutex !in s.owner
      && s' == s.(owner := s.owner[s.threads[t].mutex := t],
                  threads := s.threads[t := Inside(s.threads[t].name, s.threads[t].mutex)])
    case Leave(t) =>
      && t in s.threads && s.threads[t].Inside?
      && s' == s.(owner := s.owner - {s.threads[t].mutex}, threads := s.threads[t := Finished])
  }

  /** Mutexes belong to one name each, and every thread has the one of its name. */
  ghost predicate LocksInv(s: State) {
    && (forall n | n in s.locks :: s.locks[n] < s.nextMutex)
    && (forall m, n | m in s.locks && n in s.locks && m != n :: s.locks[m] != s.locks[n])
    && (forall t | t in s.threads && (s.threads[t].Holding? || s.threads[t].Inside?) ::
          s.threads[t].name in s.locks && s.locks[s.threads[t].name] == s.threads[t].mutex)
  }

  /** A thread inside owns its mutex. */
  ghost predicate OwnerInv(s: State) {
    forall t | t in s.threads && s.threads[t].Inside? ::
      s.threads[t].mutex in s.owner && s.owner[s.threads[t].mutex] == t
  }

  ghost predicate Inv(s: State) {
    LocksInv(s) && OwnerInv(s)
  }

  lemma StepKeepsLocks(s: State, step: Step, s': State)
    requires LocksInv(s) && Next(s, step, s')
    ensures LocksInv(s') && forall n | n in s.locks :: n in s'.locks && s'.locks[n] == s.locks[n]
  {
  }

  lemma StepKeepsOwners(s: State, step: Step, s': State)
    requires OwnerInv(s) && Next(s, step, s')
    ensures OwnerInv(s')
  {
    forall t | t in s'.threads && s'.threads[t].Inside?
      ensures s'.threads[t].mutex in s'.owner && s'.owner[s'.threads[t].mutex] == t
    {
      assert t in s.threads;
      if s.threads[t].Inside? {
        assert s.owner[s.threads[t].mutex] == t;
      }
    }
  }

  lemma StepKeepsInv(s: State, step: Step, s': State)
    requires Inv(s) && Next(s, step, s')
    ensures Inv(s') && forall n | n in s.locks :: n in s'.locks && s'.locks[n] == s.locks[n]
  {
    StepKeepsLocks(s, step, s');
    StepKeepsOwners(s, step, s');
  }

  ghost predicate IsRun(states: seq<State>, steps: seq<Step>) {
    && |states| == |steps| + 1 && states[0] == State(map[], 0, map[], map[])
    && forall k | 0 <= k < |steps| :: Next(states[k], steps[k], states[k + 1])
  }

  lemma {:induction false} RunKeepsInv(states: seq<State>, steps: seq<Step>, k: nat)
    requires IsRun(states, steps) && k <= |steps|
    ensures Inv(states[k])
  {
    if k > 0 {
      RunKeepsInv(states, steps, k - 1);
      assert Next(states[k - 1], steps[k - 1], states[k]);
      StepKeepsInv(states[k - 1], steps[k - 1], states[k]);
    }
  }

  lemma {:induction false} LocksStay(states: seq<State>, steps: seq<Step>, k: nat, m: nat, name: string)
    requires IsRun(states, steps) && k <= m <= |steps| && name in states[k].locks
    ensures name in states[m].locks && states[m].locks[name] == states[k].locks[name]
  {
    if k < m {
      LocksStay(states, steps, k, m - 1, name);
      RunKeepsInv(states, steps, m - 1);
      assert Next(states[m - 1], steps[m - 1], states[m]);
      StepKeepsInv(states[m - 1], steps[m - 1], states[m]);
    }
  }

  /** Two requests for one budget are never handed different mutexes, at any two moments of a run, and
      requests for different budgets never share one. */
  lemma OneMutexPerBudget(states: seq<State>, steps: seq<Step>, k: nat, m: nat, t: nat, u: nat)
    requires IsRun(states, steps) && k <= m <= |steps|
    requires t in states[k].threads && states[k].threads[t].Holding?
    requires u in states[m].threads && states[m].threads[u].Holding?
    ensures states[k].threads[t].name == states[m].threads[u].name
            <==> states[k].threads[t].mutex == states[m].threads[u].mutex
  {
    RunKeepsInv(states, steps, k);
    RunKeepsInv(states, steps, m);
    LocksStay(states, steps, k, m, states[k].threads[t].name);
  }

  /** At most one request per budget is being handled. The mutex orders requests; it does not stop pods, the
      observer or the clock while one is in flight. */
  lemma RequestsSerialised(states: seq<State>, steps: seq<Step>, k: nat, t: nat, u: nat)
    requires IsRun(states, steps) && k <= |steps|
    requires t in states[k].threads && states[k].threads[t].Inside?
    requires u in states[k].threads && states[k].threads[u].Inside?
    requires states[k].threads[t].name == states[k].threads[u].name
    ensures t == u
  {
    RunKeepsInv(states, steps, k);
  }
}
